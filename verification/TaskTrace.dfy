/** What every run leaves behind: the final table is the replay of its trace, and the trace has a fixed shape. */
module TaskTrace {
  import opened Values
  import opened InstanceKey
  import opened TaskModel

  lemma {:induction false} ReplayConcat(w: World, a: seq<Step>, b: seq<Step>)
    ensures Replay(w, a + b) == Replay(Replay(w, a), b)
    decreases |a|
  {
    if a == [] {
      assert a + b == b;
    } else {
      assert (a + b)[1..] == a[1..] + b;
      ReplayConcat(Apply(w, a[0]), a[1..], b);
    }
  }

  lemma ReplayLast(w: World, a: seq<Step>, s: Step)
    ensures Replay(w, a + [s]) == Apply(Replay(w, a), s)
  {
    ReplayConcat(w, a, [s]);
  }

  /** Step s acts on instance k. */
  predicate On(s: Step, k: string) { !s.Pass? && s.key == k }

  /** Only an external call fires an alarm, clears a failure flag or injects one. */
  predicate Nested(s: Step) {
    !s.Fire? && !s.Settle? && !s.Inject? && !(s.Began? && s.event.None?)
  }

  predicate AllNested(t: seq<Step>) { forall s | s in t :: Nested(s) }

  /** The step changes the failure flag of `key`. */
  predicate Flags(s: Step, key: string) {
    On(s, key) && (s.Settle? || s.Inject?)
  }

  lemma {:induction false} FlagKept(w: World, t: seq<Step>, key: string)
    requires forall s | s in t :: !Flags(s, key)
    ensures At(Replay(w, t), key).failure == At(w, key).failure
    decreases |t|
  {
    if t != [] {
      assert !Flags(t[0], key);
      FlagKept(Apply(w, t[0]), t[1..], key);
    }
  }

  /** Every step acts on `me` or on an instance that a dispatch in the same trace opened. */
  predicate Scoped(t: seq<Step>, me: set<string>) {
    forall s | s in t :: s.Pass? || s.key in me || Open(s.key) in t
  }

  /** Alarms and states are written only by a handler of a task that the key belongs to, in that task's encoding. */
  ghost predicate Owned(reg: Registry, s: Step) {
    match s
    case SetAlarm(key, _) => exists n :: n in reg && Names(n, key)
    case PutState(key, state, raw) =>
      exists n :: n in reg && Names(n, key) && reg[n].codec.encodeState(state) == Some(raw)
    case _ => true
  }

  ghost predicate Proper(reg: Registry, s: Step) {
    s.Pass? || (SEPARATOR in s.key && Owned(reg, s))
  }

  ghost predicate AllProper(reg: Registry, t: seq<Step>) { forall s | s in t :: Proper(reg, s) }

  /** Every handler is started with the failure flag its instance has at that moment. */
  predicate Honest(w: World, t: seq<Step>)
    decreases |t|
  {
    t == [] ||
    ((t[0].Began? ==> t[0].key == t[0].ctx.Instance() && t[0].ctx.systemFailure == At(w, t[0].key).failure)
     && Honest(Apply(w, t[0]), t[1..]))
  }

  lemma {:induction false} HonestConcat(w: World, a: seq<Step>, b: seq<Step>)
    requires Honest(w, a) && Honest(Replay(w, a), b)
    ensures Honest(w, a + b)
    decreases |a|
  {
    if a == [] {
      assert a + b == b;
    } else {
      assert (a + b)[1..] == a[1..] + b;
      HonestConcat(Apply(w, a[0]), a[1..], b);
    }
  }

  ghost predicate Faithful(reg: Registry, w: World, me: set<string>, o: Outcome) {
    && o.world == Replay(w, o.trace)
    && Honest(w, o.trace)
    && Scoped(o.trace, me)
    && AllProper(reg, o.trace)
  }

  /** The outcome of anything a handler can cause. */
  ghost predicate Sound(reg: Registry, w: World, me: set<string>, o: Outcome) {
    Faithful(reg, w, me, o) && AllNested(o.trace)
  }

  lemma FaithfulAfter(reg: Registry, w: World, me: set<string>, t: seq<Step>, o: Outcome)
    requires Honest(w, t) && Scoped(t, me) && AllProper(reg, t)
    requires Faithful(reg, Replay(w, t), me, o)
    ensures Faithful(reg, w, me, After(t, o))
    ensures AllNested(t) && AllNested(o.trace) ==> Sound(reg, w, me, After(t, o))
  {
    ReplayConcat(w, t, o.trace);
    HonestConcat(w, t, o.trace);
  }

  lemma LocalSound(reg: Registry, w: World, ctx: Ctx, op: Op)
    requires ctx.name in reg && !op.SendTo? && !op.GetStateOf?
    ensures Sound(reg, w, {ctx.Instance()}, Local(reg[ctx.name].codec, w, ctx.Instance(), op))
  {
    NamesItsKeys(ctx.name, ctx.id);
    var o := Local(reg[ctx.name].codec, w, ctx.Instance(), op);
    assert o.trace != [] ==> o.trace == [o.trace[0]] && o.world == Apply(w, o.trace[0]);
  }

  lemma {:induction false} RunSound(reg: Registry, w: World, ctx: Ctx, p: Prog, fuel: nat)
    requires ctx.name in reg
    ensures Sound(reg, w, {ctx.Instance()}, Run(reg, w, ctx, p, fuel))
    decreases fuel, 0
  {
    if fuel > 0 && p.Do? {
      var a := Perform(reg, w, ctx, p.op, fuel - 1);
      PerformSound(reg, w, ctx, p.op, fuel - 1);
      if !a.result.Halt? {
        RunSound(reg, a.world, ctx, p.k(a.result), fuel - 1);
        FaithfulAfter(reg, w, {ctx.Instance()}, a.trace, Run(reg, a.world, ctx, p.k(a.result), fuel - 1));
      }
    }
  }

  lemma {:induction false} PerformSound(reg: Registry, w: World, ctx: Ctx, op: Op, fuel: nat)
    requires ctx.name in reg
    ensures Sound(reg, w, {ctx.Instance()}, Perform(reg, w, ctx, op, fuel))
    decreases fuel, 4
  {
    match op
    case SendTo(name, id, event) =>
      DispatchSound(reg, w, name, id, event, fuel);
    case GetStateOf(name, id) =>
      assert Replay(w, [Open(Key(name, id))]) == Apply(w, Open(Key(name, id)));
    case _ =>
      LocalSound(reg, w, ctx, op);
  }

  lemma {:induction false} DispatchSound(reg: Registry, w: World, name: string, id: string, event: Json, fuel: nat)
    ensures Sound(reg, w, {}, Dispatch(reg, w, name, id, event, fuel))
    decreases fuel, 3
  {
    if name in reg {
      HandleEventSound(reg, w, name, id, event, fuel);
    }
  }

  /** A local operation hands its answer to the rest of the program. */
  lemma LocalRuns(reg: Registry, w: World, ctx: Ctx, op: Op, k: Result -> Prog, fuel: nat)
    requires ctx.name in reg && !op.SendTo? && !op.GetStateOf? && fuel >= 1
    ensures var a := Local(reg[ctx.name].codec, w, ctx.Instance(), op);
            Run(reg, w, ctx, Do(op, k), fuel) == After(a.trace, Run(reg, a.world, ctx, k(a.result), fuel - 1))
  {
    var a := Perform(reg, w, ctx, op, fuel - 1);
    assert a == Local(reg[ctx.name].codec, w, ctx.Instance(), op) && !a.result.Halt?;
    assert Run(reg, w, ctx, Do(op, k), fuel) == Continued(reg, w, ctx, op, k, fuel - 1);
  }

  /** Delivering an event opens the context and, if the event fits, starts the handler and runs it. */
  lemma DeliveredIs(reg: Registry, w: World, name: string, id: string, raw: Json, fuel: nat)
    requires name in reg
    ensures var o := HandleEvent(reg, w, name, id, raw, fuel);
            var w1, c := Apply(w, Open(Key(name, id))), ContextFor(w, name, id);
            match reg[name].codec.decodeEvent(raw)
            case None => o == Outcome(w1, Failure(TaskValidationError), [Open(Key(name, id))])
            case Some(e) =>
              var g := Guarded(reg, w1, c, reg[name].onEvent(c, e), reg[name].onEventError, fuel);
              && o.world == g.world && o.result == g.result
              && o.trace == [Open(Key(name, id))] + ([Began(Key(name, id), c, Some(raw))] + g.trace)
  {
    var e := EventBody(reg, Apply(w, Open(Key(name, id))), ContextFor(w, name, id), raw, fuel);
    assert HandleEvent(reg, w, name, id, raw, fuel) == After([Open(Key(name, id))], e);
  }

  lemma {:induction false} HandleEventSound(reg: Registry, w: World, name: string, id: string, raw: Json, fuel: nat)
    requires name in reg
    ensures Sound(reg, w, {}, HandleEvent(reg, w, name, id, raw, fuel))
    ensures Open(Key(name, id)) in HandleEvent(reg, w, name, id, raw, fuel).trace
    decreases fuel, 2
  {
    var opening, ctx := [Open(Key(name, id))], ContextFor(w, name, id);
    var e := EventBody(reg, Apply(w, Open(Key(name, id))), ctx, raw, fuel);
    assert Replay(w, opening) == Apply(w, Open(Key(name, id)));
    if reg[name].codec.decodeEvent(raw).Some? {
      var event := reg[name].codec.decodeEvent(raw).value;
      GuardedSound(reg, Replay(w, opening), ctx, reg[name].onEvent(ctx, event), reg[name].onEventError, fuel);
      BeganSound(reg, Replay(w, opening), ctx, Some(raw),
                 Guarded(reg, Replay(w, opening), ctx, reg[name].onEvent(ctx, event), reg[name].onEventError, fuel));
    }
    FaithfulAfter(reg, w, {Key(name, id)}, opening, e);
    assert After(opening, e).trace[0] == Open(Key(name, id));
  }

  /** A handler start in front of what the handler causes. */
  lemma BeganSound(reg: Registry, w: World, ctx: Ctx, event: Option<Json>, o: Outcome)
    requires ctx.systemFailure == At(w, ctx.Instance()).failure && Sound(reg, w, {ctx.Instance()}, o)
    ensures Faithful(reg, w, {ctx.Instance()}, After([Began(ctx.Instance(), ctx, event)], o))
    ensures event.Some? ==> Sound(reg, w, {ctx.Instance()}, After([Began(ctx.Instance(), ctx, event)], o))
  {
    var start := [Began(ctx.Instance(), ctx, event)];
    assert Replay(w, start) == w;
    FaithfulAfter(reg, w, {ctx.Instance()}, start, o);
  }

  lemma CleanupSound(reg: Registry, w: World, ctx: Ctx)
    ensures Sound(reg, w, {ctx.Instance()}, Cleanup(w, ctx))
  {
  }

  lemma {:induction false} GuardedSound(reg: Registry, w: World, ctx: Ctx, p: Prog,
                                        onError: Option<(Ctx, Err) -> Prog>, fuel: nat)
    requires ctx.name in reg
    ensures Sound(reg, w, {ctx.Instance()}, Guarded(reg, w, ctx, p, onError, fuel))
    decreases fuel, 1
  {
    var o := Run(reg, w, ctx, p, fuel);
    RunSound(reg, w, ctx, p, fuel);
    if o.result.Failure? {
      RoutedSound(reg, o.world, ctx, o.result.e, onError, fuel);
      FaithfulAfter(reg, w, {ctx.Instance()}, o.trace, Routed(reg, o.world, ctx, o.result.e, onError, fuel));
    }
  }

  lemma {:induction false} RoutedSound(reg: Registry, w: World, ctx: Ctx, e: Err,
                                       onError: Option<(Ctx, Err) -> Prog>, fuel: nat)
    requires ctx.name in reg
    ensures Sound(reg, w, {ctx.Instance()}, Routed(reg, w, ctx, e, onError, fuel))
    decreases fuel, 1, 0
  {
    CleanupSound(reg, w, ctx);
    if e != PurgeSignal && onError.Some? {
      var h := Run(reg, w, ctx, onError.value(ctx, e), fuel);
      RunSound(reg, w, ctx, onError.value(ctx, e), fuel);
      CleanupSound(reg, h.world, ctx);
      FaithfulAfter(reg, w, {ctx.Instance()}, h.trace, Cleanup(h.world, ctx));
    }
  }

  // ----- Time -----

  /** The time that passes during a trace. */
  function Passed(t: seq<Step>): nat {
    if t == [] then 0 else (if t[0].Pass? then t[0].ms else 0) + Passed(t[1..])
  }

  lemma {:induction false} ClockFollows(w: World, t: seq<Step>)
    ensures Replay(w, t).clock == w.clock + Passed(t)
    decreases |t|
  {
    if t != [] {
      ClockFollows(Apply(w, t[0]), t[1..]);
    }
  }

  /**
   * The clock moves by exactly the time that passes in a call: by what was asked for when only time is to pass, and not
   * at all while a state is read or a failure injected.
   */
  lemma CallTakesTime(reg: Registry, w: World, call: Call, fuel: nat)
    ensures var o := Invoke(reg, w, call, fuel);
            && o.world.clock == w.clock + Passed(o.trace)
            && (call.Elapse? ==> o == Outcome(w.(clock := w.clock + call.ms), Value(JNull), [Pass(call.ms)]))
            && (call.GetState? || call.InjectFailure? ==> o.world.clock == w.clock)
            && (call.InjectFailure? ==> o.result == Value(JNull))
  {
    InvokeFaithful(reg, w, call, fuel);
    ClockFollows(w, Invoke(reg, w, call, fuel).trace);
  }

  // ----- External calls -----

  lemma SettledFaithful(reg: Registry, w: World, o: Outcome, key: string)
    requires Faithful(reg, w, {}, o) && Open(key) in o.trace
    ensures Faithful(reg, w, {}, Settled(o, key))
  {
    ReplayLast(w, o.trace, Settle(key));
    HonestConcat(w, o.trace, [Settle(key)]);
  }

  /** What runs between the start of an alarm handler and the end of its error handler. */
  function FiringBody(reg: Registry, w: World, name: string, id: string, fuel: nat): Outcome
    requires name in reg
  {
    RunAlarm(reg, FireWorld(w, Key(name, id)), ContextFor(w, name, id), fuel)
  }

  /** The steps before an alarm handler runs: context, consumed alarm, start. */
  function FiringHead(w: World, name: string, id: string): seq<Step> {
    [Open(Key(name, id)), Fire(Key(name, id))] + [Began(Key(name, id), ContextFor(w, name, id), None)]
  }

  lemma FiringParts(reg: Registry, w: World, name: string, id: string, fuel: nat)
    requires name in reg
    ensures var o, body := FireInstance(reg, w, name, id, fuel), FiringBody(reg, w, name, id, fuel);
            && o.trace == FiringHead(w, name, id) + body.trace + Settlement(Key(name, id), o.result)
            && o.result == body.result
            && o.world == (if body.result.Value? then Apply(body.world, Settle(Key(name, id))) else body.world)
  {
    var key, body := Key(name, id), FiringBody(reg, w, name, id, fuel);
    assert AlarmBody(reg, FireWorld(w, key), name, id, fuel)
           == After([Began(key, ContextFor(w, name, id), None)], body);
    assert [Open(key), Fire(key)] + ([Began(key, ContextFor(w, name, id), None)] + body.trace)
           == FiringHead(w, name, id) + body.trace;
  }

  /** A firing consumes the alarm once, runs the alarm hook once, and settles exactly when it succeeds. */
  lemma FiringShape(reg: Registry, w: World, name: string, id: string, fuel: nat)
    requires name in reg
    ensures var o, body := FireInstance(reg, w, name, id, fuel), FiringBody(reg, w, name, id, fuel);
            && o.trace == FiringHead(w, name, id) + body.trace + Settlement(Key(name, id), o.result)
            && o.result == body.result
            && AllNested(body.trace)
            && Sound(reg, Replay(w, FiringHead(w, name, id)), {Key(name, id)}, body)
            && Faithful(reg, w, {}, o)
  {
    var key, ctx, body := Key(name, id), ContextFor(w, name, id), FiringBody(reg, w, name, id, fuel);
    var opening := [Open(key)] + [Fire(key)];
    FiringParts(reg, w, name, id, fuel);
    ReplayLast(w, [Open(key)], Fire(key));
    assert opening == [Open(key), Fire(key)];
    assert Replay(w, opening) == FireWorld(w, key);
    GuardedSound(reg, FireWorld(w, key), ctx, reg[name].onAlarm(ctx), reg[name].onAlarmError, fuel);
    BeganSound(reg, FireWorld(w, key), ctx, None, body);
    ReplayLast(w, opening, Began(key, ctx, None));
    FiringFaithful(reg, w, name, id, fuel, opening, body);
  }

  lemma FiringFaithful(reg: Registry, w: World, name: string, id: string, fuel: nat, opening: seq<Step>, body: Outcome)
    requires name in reg && opening == [Open(Key(name, id)), Fire(Key(name, id))]
             && body == FiringBody(reg, w, name, id, fuel)
    requires Replay(w, opening) == FireWorld(w, Key(name, id)) && Honest(w, opening)
    requires Faithful(reg, FireWorld(w, Key(name, id)), {Key(name, id)},
                      After([Began(Key(name, id), ContextFor(w, name, id), None)], body))
    ensures Faithful(reg, w, {}, FireInstance(reg, w, name, id, fuel))
  {
    var key := Key(name, id);
    var started := After([Began(key, ContextFor(w, name, id), None)], body);
    FaithfulAfter(reg, w, {key}, opening, started);
    assert After(opening, started).trace[0] == Open(key);
    SettledFaithful(reg, w, After(opening, started), key);
  }

  /** A delivered event settles its instance exactly when it succeeds. */
  lemma SendShape(reg: Registry, w: World, name: string, id: string, event: Json, fuel: nat)
    requires name in reg
    ensures var o, body := Invoke(reg, w, Send(name, id, event), fuel), HandleEvent(reg, w, name, id, event, fuel);
            && o.trace == body.trace + Settlement(Key(name, id), o.result)
            && o.result == body.result
            && AllNested(body.trace)
            && Faithful(reg, w, {}, o)
  {
    HandleEventSound(reg, w, name, id, event, fuel);
    SettledFaithful(reg, w, HandleEvent(reg, w, name, id, event, fuel), Key(name, id));
  }

  lemma {:induction false} FireAllFaithful(reg: Registry, w: World, keys: seq<string>, fuel: nat)
    ensures Faithful(reg, w, {}, FireAll(reg, w, keys, fuel))
    decreases |keys|
  {
    if keys != [] {
      var (name, id) := Parse(keys[0]);
      if name !in reg {
        FireAllFaithful(reg, w, keys[1..], fuel);
      } else {
        var o := FireInstance(reg, w, name, id, fuel);
        FiringShape(reg, w, name, id, fuel);
        FireAllFaithful(reg, o.world, keys[1..], fuel);
        FaithfulAfter(reg, w, {}, o.trace, FireAll(reg, o.world, keys[1..], fuel));
      }
    }
  }

  lemma InvokeFaithful(reg: Registry, w: World, call: Call, fuel: nat)
    ensures Faithful(reg, w, {}, Invoke(reg, w, call, fuel))
  {
    match call
    case Send(name, id, event) =>
      if name in reg { SendShape(reg, w, name, id, event, fuel); }
    case FireAlarm(name, id) =>
      if name in reg { FiringShape(reg, w, name, id, fuel); }
    case GetState(name, id) =>
      assert Replay(w, [Open(Key(name, id))]) == Apply(w, Open(Key(name, id)));
    case Tick(now) =>
      FireAllFaithful(reg, w, Due(w, now), fuel);
    case InjectFailure(name, id, f) =>
      var key := Key(name, id);
      ReplayLast(w, [Open(key)], Inject(key, f));
      assert [Open(key)] + [Inject(key, f)] == [Open(key), Inject(key, f)];
      assert [Open(key), Inject(key, f)][0] == Open(key);
    case Elapse(ms) =>
      assert Replay(w, [Pass(ms)]) == Apply(w, Pass(ms));
  }

  /** Over any run of external calls, the table is the replay of the trace. */
  lemma {:induction false} ServeFaithful(reg: Registry, w: World, calls: seq<Call>, fuel: nat)
    ensures var s := Serve(reg, w, calls, fuel);
            s.world == Replay(w, s.trace) && Honest(w, s.trace) && Scoped(s.trace, {}) && AllProper(reg, s.trace)
    decreases |calls|
  {
    if calls != [] {
      var o := Invoke(reg, w, calls[0], fuel);
      InvokeFaithful(reg, w, calls[0], fuel);
      ServeFaithful(reg, o.world, calls[1..], fuel);
      ReplayConcat(w, o.trace, Serve(reg, o.world, calls[1..], fuel).trace);
      HonestConcat(w, o.trace, Serve(reg, o.world, calls[1..], fuel).trace);
    }
  }
}
