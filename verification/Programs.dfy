/** What every step of a run keeps when all handlers keep to some operations, judged by their programs alone. */
module Programs {
  import opened Values
  import opened InstanceKey
  import opened TaskModel
  import opened TaskTrace

  /** Within its first `steps` operations a handler of task `name` uses only allowed ones, whatever it is answered. */
  ghost predicate Only(p: Prog, name: string, allowed: (string, Op) -> bool, steps: nat)
    decreases steps
  {
    p.Do? && steps > 0 ==> allowed(name, p.op) && forall r: Result :: Only(p.k(r), name, allowed, steps - 1)
  }

  ghost predicate HooksOnly(h: Hooks, name: string, allowed: (string, Op) -> bool, steps: nat) {
    && (forall ctx: Ctx, event: Json :: Only(h.onEvent(ctx, event), name, allowed, steps))
    && (forall ctx: Ctx :: Only(h.onAlarm(ctx), name, allowed, steps))
    && (h.onEventError.Some? ==> forall ctx: Ctx, e: Err :: Only(h.onEventError.value(ctx, e), name, allowed, steps))
    && (h.onAlarmError.Some? ==> forall ctx: Ctx, e: Err :: Only(h.onAlarmError.value(ctx, e), name, allowed, steps))
  }

  ghost predicate TasksOnly(reg: Registry, allowed: (string, Op) -> bool, steps: nat) {
    forall name :: name in reg ==> HooksOnly(reg[name], name, allowed, steps)
  }

  predicate AllGood(t: seq<Step>, good: Step -> bool) { forall s | s in t :: good(s) }

  /** A local operation that is allowed, at a time from `now` on, takes only good steps. */
  ghost predicate TakesGood(reg: Registry, allowed: (string, Op) -> bool, good: Step -> bool, now: int,
                            w: World, ctx: Ctx, op: Op) {
    ctx.name in reg && !op.SendTo? && !op.GetStateOf? && allowed(ctx.name, op) && w.clock >= now ==>
      AllGood(Local(reg[ctx.name].codec, w, ctx.Instance(), op).trace, good)
  }

  /** Allowed operations take only good steps, and so does everything that is not an operation of a handler. */
  ghost predicate Keeps(reg: Registry, allowed: (string, Op) -> bool, good: Step -> bool, now: int) {
    && (forall s: Step :: !s.PutState? && !s.SetAlarm? && !s.ClearAlarm? ==> good(s))
    && (forall w: World, ctx: Ctx, op: Op :: TakesGood(reg, allowed, good, now, w, ctx, op))
  }

  lemma {:induction false} FewerSteps(p: Prog, name: string, allowed: (string, Op) -> bool, less: nat, more: nat)
    requires less <= more && Only(p, name, allowed, more)
    ensures Only(p, name, allowed, less)
    decreases less
  {
    if p.Do? && less > 0 {
      forall r: Result ensures Only(p.k(r), name, allowed, less - 1) {
        FewerSteps(p.k(r), name, allowed, less - 1, more - 1);
      }
    }
  }

  predicate Fine(o: Outcome, good: Step -> bool, now: int) { AllGood(o.trace, good) && o.world.clock >= now }

  lemma FineAfter(t: seq<Step>, o: Outcome, good: Step -> bool, now: int)
    requires AllGood(t, good) && Fine(o, good, now)
    ensures Fine(After(t, o), good, now)
  {
  }

  lemma {:induction false} RunFine(reg: Registry, w: World, ctx: Ctx, p: Prog, fuel: nat, steps: nat,
                                   allowed: (string, Op) -> bool, good: Step -> bool, now: int)
    requires ctx.name in reg && w.clock >= now && fuel <= steps
    requires TasksOnly(reg, allowed, steps) && Keeps(reg, allowed, good, now) && Only(p, ctx.name, allowed, fuel)
    ensures Fine(Run(reg, w, ctx, p, fuel), good, now)
    decreases fuel, 0
  {
    if fuel > 0 && p.Do? {
      ContinuedFine(reg, w, ctx, p, fuel - 1, steps, allowed, good, now);
    }
  }

  lemma {:induction false} ContinuedFine(reg: Registry, w: World, ctx: Ctx, p: Prog, fuel: nat, steps: nat,
                                         allowed: (string, Op) -> bool, good: Step -> bool, now: int)
    requires ctx.name in reg && w.clock >= now && fuel < steps && p.Do?
    requires TasksOnly(reg, allowed, steps) && Keeps(reg, allowed, good, now) && Only(p, ctx.name, allowed, fuel + 1)
    ensures Fine(Continued(reg, w, ctx, p.op, p.k, fuel), good, now)
    decreases fuel, 5
  {
    var a := Perform(reg, w, ctx, p.op, fuel);
    PerformFine(reg, w, ctx, p.op, fuel, steps, allowed, good, now);
    if !a.result.Halt? {
      assert Only(p.k(a.result), ctx.name, allowed, fuel);
      RunFine(reg, a.world, ctx, p.k(a.result), fuel, steps, allowed, good, now);
      FineAfter(a.trace, Run(reg, a.world, ctx, p.k(a.result), fuel), good, now);
    }
  }

  lemma {:induction false} PerformFine(reg: Registry, w: World, ctx: Ctx, op: Op, fuel: nat, steps: nat,
                                       allowed: (string, Op) -> bool, good: Step -> bool, now: int)
    requires ctx.name in reg && w.clock >= now && fuel <= steps && allowed(ctx.name, op)
    requires TasksOnly(reg, allowed, steps) && Keeps(reg, allowed, good, now)
    ensures Fine(Perform(reg, w, ctx, op, fuel), good, now)
    decreases fuel, 4
  {
    if op.SendTo? {
      if op.name in reg {
        HandleEventFine(reg, w, op.name, op.id, op.event, fuel, steps, allowed, good, now);
        assert Perform(reg, w, ctx, op, fuel) == Dispatch(reg, w, op.name, op.id, op.event, fuel);
      }
    } else if !op.GetStateOf? {
      assert TakesGood(reg, allowed, good, now, w, ctx, op);
      LocalClock(reg[ctx.name].codec, w, ctx.Instance(), op);
    }
  }

  lemma LocalClock(codec: Codec, w: World, key: string, op: Op)
    requires !op.SendTo? && !op.GetStateOf?
    ensures Local(codec, w, key, op).world.clock >= w.clock
  {
  }

  lemma {:induction false} HandleEventFine(reg: Registry, w: World, name: string, id: string, raw: Json,
                                           fuel: nat, steps: nat,
                                           allowed: (string, Op) -> bool, good: Step -> bool, now: int)
    requires name in reg && w.clock >= now && fuel <= steps
    requires TasksOnly(reg, allowed, steps) && Keeps(reg, allowed, good, now)
    ensures Fine(HandleEvent(reg, w, name, id, raw, fuel), good, now)
    decreases fuel, 2
  {
    DeliveredIs(reg, w, name, id, raw, fuel);
    if reg[name].codec.decodeEvent(raw).Some? {
      var event, ctx := reg[name].codec.decodeEvent(raw).value, ContextFor(w, name, id);
      assert HooksOnly(reg[name], name, allowed, steps);
      GuardedFine(reg, Apply(w, Open(Key(name, id))), ctx, reg[name].onEvent(ctx, event), reg[name].onEventError,
                  fuel, steps, allowed, good, now);
    }
  }

  lemma {:induction false} GuardedFine(reg: Registry, w: World, ctx: Ctx, p: Prog, onError: Option<(Ctx, Err) -> Prog>,
                                       fuel: nat, steps: nat,
                                       allowed: (string, Op) -> bool, good: Step -> bool, now: int)
    requires ctx.name in reg && w.clock >= now && fuel <= steps
    requires TasksOnly(reg, allowed, steps) && Keeps(reg, allowed, good, now)
    requires Only(p, ctx.name, allowed, steps)
    requires onError.Some? ==> forall e: Err :: Only(onError.value(ctx, e), ctx.name, allowed, steps)
    ensures Fine(Guarded(reg, w, ctx, p, onError, fuel), good, now)
    decreases fuel, 1
  {
    var o := Run(reg, w, ctx, p, fuel);
    FewerSteps(p, ctx.name, allowed, fuel, steps);
    RunFine(reg, w, ctx, p, fuel, steps, allowed, good, now);
    if o.result.Failure? {
      if o.result.e != PurgeSignal && onError.Some? {
        var q := onError.value(ctx, o.result.e);
        FewerSteps(q, ctx.name, allowed, fuel, steps);
        RunFine(reg, o.world, ctx, q, fuel, steps, allowed, good, now);
      }
      RoutedFine(reg, o.world, ctx, o.result.e, onError, fuel, good, now);
      FineAfter(o.trace, Routed(reg, o.world, ctx, o.result.e, onError, fuel), good, now);
    }
  }

  lemma RoutedFine(reg: Registry, w: World, ctx: Ctx, e: Err, onError: Option<(Ctx, Err) -> Prog>, fuel: nat,
                   good: Step -> bool, now: int)
    requires ctx.name in reg && w.clock >= now && good(Wipe(ctx.Instance()))
    requires e != PurgeSignal && onError.Some? ==> Fine(Run(reg, w, ctx, onError.value(ctx, e), fuel), good, now)
    ensures Fine(Routed(reg, w, ctx, e, onError, fuel), good, now)
  {
  }

  lemma FiringFine(reg: Registry, w: World, name: string, id: string, fuel: nat,
                   allowed: (string, Op) -> bool, good: Step -> bool, now: int)
    requires name in reg && w.clock >= now
    requires TasksOnly(reg, allowed, fuel) && Keeps(reg, allowed, good, now)
    ensures Fine(FireInstance(reg, w, name, id, fuel), good, now)
  {
    var ctx := ContextFor(w, name, id);
    assert HooksOnly(reg[name], name, allowed, fuel);
    GuardedFine(reg, FireWorld(w, Key(name, id)), ctx, reg[name].onAlarm(ctx), reg[name].onAlarmError,
                fuel, fuel, allowed, good, now);
    FiringParts(reg, w, name, id, fuel);
  }

  lemma {:induction false} FireAllFine(reg: Registry, w: World, keys: seq<string>, fuel: nat,
                                       allowed: (string, Op) -> bool, good: Step -> bool, now: int)
    requires w.clock >= now && TasksOnly(reg, allowed, fuel) && Keeps(reg, allowed, good, now)
    ensures Fine(FireAll(reg, w, keys, fuel), good, now)
    decreases |keys|
  {
    if keys != [] {
      var (name, id) := Parse(keys[0]);
      if name !in reg {
        FireAllFine(reg, w, keys[1..], fuel, allowed, good, now);
      } else {
        var o := FireInstance(reg, w, name, id, fuel);
        FiringFine(reg, w, name, id, fuel, allowed, good, now);
        FireAllFine(reg, o.world, keys[1..], fuel, allowed, good, now);
        FineAfter(o.trace, FireAll(reg, o.world, keys[1..], fuel), good, now);
      }
    }
  }

  lemma SendFine(reg: Registry, w: World, name: string, id: string, event: Json, fuel: nat,
                 allowed: (string, Op) -> bool, good: Step -> bool, now: int)
    requires name in reg && w.clock >= now && TasksOnly(reg, allowed, fuel) && Keeps(reg, allowed, good, now)
    ensures Fine(Invoke(reg, w, Send(name, id, event), fuel), good, now)
  {
    HandleEventFine(reg, w, name, id, event, fuel, fuel, allowed, good, now);
    SendShape(reg, w, name, id, event, fuel);
  }

  lemma CallFine(reg: Registry, w: World, call: Call, fuel: nat,
                 allowed: (string, Op) -> bool, good: Step -> bool, now: int)
    requires w.clock >= now && TasksOnly(reg, allowed, fuel) && Keeps(reg, allowed, good, now)
    ensures Fine(Invoke(reg, w, call, fuel), good, now)
  {
    match call
    case Send(name, id, event) => if name in reg { SendFine(reg, w, name, id, event, fuel, allowed, good, now); }
    case FireAlarm(name, id) => if name in reg { FiringFine(reg, w, name, id, fuel, allowed, good, now); }
    case Tick(time) => FireAllFine(reg, w, Due(w, time), fuel, allowed, good, now);
    case _ =>
  }

  /** When all handlers keep to allowed operations, every step of every run is good. */
  lemma {:induction false} RunsKeepGood(reg: Registry, w: World, calls: seq<Call>, fuel: nat,
                                        allowed: (string, Op) -> bool, good: Step -> bool, now: int)
    requires w.clock >= now && TasksOnly(reg, allowed, fuel) && Keeps(reg, allowed, good, now)
    ensures AllGood(Serve(reg, w, calls, fuel).trace, good)
    decreases |calls|
  {
    if calls != [] {
      CallFine(reg, w, calls[0], fuel, allowed, good, now);
      RunsKeepGood(reg, Invoke(reg, w, calls[0], fuel).world, calls[1..], fuel, allowed, good, now);
    }
  }
}
