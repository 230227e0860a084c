/** Who sees an injected system failure, and when it goes away. */
module FailureFlag {
  import opened Values
  import opened InstanceKey
  import opened TaskModel
  import opened TaskTrace
  import opened AlarmLedger
  import opened TickSemantics

  lemma {:induction false} HonestAt(w: World, t: seq<Step>, i: nat)
    requires Honest(w, t) && i < |t| && t[i].Began?
    ensures t[i].ctx.systemFailure == At(Replay(w, t[..i]), t[i].key).failure
    decreases |t|
  {
    if i > 0 {
      HonestAt(Apply(w, t[0]), t[1..], i - 1);
      assert t[..i][1..] == t[1..][..i - 1];
    }
  }

  predicate Unflagged(t: seq<Step>, key: string) {
    forall s | s in t :: !Flags(s, key)
  }

  /** Without an injection no flag ever comes up. */
  lemma {:induction false} NoFlagAppears(w: World, t: seq<Step>, key: string)
    requires At(w, key).failure == None && forall s | s in t :: !(On(s, key) && s.Inject?)
    ensures At(Replay(w, t), key).failure == None
    decreases |t|
  {
    if t != [] {
      assert t[0] in t;
      NoFlagAppears(Apply(w, t[0]), t[1..], key);
    }
  }

  /**
   * In every run, a handler of an instance that no failure was injected into before sees none, however often it
   * settled.
   */
  lemma NoFailureBeforeInjection(reg: Registry, calls: seq<Call>, fuel: nat, j: nat)
    requires var t := Serve(reg, EMPTY, calls, fuel).trace;
             j < |t| && t[j].Began? && forall i :: 0 <= i < j ==> !(On(t[i], t[j].key) && t[i].Inject?)
    ensures Serve(reg, EMPTY, calls, fuel).trace[j].ctx.systemFailure == None
  {
    var t := Serve(reg, EMPTY, calls, fuel).trace;
    ServeFaithful(reg, EMPTY, calls, fuel);
    HonestAt(EMPTY, t, j);
    NoFlagAppears(EMPTY, t[..j], t[j].key);
  }

  /**
   * In every run, a handler that starts at step j sees exactly what the last injection or settlement of its instance,
   * at step i, left: the injected failure if that was an injection, and nothing if it was a settlement.
   */
  lemma HandlersSeeTheFlag(reg: Registry, calls: seq<Call>, fuel: nat, i: nat, j: nat)
    requires var t := Serve(reg, EMPTY, calls, fuel).trace;
             i < j < |t| && t[j].Began? && Flags(t[i], t[j].key) && Unflagged(t[i + 1..j], t[j].key)
    ensures var t := Serve(reg, EMPTY, calls, fuel).trace;
            t[j].ctx.systemFailure == if t[i].Inject? then Some(t[i].failure) else None
  {
    ServeFaithful(reg, EMPTY, calls, fuel);
    StartSeesLastFlag(EMPTY, Serve(reg, EMPTY, calls, fuel).trace, i, j);
  }

  lemma StartSeesLastFlag(w: World, t: seq<Step>, i: nat, j: nat)
    requires Honest(w, t) && i < j < |t| && t[j].Began? && Flags(t[i], t[j].key) && Unflagged(t[i + 1..j], t[j].key)
    ensures t[j].ctx.systemFailure == if t[i].Inject? then Some(t[i].failure) else None
  {
    HonestAt(w, t, j);
    LastFlag(w, t[..i], t[i], t[i + 1..j], t[j].key);
    assert t[..j] == t[..i] + [t[i]] + t[i + 1..j];
  }

  lemma LastFlag(w: World, a: seq<Step>, s: Step, b: seq<Step>, key: string)
    requires Flags(s, key) && Unflagged(b, key)
    ensures At(Replay(w, a + [s] + b), key).failure == if s.Inject? then Some(s.failure) else None
  {
    ReplayLast(w, a, s);
    ReplayConcat(w, a + [s], b);
    FlagKept(Replay(w, a + [s]), b, key);
  }

  /**
   * An external send or alarm firing settles the instance it was made on if and only if it succeeds, and as its very
   * last step; no dispatch nested in it ever clears or sets a flag.
   */
  lemma OnlySuccessSettles(reg: Registry, w: World, call: Call, fuel: nat)
    requires call.Send? || call.FireAlarm?
    requires call.name in reg
    ensures var o := Invoke(reg, w, call, fuel);
            && o.trace != []
            && (o.result.Value? <==> o.trace[|o.trace| - 1] == Settle(Key(call.name, call.id)))
            && (forall i :: 0 <= i < |o.trace| - 1 ==> Calm(o.trace[i]))
            && (!o.result.Value? ==> forall s | s in o.trace :: Calm(s))
  {
    var o := Invoke(reg, w, call, fuel);
    if call.Send? {
      SendShape(reg, w, call.name, call.id, call.event, fuel);
      HandleEventSound(reg, w, call.name, call.id, call.event, fuel);
      var body := HandleEvent(reg, w, call.name, call.id, call.event, fuel);
      SettleIsLast(o.trace, body.trace, Key(call.name, call.id), o.result.Value?);
    } else {
      FiringShape(reg, w, call.name, call.id, fuel);
      var head, body := FiringHead(w, call.name, call.id), FiringBody(reg, w, call.name, call.id, fuel);
      assert forall s | s in head :: Calm(s);
      SettleIsLast(o.trace, head + body.trace, Key(call.name, call.id), o.result.Value?);
    }
  }

  predicate Calm(s: Step) { !s.Settle? && !s.Inject? }

  lemma SettleIsLast(t: seq<Step>, b: seq<Step>, key: string, succeeded: bool)
    requires b != [] && (forall s | s in b :: Calm(s))
    requires t == b + (if succeeded then [Settle(key)] else [])
    ensures t != [] && (succeeded <==> t[|t| - 1] == Settle(key))
    ensures forall i :: 0 <= i < |t| - 1 ==> Calm(t[i])
    ensures !succeeded ==> forall s | s in t :: Calm(s)
  {
    assert forall i :: 0 <= i < |b| ==> t[i] == b[i] && Calm(b[i]);
  }

  // ----- Which flags a call clears -----

  /** The instances a trace settles, in order. */
  function Settles(t: seq<Step>): seq<string> {
    if t == [] then [] else (if t[0].Settle? then [t[0].key] else []) + Settles(t[1..])
  }

  lemma {:induction false} SettlesConcat(a: seq<Step>, b: seq<Step>)
    ensures Settles(a + b) == Settles(a) + Settles(b)
  {
    if a == [] {
      assert a + b == b;
    } else {
      assert (a + b)[1..] == a[1..] + b && (a + b)[0] == a[0];
      SettlesConcat(a[1..], b);
    }
  }

  lemma {:induction false} SettlesAreSteps(t: seq<Step>, key: string)
    ensures key in Settles(t) <==> Settle(key) in t
  {
    if t != [] {
      SettlesAreSteps(t[1..], key);
      assert Settle(key) in t <==> t[0] == Settle(key) || Settle(key) in t[1..];
    }
  }

  lemma {:induction false} CalmSettlesNothing(t: seq<Step>)
    requires forall s | s in t :: !s.Settle?
    ensures Settles(t) == []
  {
    if t != [] {
      assert t[0] in t;
      CalmSettlesNothing(t[1..]);
    }
  }

  lemma SettlesAtEnd(b: seq<Step>, key: string, succeeded: bool)
    requires forall s | s in b :: !s.Settle?
    ensures Settles(b + if succeeded then [Settle(key)] else []) == if succeeded then [key] else []
  {
    CalmSettlesNothing(b);
    SettlesConcat(b, if succeeded then [Settle(key)] else []);
  }

  lemma FiringSettles(reg: Registry, w: World, name: string, id: string, fuel: nat)
    requires name in reg
    ensures var o := FireInstance(reg, w, name, id, fuel);
            Settles(o.trace) == if o.result.Value? then [Key(name, id)] else []
  {
    var o, body := FireInstance(reg, w, name, id, fuel), FiringBody(reg, w, name, id, fuel);
    FiringShape(reg, w, name, id, fuel);
    var b := FiringHead(w, name, id) + body.trace;
    assert forall s | s in FiringHead(w, name, id) :: !s.Settle?;
    assert forall s | s in b :: !s.Settle?;
    SettlesAtEnd(b, Key(name, id), o.result.Value?);
  }

  /** The firings of a tick that succeeded: all of them, or all but the one that ended the tick. */
  function Succeeded(o: Outcome): seq<string> {
    var fired := Fires(o.trace);
    if o.result.Value? || fired == [] then fired else fired[..|fired| - 1]
  }

  lemma {:induction false} FireAllSettles(reg: Registry, w: World, keys: seq<string>, fuel: nat)
    ensures var o := FireAll(reg, w, keys, fuel);
            Settles(o.trace) == Succeeded(o) && (!o.result.Value? ==> Fires(o.trace) != [])
    decreases |keys|
  {
    if keys != [] {
      var (name, id) := Parse(keys[0]);
      if name !in reg {
        FireAllSettles(reg, w, keys[1..], fuel);
      } else {
        var o := FireInstance(reg, w, name, id, fuel);
        FiringSettles(reg, w, name, id, fuel);
        FiringFiresOnce(reg, w, name, id, fuel);
        if o.result.Value? {
          var rest := FireAll(reg, o.world, keys[1..], fuel);
          FireAllSettles(reg, o.world, keys[1..], fuel);
          SettlesConcat(o.trace, rest.trace);
          FiresConcat(o.trace, rest.trace);
        }
      }
    }
  }

  /** The instances whose failure flag a call clears, in order. */
  function Cleared(call: Call, o: Outcome): seq<string> {
    if call.Tick? then Succeeded(o)
    else if (call.Send? || call.FireAlarm?) && o.result.Value? then [Key(call.name, call.id)]
    else []
  }

  /**
   * A send or an alarm firing settles its instance when it succeeds and nothing otherwise; a tick settles every
   * instance it fired when it succeeds, and when it does not, all of them but the last, whose firing ended it; no
   * other call settles anything.
   */
  lemma CallSettlesExactly(reg: Registry, w: World, call: Call, fuel: nat)
    ensures var o := Invoke(reg, w, call, fuel);
            Settles(o.trace) == Cleared(call, o) && (call.Tick? && !o.result.Value? ==> Fires(o.trace) != [])
  {
    match call
    case Send(name, id, event) =>
      if name in reg {
        var o, body := Invoke(reg, w, call, fuel), HandleEvent(reg, w, name, id, event, fuel);
        SendShape(reg, w, name, id, event, fuel);
        SettlesAtEnd(body.trace, Key(name, id), o.result.Value?);
      }
    case FireAlarm(name, id) => if name in reg { FiringSettles(reg, w, name, id, fuel); }
    case Tick(now) => FireAllSettles(reg, w, Due(w, now), fuel);
    case _ => CalmSettlesNothing(Invoke(reg, w, call, fuel).trace);
  }

  lemma {:induction false} FlagAfter(w: World, t: seq<Step>, key: string)
    requires InjectsNothing(t)
    ensures At(Replay(w, t), key).failure == if Settle(key) in t then None else At(w, key).failure
    decreases |t|
  {
    if t != [] {
      assert t[0] in t;
      FlagAfter(Apply(w, t[0]), t[1..], key);
      assert Settle(key) in t <==> t[0] == Settle(key) || Settle(key) in t[1..];
    }
  }

  predicate InjectsNothing(t: seq<Step>) { forall s | s in t :: !s.Inject? }

  lemma FiringInjectsNothing(reg: Registry, w: World, name: string, id: string, fuel: nat)
    requires name in reg
    ensures InjectsNothing(FireInstance(reg, w, name, id, fuel).trace)
  {
    var key, body := Key(name, id), FiringBody(reg, w, name, id, fuel);
    FiringShape(reg, w, name, id, fuel);
    assert InjectsNothing(FiringHead(w, name, id));
    NestedInjectsNothing(body.trace);
  }

  lemma NestedInjectsNothing(t: seq<Step>)
    requires AllNested(t)
    ensures InjectsNothing(t)
  {
    assert forall s | s in t :: Nested(s);
  }

  lemma {:induction false} FireAllInjectsNothing(reg: Registry, w: World, keys: seq<string>, fuel: nat)
    ensures InjectsNothing(FireAll(reg, w, keys, fuel).trace)
    decreases |keys|
  {
    if keys != [] {
      var (name, id) := Parse(keys[0]);
      if name !in reg {
        FireAllInjectsNothing(reg, w, keys[1..], fuel);
      } else {
        FiringInjectsNothing(reg, w, name, id, fuel);
        FireAllInjectsNothing(reg, FireInstance(reg, w, name, id, fuel).world, keys[1..], fuel);
      }
    }
  }

  lemma OnlyInjectionInjects(reg: Registry, w: World, call: Call, fuel: nat)
    requires !call.InjectFailure?
    ensures InjectsNothing(Invoke(reg, w, call, fuel).trace)
  {
    match call
    case Send(name, id, event) =>
      if name in reg {
        SendShape(reg, w, name, id, event, fuel);
        NestedInjectsNothing(HandleEvent(reg, w, name, id, event, fuel).trace);
      }
    case FireAlarm(name, id) => if name in reg { FiringInjectsNothing(reg, w, name, id, fuel); }
    case Tick(now) => FireAllInjectsNothing(reg, w, Due(w, now), fuel);
    case _ =>
  }

  /**
   * Every failure flag after any call, successful or not: injected by an injection on that instance, cleared where the
   * call settled it, and otherwise as it was.
   */
  lemma FlagsAfterCall(reg: Registry, w: World, call: Call, fuel: nat, key: string)
    ensures var o := Invoke(reg, w, call, fuel);
            At(o.world, key).failure ==
            if call.InjectFailure? && key == Key(call.name, call.id) then Some(call.failure)
            else if key in Cleared(call, o) then None
            else At(w, key).failure
  {
    if !call.InjectFailure? {
      var o := Invoke(reg, w, call, fuel);
      InvokeFaithful(reg, w, call, fuel);
      OnlyInjectionInjects(reg, w, call, fuel);
      FlagAfter(w, o.trace, key);
      SettlesAreSteps(o.trace, key);
      CallSettlesExactly(reg, w, call, fuel);
    }
  }

  /**
   * A call that does not succeed keeps the failure flag of every instance, so the next attempt sees the failure again,
   * unless the call is a tick that had fired the instance successfully before another firing ended it.
   */
  lemma FailedCallKeepsFlags(reg: Registry, w: World, call: Call, fuel: nat, key: string)
    requires !Invoke(reg, w, call, fuel).result.Value?
    ensures var o := Invoke(reg, w, call, fuel);
            && (call.Tick? ==> Fires(o.trace) != [])
            && At(o.world, key).failure
               == if call.Tick? && key in Fires(o.trace)[..|Fires(o.trace)| - 1] then None else At(w, key).failure
  {
    FlagsAfterCall(reg, w, call, fuel, key);
    CallSettlesExactly(reg, w, call, fuel);
  }

  // ----- Which flags a run clears -----

  /** What the calls of a run clear, call by call. */
  function AllCleared(reg: Registry, w: World, calls: seq<Call>, fuel: nat): seq<string>
    decreases |calls|
  {
    if calls == [] then []
    else
      var o := Invoke(reg, w, calls[0], fuel);
      Cleared(calls[0], o) + AllCleared(reg, o.world, calls[1..], fuel)
  }

  /**
   * Over any run, flags are cleared exactly by the successful sends, fire calls and tick firings, once each and in
   * order.
   */
  lemma {:induction false} RunSettlesExactly(reg: Registry, w: World, calls: seq<Call>, fuel: nat)
    ensures Settles(Serve(reg, w, calls, fuel).trace) == AllCleared(reg, w, calls, fuel)
    decreases |calls|
  {
    if calls != [] {
      var o := Invoke(reg, w, calls[0], fuel);
      CallSettlesExactly(reg, w, calls[0], fuel);
      RunSettlesExactly(reg, o.world, calls[1..], fuel);
      SettlesConcat(o.trace, Serve(reg, o.world, calls[1..], fuel).trace);
    }
  }

  // ----- From the call that injects to the handlers that see -----

  /** What a flag has become after the calls of a run: each may inject, clear or keep it. */
  function FlagThrough(reg: Registry, w: World, calls: seq<Call>, fuel: nat, key: string,
                       flag: Option<SystemFailure>): Option<SystemFailure>
    decreases |calls|
  {
    if calls == [] then flag
    else
      var c, o := calls[0], Invoke(reg, w, calls[0], fuel);
      FlagThrough(reg, o.world, calls[1..], fuel, key,
                  if Injects(c, key) then Some(c.failure) else if key in Cleared(c, o) then None else flag)
  }

  predicate Injects(call: Call, key: string) { call.InjectFailure? && Key(call.name, call.id) == key }

  lemma {:induction false} FlagAfterRun(reg: Registry, w: World, calls: seq<Call>, fuel: nat, key: string)
    ensures At(Serve(reg, w, calls, fuel).world, key).failure
            == FlagThrough(reg, w, calls, fuel, key, At(w, key).failure)
    decreases |calls|
  {
    if calls != [] {
      FlagsAfterCall(reg, w, calls[0], fuel, key);
      FlagAfterRun(reg, Invoke(reg, w, calls[0], fuel).world, calls[1..], fuel, key);
    }
  }

  /** No call of the run clears the flag of `key` or injects into it. */
  predicate Untouched(reg: Registry, w: World, calls: seq<Call>, fuel: nat, key: string)
    decreases |calls|
  {
    calls == [] ||
    (var o := Invoke(reg, w, calls[0], fuel);
     !Injects(calls[0], key) && key !in Cleared(calls[0], o) && Untouched(reg, o.world, calls[1..], fuel, key))
  }

  /** Call m injects f into `key`, and no later call of the run clears the flag of `key` or injects into it. */
  predicate StillInjected(reg: Registry, w: World, calls: seq<Call>, fuel: nat, key: string, f: SystemFailure, m: nat) {
    && m < |calls| && Injects(calls[m], key) && calls[m].failure == f
    && Untouched(reg, Serve(reg, w, calls[..m + 1], fuel).world, calls[m + 1..], fuel, key)
  }

  lemma {:induction false} FlagComesFrom(reg: Registry, w: World, calls: seq<Call>, fuel: nat, key: string,
                                         f: SystemFailure, flag: Option<SystemFailure>)
    ensures FlagThrough(reg, w, calls, fuel, key, flag) == Some(f)
            <==> (|| (flag == Some(f) && Untouched(reg, w, calls, fuel, key))
                  || exists m: nat :: StillInjected(reg, w, calls, fuel, key, f, m))
    decreases |calls|
  {
    if calls != [] {
      var c, o := calls[0], Invoke(reg, w, calls[0], fuel);
      FlagComesFrom(reg, o.world, calls[1..], fuel, key, f,
                    if Injects(c, key) then Some(c.failure) else if key in Cleared(c, o) then None else flag);
      FirstOrLater(reg, w, calls, fuel, key, f);
    }
  }

  lemma FirstOrLater(reg: Registry, w: World, calls: seq<Call>, fuel: nat, key: string, f: SystemFailure)
    requires calls != []
    ensures var v := Invoke(reg, w, calls[0], fuel).world;
            (exists m: nat :: StillInjected(reg, w, calls, fuel, key, f, m))
            <==> (|| (Injects(calls[0], key) && calls[0].failure == f && Untouched(reg, v, calls[1..], fuel, key))
                  || exists m: nat :: StillInjected(reg, v, calls[1..], fuel, key, f, m))
  {
    var v := Invoke(reg, w, calls[0], fuel).world;
    FirstInjected(reg, w, calls, fuel, key, f);
    if m: nat :| StillInjected(reg, w, calls, fuel, key, f, m) {
      if m > 0 {
        LaterInjected(reg, w, calls, fuel, key, f, m - 1);
      }
    }
    if m: nat :| StillInjected(reg, v, calls[1..], fuel, key, f, m) {
      LaterInjected(reg, w, calls, fuel, key, f, m);
    }
  }

  lemma FirstInjected(reg: Registry, w: World, calls: seq<Call>, fuel: nat, key: string, f: SystemFailure)
    requires calls != []
    ensures StillInjected(reg, w, calls, fuel, key, f, 0)
            <==> && Injects(calls[0], key) && calls[0].failure == f
                 && Untouched(reg, Invoke(reg, w, calls[0], fuel).world, calls[1..], fuel, key)
  {
    ServedAlone(reg, w, calls[0], fuel);
    assert calls[..1] == [calls[0]];
  }

  lemma ServedAlone(reg: Registry, w: World, call: Call, fuel: nat)
    ensures Serve(reg, w, [call], fuel).world == Invoke(reg, w, call, fuel).world
  {
    var v := Invoke(reg, w, call, fuel).world;
    assert Serve(reg, v, [call][1..], fuel).world == v;
  }

  lemma LaterInjected(reg: Registry, w: World, calls: seq<Call>, fuel: nat, key: string, f: SystemFailure, m: nat)
    requires m + 1 < |calls|
    ensures StillInjected(reg, w, calls, fuel, key, f, m + 1)
            <==> StillInjected(reg, Invoke(reg, w, calls[0], fuel).world, calls[1..], fuel, key, f, m)
  {
    assert calls[..m + 2][1..] == calls[1..][..m + 1];
    assert calls[m + 2..] == calls[1..][m + 1..];
  }

  /** A handler sees the flag from before the call it starts in, unless an earlier firing of that call cleared it. */
  lemma SeenDuringCall(reg: Registry, w: World, call: Call, fuel: nat, j: nat)
    requires var t := Invoke(reg, w, call, fuel).trace; j < |t| && t[j].Began?
    ensures var t := Invoke(reg, w, call, fuel).trace;
            t[j].ctx.systemFailure == if Settle(t[j].key) in t[..j] then None else At(w, t[j].key).failure
  {
    var t := Invoke(reg, w, call, fuel).trace;
    InvokeFaithful(reg, w, call, fuel);
    HonestAt(w, t, j);
    if !call.InjectFailure? {
      OnlyInjectionInjects(reg, w, call, fuel);
      assert InjectsNothing(t[..j]);
      FlagAfter(w, t[..j], t[j].key);
    }
  }

  /**
   * A handler that starts during the call after any run sees the failure f if and only if some call of the run injected
   * f into its instance, no call since has cleared the flag or injected into it, and no earlier firing of the handler's
   * own call has cleared it.
   */
  lemma InjectedFailureIsSeen(reg: Registry, calls: seq<Call>, call: Call, fuel: nat, j: nat, f: SystemFailure)
    requires var t := Invoke(reg, Serve(reg, EMPTY, calls, fuel).world, call, fuel).trace; j < |t| && t[j].Began?
    ensures var t := Invoke(reg, Serve(reg, EMPTY, calls, fuel).world, call, fuel).trace;
            t[j].ctx.systemFailure == Some(f)
            <==> && (exists m: nat :: StillInjected(reg, EMPTY, calls, fuel, t[j].key, f, m))
                 && Settle(t[j].key) !in t[..j]
  {
    var w := Serve(reg, EMPTY, calls, fuel).world;
    var key := Invoke(reg, w, call, fuel).trace[j].key;
    FlagAfterRun(reg, EMPTY, calls, fuel, key);
    FlagComesFrom(reg, EMPTY, calls, fuel, key, f, None);
    SeenDuringCall(reg, w, call, fuel, j);
  }
}
