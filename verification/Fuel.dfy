/** Fuel only cuts runs short: once a run has ended, more fuel gives the same outcome. */
module Fuel {
  import opened Values
  import opened InstanceKey
  import opened TaskModel

  predicate Ended(o: Outcome) { o.result != Halt(OutOfFuel) }

  lemma {:induction false} RunStable(reg: Registry, w: World, ctx: Ctx, p: Prog, fuel: nat, more: nat)
    requires ctx.name in reg && fuel <= more && Ended(Run(reg, w, ctx, p, fuel))
    ensures Run(reg, w, ctx, p, more) == Run(reg, w, ctx, p, fuel)
    decreases fuel, 0
  {
    if p.Do? {
      ContinuedStable(reg, w, ctx, p.op, p.k, fuel - 1, more - 1);
    }
  }

  lemma {:induction false} ContinuedStable(reg: Registry, w: World, ctx: Ctx, op: Op, k: Result -> Prog,
                                           fuel: nat, more: nat)
    requires ctx.name in reg && fuel <= more && Ended(Continued(reg, w, ctx, op, k, fuel))
    ensures Continued(reg, w, ctx, op, k, more) == Continued(reg, w, ctx, op, k, fuel)
    decreases fuel, 4
  {
    var a := Perform(reg, w, ctx, op, fuel);
    PerformStable(reg, w, ctx, op, fuel, more);
    if !a.result.Halt? {
      RunStable(reg, a.world, ctx, k(a.result), fuel, more);
    }
  }

  lemma {:induction false} PerformStable(reg: Registry, w: World, ctx: Ctx, op: Op, fuel: nat, more: nat)
    requires ctx.name in reg && fuel <= more && Ended(Perform(reg, w, ctx, op, fuel))
    ensures Perform(reg, w, ctx, op, more) == Perform(reg, w, ctx, op, fuel)
    decreases fuel, 3
  {
    if op.SendTo? && op.name in reg {
      assert Perform(reg, w, ctx, op, fuel) == Dispatch(reg, w, op.name, op.id, op.event, fuel);
      HandleEventStable(reg, w, op.name, op.id, op.event, fuel, more);
    }
  }

  lemma {:induction false} HandleEventStable(reg: Registry, w: World, name: string, id: string, raw: Json,
                                             fuel: nat, more: nat)
    requires name in reg && fuel <= more && Ended(HandleEvent(reg, w, name, id, raw, fuel))
    ensures HandleEvent(reg, w, name, id, raw, more) == HandleEvent(reg, w, name, id, raw, fuel)
    decreases fuel, 2
  {
    EventBodyStable(reg, Apply(w, Open(Key(name, id))), ContextFor(w, name, id), raw, fuel, more);
  }

  lemma {:induction false} EventBodyStable(reg: Registry, w: World, ctx: Ctx, raw: Json, fuel: nat, more: nat)
    requires ctx.name in reg && fuel <= more && Ended(EventBody(reg, w, ctx, raw, fuel))
    ensures EventBody(reg, w, ctx, raw, more) == EventBody(reg, w, ctx, raw, fuel)
    decreases fuel, 2, 0
  {
    var event := reg[ctx.name].codec.decodeEvent(raw);
    if event.Some? {
      GuardedStable(reg, w, ctx, reg[ctx.name].onEvent(ctx, event.value), reg[ctx.name].onEventError, fuel, more);
    }
  }

  lemma {:induction false} GuardedStable(reg: Registry, w: World, ctx: Ctx, p: Prog,
                                         onError: Option<(Ctx, Err) -> Prog>, fuel: nat, more: nat)
    requires ctx.name in reg && fuel <= more && Ended(Guarded(reg, w, ctx, p, onError, fuel))
    ensures Guarded(reg, w, ctx, p, onError, more) == Guarded(reg, w, ctx, p, onError, fuel)
    decreases fuel, 1
  {
    RunStable(reg, w, ctx, p, fuel, more);
    var o := Run(reg, w, ctx, p, fuel);
    if o.result.Failure? {
      RoutedStable(reg, o.world, ctx, o.result.e, onError, fuel, more);
    }
  }

  lemma {:induction false} RoutedStable(reg: Registry, w: World, ctx: Ctx, e: Err,
                                        onError: Option<(Ctx, Err) -> Prog>, fuel: nat, more: nat)
    requires ctx.name in reg && fuel <= more && Ended(Routed(reg, w, ctx, e, onError, fuel))
    ensures Routed(reg, w, ctx, e, onError, more) == Routed(reg, w, ctx, e, onError, fuel)
    decreases fuel, 1, 0
  {
    if e != PurgeSignal && onError.Some? {
      RunStable(reg, w, ctx, onError.value(ctx, e), fuel, more);
    }
  }

  lemma {:induction false} FireAllStable(reg: Registry, w: World, keys: seq<string>, fuel: nat, more: nat)
    requires fuel <= more && Ended(FireAll(reg, w, keys, fuel))
    ensures FireAll(reg, w, keys, more) == FireAll(reg, w, keys, fuel)
    decreases |keys|
  {
    if keys != [] {
      var (name, id) := Parse(keys[0]);
      if name !in reg {
        FireAllStable(reg, w, keys[1..], fuel, more);
      } else {
        FireInstanceStable(reg, w, name, id, fuel, more);
        var o := FireInstance(reg, w, name, id, fuel);
        if o.result.Value? {
          FireAllStable(reg, o.world, keys[1..], fuel, more);
        }
      }
    }
  }

  lemma FireInstanceStable(reg: Registry, w: World, name: string, id: string, fuel: nat, more: nat)
    requires name in reg && fuel <= more && Ended(FireInstance(reg, w, name, id, fuel))
    ensures FireInstance(reg, w, name, id, more) == FireInstance(reg, w, name, id, fuel)
  {
    var w1 := Apply(Apply(w, Open(Key(name, id))), Fire(Key(name, id)));
    var ctx := ContextFor(w1, name, id);
    GuardedStable(reg, w1, ctx, reg[name].onAlarm(ctx), reg[name].onAlarmError, fuel, more);
  }

  /** Any two fuels that let an external call finish give the same table, answer and trace. */
  lemma CallIndependentOfFuel(reg: Registry, w: World, call: Call, f: nat, g: nat)
    requires Ended(Invoke(reg, w, call, f)) && Ended(Invoke(reg, w, call, g))
    ensures Invoke(reg, w, call, f) == Invoke(reg, w, call, g)
  {
    var less, more := if f <= g then f else g, if f <= g then g else f;
    match call
    case Send(name, id, event) =>
      if name in reg { HandleEventStable(reg, w, name, id, event, less, more); }
    case FireAlarm(name, id) =>
      if name in reg { FireInstanceStable(reg, w, name, id, less, more); }
    case Tick(now) => FireAllStable(reg, w, Due(w, now), less, more);
    case _ =>
  }

  /** Every call of the run comes to an end. */
  predicate AllEnd(reg: Registry, w: World, calls: seq<Call>, fuel: nat)
    decreases |calls|
  {
    calls == [] ||
    (var o := Invoke(reg, w, calls[0], fuel); Ended(o) && AllEnd(reg, o.world, calls[1..], fuel))
  }

  /** Any two fuels with which every call of a run ends give the same run. */
  lemma {:induction false} RunIndependentOfFuel(reg: Registry, w: World, calls: seq<Call>, f: nat, g: nat)
    requires AllEnd(reg, w, calls, f) && AllEnd(reg, w, calls, g)
    ensures Serve(reg, w, calls, f) == Serve(reg, w, calls, g)
    decreases |calls|
  {
    if calls != [] {
      CallIndependentOfFuel(reg, w, calls[0], f, g);
      RunIndependentOfFuel(reg, Invoke(reg, w, calls[0], f).world, calls[1..], f, g);
    }
  }
}
