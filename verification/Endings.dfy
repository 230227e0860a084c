/** When calls come to an end at all, seen from the programs: bounded handlers that dispatch only downwards. */
module Endings {
  import opened Values
  import opened InstanceKey
  import opened TaskModel
  import opened TaskTrace
  import opened Fuel

  /**
   * A handler of a task of rank `rank` that ends within `depth` operations, whatever it is answered, and dispatches
   * only to tasks of lower rank.
   */
  ghost predicate Bounded(reg: Registry, p: Prog, rank: nat, ranks: string -> nat, depth: nat)
    decreases depth
  {
    p.Do? ==>
      && depth > 0
      && (p.op.SendTo? && p.op.name in reg ==> ranks(p.op.name) < rank)
      && forall r: Result :: Bounded(reg, p.k(r), rank, ranks, depth - 1)
  }

  ghost predicate BoundedHooks(reg: Registry, h: Hooks, rank: nat, ranks: string -> nat, depth: nat) {
    && (forall ctx: Ctx, event: Json :: Bounded(reg, h.onEvent(ctx, event), rank, ranks, depth))
    && (forall ctx: Ctx :: Bounded(reg, h.onAlarm(ctx), rank, ranks, depth))
    && (h.onEventError.Some? ==>
          forall ctx: Ctx, e: Err :: Bounded(reg, h.onEventError.value(ctx, e), rank, ranks, depth))
    && (h.onAlarmError.Some? ==>
          forall ctx: Ctx, e: Err :: Bounded(reg, h.onAlarmError.value(ctx, e), rank, ranks, depth))
  }

  ghost predicate BoundedTasks(reg: Registry, ranks: string -> nat, depth: nat) {
    forall name :: name in reg ==> BoundedHooks(reg, reg[name], ranks(name), ranks, depth)
  }

  /** Fuel for a hook of a task of this rank: its own operations, its end, and the deepest dispatch below it. */
  function Enough(depth: nat, rank: nat): nat {
    depth + 1 + if rank == 0 then 0 else Enough(depth, rank - 1)
  }

  function Below(depth: nat, rank: nat): nat { if rank == 0 then 0 else Enough(depth, rank - 1) }

  lemma {:induction false} EnoughGrows(depth: nat, less: nat, more: nat)
    requires less <= more
    ensures Enough(depth, less) <= Enough(depth, more)
    decreases more
  {
    if less < more {
      EnoughGrows(depth, less, more - 1);
    }
  }

  lemma {:induction false} RunEnds(reg: Registry, w: World, ctx: Ctx, p: Prog, ranks: string -> nat,
                                   left: nat, depth: nat, fuel: nat)
    requires ctx.name in reg && BoundedTasks(reg, ranks, depth)
    requires Bounded(reg, p, ranks(ctx.name), ranks, left) && left <= depth
    requires fuel >= left + 1 + Below(depth, ranks(ctx.name))
    ensures Ended(Run(reg, w, ctx, p, fuel))
    decreases fuel, 0
  {
    if p.Do? {
      var a := Perform(reg, w, ctx, p.op, fuel - 1);
      PerformEnds(reg, w, ctx, p.op, ranks, depth, fuel - 1);
      assert Run(reg, w, ctx, p, fuel) == Continued(reg, w, ctx, p.op, p.k, fuel - 1);
      if !a.result.Halt? {
        assert Bounded(reg, p.k(a.result), ranks(ctx.name), ranks, left - 1);
        RunEnds(reg, a.world, ctx, p.k(a.result), ranks, left - 1, depth, fuel - 1);
      }
    }
  }

  lemma {:induction false} PerformEnds(reg: Registry, w: World, ctx: Ctx, op: Op, ranks: string -> nat,
                                       depth: nat, fuel: nat)
    requires ctx.name in reg && BoundedTasks(reg, ranks, depth) && fuel >= Below(depth, ranks(ctx.name))
    requires op.SendTo? && op.name in reg ==> ranks(op.name) < ranks(ctx.name)
    ensures Ended(Perform(reg, w, ctx, op, fuel))
    decreases fuel, 4
  {
    if op.SendTo? && op.name in reg {
      EnoughGrows(depth, ranks(op.name), ranks(ctx.name) - 1);
      HandleEventEnds(reg, w, op.name, op.id, op.event, ranks, depth, fuel);
      assert Perform(reg, w, ctx, op, fuel) == Dispatch(reg, w, op.name, op.id, op.event, fuel);
    }
  }

  lemma {:induction false} HandleEventEnds(reg: Registry, w: World, name: string, id: string, raw: Json,
                                           ranks: string -> nat, depth: nat, fuel: nat)
    requires name in reg && BoundedTasks(reg, ranks, depth) && fuel >= Enough(depth, ranks(name))
    ensures Ended(HandleEvent(reg, w, name, id, raw, fuel))
    decreases fuel, 2
  {
    DeliveredIs(reg, w, name, id, raw, fuel);
    if reg[name].codec.decodeEvent(raw).Some? {
      var event, ctx := reg[name].codec.decodeEvent(raw).value, ContextFor(w, name, id);
      assert BoundedHooks(reg, reg[name], ranks(name), ranks, depth);
      GuardedEnds(reg, Apply(w, Open(Key(name, id))), ctx, reg[name].onEvent(ctx, event), reg[name].onEventError,
                  ranks, depth, fuel);
    }
  }

  lemma {:induction false} GuardedEnds(reg: Registry, w: World, ctx: Ctx, p: Prog, onError: Option<(Ctx, Err) -> Prog>,
                                       ranks: string -> nat, depth: nat, fuel: nat)
    requires ctx.name in reg && BoundedTasks(reg, ranks, depth) && fuel >= Enough(depth, ranks(ctx.name))
    requires Bounded(reg, p, ranks(ctx.name), ranks, depth)
    requires onError.Some? ==> forall e: Err :: Bounded(reg, onError.value(ctx, e), ranks(ctx.name), ranks, depth)
    ensures Ended(Guarded(reg, w, ctx, p, onError, fuel))
    decreases fuel, 1
  {
    var o := Run(reg, w, ctx, p, fuel);
    RunEnds(reg, w, ctx, p, ranks, depth, depth, fuel);
    if o.result.Failure? && o.result.e != PurgeSignal && onError.Some? {
      RunEnds(reg, o.world, ctx, onError.value(ctx, o.result.e), ranks, depth, depth, fuel);
    }
    if o.result.Failure? {
      RoutedEnds(reg, o.world, ctx, o.result.e, onError, fuel);
    }
  }

  lemma RoutedEnds(reg: Registry, w: World, ctx: Ctx, e: Err, onError: Option<(Ctx, Err) -> Prog>, fuel: nat)
    requires ctx.name in reg
    requires e != PurgeSignal && onError.Some? ==> Ended(Run(reg, w, ctx, onError.value(ctx, e), fuel))
    ensures Ended(Routed(reg, w, ctx, e, onError, fuel))
  {
  }

  lemma FiringEnds(reg: Registry, w: World, name: string, id: string, ranks: string -> nat, depth: nat, fuel: nat)
    requires name in reg && BoundedTasks(reg, ranks, depth) && fuel >= Enough(depth, ranks(name))
    ensures Ended(FireInstance(reg, w, name, id, fuel))
  {
    var ctx := ContextFor(w, name, id);
    assert BoundedHooks(reg, reg[name], ranks(name), ranks, depth);
    GuardedEnds(reg, FireWorld(w, Key(name, id)), ctx, reg[name].onAlarm(ctx), reg[name].onAlarmError,
                ranks, depth, fuel);
    FiringParts(reg, w, name, id, fuel);
  }

  /** The fuel suffices for every registered task. */
  ghost predicate Suffices(reg: Registry, ranks: string -> nat, depth: nat, fuel: nat) {
    forall name :: name in reg ==> fuel >= Enough(depth, ranks(name))
  }

  lemma {:induction false} FireAllEnds(reg: Registry, w: World, keys: seq<string>, ranks: string -> nat,
                                       depth: nat, fuel: nat)
    requires BoundedTasks(reg, ranks, depth) && Suffices(reg, ranks, depth, fuel)
    ensures Ended(FireAll(reg, w, keys, fuel))
    decreases |keys|
  {
    if keys != [] {
      var (name, id) := Parse(keys[0]);
      if name !in reg {
        FireAllEnds(reg, w, keys[1..], ranks, depth, fuel);
      } else {
        FiringEnds(reg, w, name, id, ranks, depth, fuel);
        FireAllEnds(reg, FireInstance(reg, w, name, id, fuel).world, keys[1..], ranks, depth, fuel);
      }
    }
  }

  lemma CallEnds(reg: Registry, w: World, call: Call, ranks: string -> nat, depth: nat, fuel: nat)
    requires BoundedTasks(reg, ranks, depth) && Suffices(reg, ranks, depth, fuel)
    ensures Ended(Invoke(reg, w, call, fuel))
  {
    match call
    case Send(name, id, event) => if name in reg { HandleEventEnds(reg, w, name, id, event, ranks, depth, fuel); }
    case FireAlarm(name, id) => if name in reg { FiringEnds(reg, w, name, id, ranks, depth, fuel); }
    case Tick(now) => FireAllEnds(reg, w, Due(w, now), ranks, depth, fuel);
    case _ =>
  }

  /**
   * When every handler ends within `depth` operations and dispatches only to tasks of lower rank, every call of every
   * run ends with fuel for the highest rank, and with any more the run is the same.
   */
  lemma BoundedRunsEnd(reg: Registry, w: World, calls: seq<Call>, ranks: string -> nat,
                       depth: nat, top: nat, fuel: nat)
    requires BoundedTasks(reg, ranks, depth) && (forall name :: name in reg ==> ranks(name) <= top)
    requires fuel >= Enough(depth, top)
    ensures AllEnd(reg, w, calls, fuel)
    ensures Serve(reg, w, calls, fuel) == Serve(reg, w, calls, Enough(depth, top))
  {
    EachEnds(reg, w, calls, ranks, depth, top, fuel);
    EachEnds(reg, w, calls, ranks, depth, top, Enough(depth, top));
    RunIndependentOfFuel(reg, w, calls, fuel, Enough(depth, top));
  }

  lemma {:induction false} EachEnds(reg: Registry, w: World, calls: seq<Call>, ranks: string -> nat,
                                    depth: nat, top: nat, fuel: nat)
    requires BoundedTasks(reg, ranks, depth) && (forall name :: name in reg ==> ranks(name) <= top)
    requires fuel >= Enough(depth, top)
    ensures AllEnd(reg, w, calls, fuel)
    decreases |calls|
  {
    if calls != [] {
      forall name | name in reg ensures fuel >= Enough(depth, ranks(name)) {
        EnoughGrows(depth, ranks(name), top);
      }
      CallEnds(reg, w, calls[0], ranks, depth, fuel);
      EachEnds(reg, Invoke(reg, w, calls[0], fuel).world, calls[1..], ranks, depth, top, fuel);
    }
  }
}
