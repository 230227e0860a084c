/** What one invocation can do to other instances, and what a purge leaves behind. */
module Isolation {
  import opened Values
  import opened InstanceKey
  import opened TaskModel
  import opened TaskTrace
  import opened Handling

  predicate SameInstance(w: World, w1: World, key: string) {
    (key in w.instances <==> key in w1.instances) && At(w, key) == At(w1, key)
  }

  lemma {:induction false} ReplayElsewhere(w: World, t: seq<Step>, key: string)
    requires forall s | s in t :: !On(s, key)
    ensures SameInstance(w, Replay(w, t), key)
    decreases |t|
  {
    if t != [] {
      assert !On(t[0], key);
      ReplayElsewhere(Apply(w, t[0]), t[1..], key);
    }
  }

  /**
   * An external call changes no instance except those it builds a handler context for: its own target, the targets
   * of the dispatches nested in it, and for a tick the instances it fires.
   */
  lemma CallIsIsolated(reg: Registry, w: World, call: Call, fuel: nat, key: string)
    requires Open(key) !in Invoke(reg, w, call, fuel).trace
    ensures SameInstance(w, Invoke(reg, w, call, fuel).world, key)
  {
    InvokeFaithful(reg, w, call, fuel);
    ReplayElsewhere(w, Invoke(reg, w, call, fuel).trace, key);
  }

  /** Nothing a handler does reaches another instance except through a dispatch to it. */
  lemma HandlerIsIsolated(reg: Registry, w: World, ctx: Ctx, p: Prog, fuel: nat, key: string)
    requires ctx.name in reg && key != ctx.Instance()
    requires Open(key) !in Run(reg, w, ctx, p, fuel).trace
    ensures SameInstance(w, Run(reg, w, ctx, p, fuel).world, key)
  {
    RunSound(reg, w, ctx, p, fuel);
    ReplayElsewhere(w, Run(reg, w, ctx, p, fuel).trace, key);
  }

  /** A handler that dispatches nothing in its first `steps` operations, whatever answers it gets. */
  ghost predicate Solitary(p: Prog, steps: nat)
    decreases steps
  {
    p.Do? && steps > 0 ==>
      !p.op.SendTo? && !p.op.GetStateOf? && forall r: Result :: Solitary(p.k(r), steps - 1)
  }

  lemma {:induction false} SolitaryOpensNothing(reg: Registry, w: World, ctx: Ctx, p: Prog, fuel: nat)
    requires ctx.name in reg && Solitary(p, fuel)
    ensures forall s | s in Run(reg, w, ctx, p, fuel).trace :: !s.Open?
    decreases fuel
  {
    if fuel > 0 && p.Do? {
      var a := Perform(reg, w, ctx, p.op, fuel - 1);
      if !a.result.Halt? {
        SolitaryOpensNothing(reg, a.world, ctx, p.k(a.result), fuel - 1);
      }
    }
  }

  /**
   * For well-named tasks, distinct name and id pairs are distinct instances, so a solitary handler touches only its
   * own.
   */
  lemma SolitaryHandlersDoNotMeet(reg: Registry, w: World, ctx: Ctx, p: Prog, fuel: nat, name: string, id: string)
    requires WellNamed(reg) && ctx.name in reg && name in reg && Solitary(p, fuel)
    requires (name, id) != (ctx.name, ctx.id)
    ensures SameInstance(w, Run(reg, w, ctx, p, fuel).world, Key(name, id))
  {
    KeyInjective(name, id, ctx.name, ctx.id);
    SolitaryOpensNothing(reg, w, ctx, p, fuel);
    HandlerIsIsolated(reg, w, ctx, p, fuel, Key(name, id));
  }

  // ----- Purge -----

  /** The handler purges, or fails and its error handler purges. */
  predicate EndsInPurge(reg: Registry, w: World, ctx: Ctx, p: Prog, onError: Option<(Ctx, Err) -> Prog>, fuel: nat)
    requires ctx.name in reg
  {
    var s := Follow(reg, w, ctx, p, fuel);
    s.Purges()
    || (s.Fails() && onError.Some? && Follow(reg, s.world, ctx, onError.value(ctx, s.at.value.e), fuel).Purges())
  }

  /** Where the handler and the error handler it falls back on stop is how their runs end. */
  lemma BothEnd(reg: Registry, w: World, ctx: Ctx, p: Prog, onError: Option<(Ctx, Err) -> Prog>, fuel: nat)
    requires ctx.name in reg
    ensures var o, s := Run(reg, w, ctx, p, fuel), Follow(reg, w, ctx, p, fuel);
            && s.world == o.world
            && (s.Finishes() <==> o.result.Value?)
            && (s.Fails() <==> o.result.Failure?)
            && (s.Fails() ==> s.at.value.e == o.result.e)
            && (s.Fails() && onError.Some? ==>
                  var h := Run(reg, o.world, ctx, onError.value(ctx, o.result.e), fuel);
                  var t := Follow(reg, s.world, ctx, onError.value(ctx, s.at.value.e), fuel);
                  (t.Finishes() <==> h.result.Value?) && (t.Purges() <==> h.result == Failure(PurgeSignal)))
  {
    var s := Follow(reg, w, ctx, p, fuel);
    RunEndsWhereItStops(reg, w, ctx, p, fuel);
    if s.Fails() && onError.Some? {
      RunEndsWhereItStops(reg, s.world, ctx, onError.value(ctx, s.at.value.e), fuel);
    }
  }

  /** The purge signal never leaves the invocation that raised it. */
  lemma PurgeStaysInside(reg: Registry, w: World, ctx: Ctx, op: Op, fuel: nat)
    requires ctx.name in reg
    ensures Perform(reg, w, ctx, op, fuel).result != Failure(PurgeSignal)
  {
  }

  /** A purging invocation reports success, and its last step is the cleanup. */
  lemma PurgeCleansUpLast(reg: Registry, w: World, ctx: Ctx, p: Prog, onError: Option<(Ctx, Err) -> Prog>, fuel: nat)
    requires ctx.name in reg && EndsInPurge(reg, w, ctx, p, onError, fuel)
    ensures var o := Guarded(reg, w, ctx, p, onError, fuel);
            o.result == Value(JNull) && o.trace != [] && o.trace[|o.trace| - 1] == Wipe(ctx.Instance())
  {
    var o, r := Guarded(reg, w, ctx, p, onError, fuel), Run(reg, w, ctx, p, fuel);
    BothEnd(reg, w, ctx, p, onError, fuel);
    var routed := Routed(reg, r.world, ctx, r.result.e, onError, fuel);
    assert o == After(r.trace, routed) && routed.trace != []
      && routed.trace[|routed.trace| - 1] == Wipe(ctx.Instance());
  }

  /**
   * An invocation whose handler or error handler ends in a purge reports success and leaves its instance with nothing
   * stored and no alarm, whatever was written or scheduled before; only the failure flag is what it was at the start,
   * and the cleanup, its last step, changes no other instance.
   */
  lemma PurgeContained(reg: Registry, w: World, ctx: Ctx, p: Prog, onError: Option<(Ctx, Err) -> Prog>, fuel: nat,
                       key: string)
    requires ctx.name in reg && EndsInPurge(reg, w, ctx, p, onError, fuel)
    ensures var o := Guarded(reg, w, ctx, p, onError, fuel);
            && o.result == Value(JNull) && o.trace != []
            && At(o.world, ctx.Instance()) == Snapshot(map[], None, At(w, ctx.Instance()).failure)
            && (key != ctx.Instance() ==> SameInstance(Replay(w, o.trace[..|o.trace| - 1]), o.world, key))
  {
    var o := Guarded(reg, w, ctx, p, onError, fuel);
    PurgeCleansUpLast(reg, w, ctx, p, onError, fuel);
    GuardedSound(reg, w, ctx, p, onError, fuel);
    WipedLast(w, o.trace, ctx.Instance(), key);
  }

  lemma WipedLast(w: World, t: seq<Step>, me: string, key: string)
    requires AllNested(t) && t != [] && t[|t| - 1] == Wipe(me)
    ensures At(Replay(w, t), me) == Snapshot(map[], None, At(w, me).failure)
    ensures key != me ==> SameInstance(Replay(w, t[..|t| - 1]), Replay(w, t), key)
  {
    var before := t[..|t| - 1];
    assert t == before + [Wipe(me)];
    ReplayLast(w, before, Wipe(me));
    NestedKeepFlag(w, before, me);
  }

  lemma NestedKeepFlag(w: World, t: seq<Step>, key: string)
    requires AllNested(t)
    ensures At(Replay(w, t), key).failure == At(w, key).failure
  {
    forall s | s in t ensures !Flags(s, key) {
      assert Nested(s);
    }
    FlagKept(w, t, key);
  }

  /** After an external send that ends in a purge, the instance cannot be told from one that was never used. */
  lemma PurgedSendLeavesBlank(reg: Registry, w: World, name: string, id: string, event: Json, fuel: nat)
    requires name in reg && reg[name].codec.decodeEvent(event).Some?
    requires var e, ctx := reg[name].codec.decodeEvent(event).value, ContextFor(w, name, id);
             EndsInPurge(reg, Apply(w, Open(Key(name, id))), ctx,
                         reg[name].onEvent(ctx, e), reg[name].onEventError, fuel)
    ensures Invoke(reg, w, Send(name, id, event), fuel).result == Value(JNull)
    ensures At(Invoke(reg, w, Send(name, id, event), fuel).world, Key(name, id)) == BLANK
  {
    var e, w1, ctx := reg[name].codec.decodeEvent(event).value, Apply(w, Open(Key(name, id))), ContextFor(w, name, id);
    PurgeContained(reg, w1, ctx, reg[name].onEvent(ctx, e), reg[name].onEventError, fuel, Key(name, id));
    DeliveredIs(reg, w, name, id, event, fuel);
  }

  /** Likewise after an alarm firing that ends in a purge. */
  lemma PurgedFiringLeavesBlank(reg: Registry, w: World, name: string, id: string, fuel: nat)
    requires name in reg
    requires var w1, ctx := FireWorld(w, Key(name, id)), ContextFor(w, name, id);
             EndsInPurge(reg, w1, ctx, reg[name].onAlarm(ctx), reg[name].onAlarmError, fuel)
    ensures FireInstance(reg, w, name, id, fuel).result == Value(JNull)
    ensures At(FireInstance(reg, w, name, id, fuel).world, Key(name, id)) == BLANK
  {
    var w1, ctx := FireWorld(w, Key(name, id)), ContextFor(w, name, id);
    PurgeContained(reg, w1, ctx, reg[name].onAlarm(ctx), reg[name].onAlarmError, fuel, Key(name, id));
    FiringParts(reg, w, name, id, fuel);
  }

  // ----- Answers -----

  /** The handler, or the error handler it falls back on, comes to its end without failing. */
  predicate EndsWell(reg: Registry, w: World, ctx: Ctx, p: Prog, onError: Option<(Ctx, Err) -> Prog>, fuel: nat)
    requires ctx.name in reg
  {
    var s := Follow(reg, w, ctx, p, fuel);
    || s.Finishes()
    || (s.Fails() && !s.Purges() && onError.Some?
        && Follow(reg, s.world, ctx, onError.value(ctx, s.at.value.e), fuel).Finishes())
  }

  lemma GuardedSucceedsExactly(reg: Registry, w: World, ctx: Ctx, p: Prog, onError: Option<(Ctx, Err) -> Prog>,
                               fuel: nat)
    requires ctx.name in reg
    ensures Guarded(reg, w, ctx, p, onError, fuel).result.Value?
            <==> EndsWell(reg, w, ctx, p, onError, fuel) || EndsInPurge(reg, w, ctx, p, onError, fuel)
  {
    BothEnd(reg, w, ctx, p, onError, fuel);
  }

  /**
   * An external send and a sibling's send of the same event do the same to the table, up to settling the failure
   * flag.
   */
  lemma SendersAgree(reg: Registry, w: World, ctx: Ctx, name: string, id: string, event: Json, fuel: nat)
    requires ctx.name in reg
    ensures var o := Invoke(reg, w, Send(name, id, event), fuel);
            var d := Perform(reg, w, ctx, SendTo(name, id, event), fuel);
            && (o.result.Value? <==> d.result.Value?)
            && (o.result.Value? ==> o.world == Apply(d.world, Settle(Key(name, id))))
            && (!o.result.Value? ==> o.world == d.world && o.trace == d.trace)
            && (o.result.Failure? && name in reg ==> d.result == Failure(TaskError(SiblingDispatch(o.result.e))))
  {
  }

  /**
   * A sent event succeeds if and only if its task is registered, the event fits the task's schema, and the handler or
   * its error handler ends well or in a purge; an unknown task changes nothing, and an event that does not fit reaches
   * no handler.
   */
  lemma SendSucceedsExactly(reg: Registry, w: World, name: string, id: string, event: Json, fuel: nat)
    ensures var o := Invoke(reg, w, Send(name, id, event), fuel);
            && (name !in reg ==> o == Ends(w, Failure(TaskExecutionError(TaskError(NotFound(name))))))
            && (name in reg && reg[name].codec.decodeEvent(event).None? ==>
                  o.result == Failure(TaskValidationError) && o.trace == [Open(Key(name, id))])
            && (o.result.Value? <==>
                  && name in reg
                  && reg[name].codec.decodeEvent(event).Some?
                  && var e := reg[name].codec.decodeEvent(event).value;
                     var w1, c := Apply(w, Open(Key(name, id))), ContextFor(w, name, id);
                     var p := reg[name].onEvent(c, e);
                     (EndsWell(reg, w1, c, p, reg[name].onEventError, fuel)
                      || EndsInPurge(reg, w1, c, p, reg[name].onEventError, fuel)))
  {
    if name in reg {
      DeliveredIs(reg, w, name, id, event, fuel);
      if reg[name].codec.decodeEvent(event).Some? {
        var e := reg[name].codec.decodeEvent(event).value;
        var w1, c := Apply(w, Open(Key(name, id))), ContextFor(w, name, id);
        GuardedSucceedsExactly(reg, w1, c, reg[name].onEvent(c, e), reg[name].onEventError, fuel);
      }
    }
  }
}
