/** How an invocation answers, seen from the place where its handler's program comes to its end. */
module Handling {
  import opened Values
  import opened InstanceKey
  import opened TaskModel
  import opened TaskTrace

  /** Where a program stopped, in which table and after which steps; nowhere when it was still running out of fuel. */
  datatype Stop = Stop(world: World, trace: seq<Step>, at: Option<Prog>) {

    predicate Finishes() { at.Some? && at.value.Done? }

    predicate Fails() { at.Some? && at.value.Raise? }

    predicate Purges() { Fails() && at.value.e == PurgeSignal }
  }

  /** Follows a program through its operations, each answer choosing how it goes on; a defect in one ends it. */
  function Follow(reg: Registry, w: World, ctx: Ctx, p: Prog, fuel: nat): Stop
    requires ctx.name in reg
    decreases fuel
  {
    if fuel == 0 then Stop(w, [], None)
    else if !p.Do? then Stop(w, [], Some(p))
    else
      var a := Perform(reg, w, ctx, p.op, fuel - 1);
      match a.result
      case Halt(Defect) => Stop(a.world, a.trace, Some(Die))
      case Halt(OutOfFuel) => Stop(a.world, a.trace, None)
      case answer =>
        var rest := Follow(reg, a.world, ctx, p.k(answer), fuel - 1);
        rest.(trace := a.trace + rest.trace)
  }

  /** A handler that finishes answers nothing, one that raises e fails with e, and one that dies is a defect. */
  lemma {:induction false} RunEndsWhereItStops(reg: Registry, w: World, ctx: Ctx, p: Prog, fuel: nat)
    requires ctx.name in reg
    ensures var s, o := Follow(reg, w, ctx, p, fuel), Run(reg, w, ctx, p, fuel);
            && o.world == s.world && o.trace == s.trace
            && match s.at
               case None => o.result == Halt(OutOfFuel)
               case Some(Done) => o.result == Value(JNull)
               case Some(Raise(e)) => o.result == Failure(e)
               case Some(Die) => o.result == Halt(Defect)
               case Some(Do(_, _)) => false
    decreases fuel
  {
    if fuel > 0 && p.Do? {
      var a := Perform(reg, w, ctx, p.op, fuel - 1);
      assert Run(reg, w, ctx, p, fuel) == Continued(reg, w, ctx, p.op, p.k, fuel - 1);
      if !a.result.Halt? {
        RunEndsWhereItStops(reg, a.world, ctx, p.k(a.result), fuel - 1);
      }
    }
  }

  /** The answer and the table of an invocation whose last program stopped at s, its failure reported as `reported`. */
  ghost predicate Concludes(r: Result, v: World, s: Stop, key: string, reported: Err -> Err) {
    match s.at
    case None => r == Halt(OutOfFuel) && v == s.world
    case Some(Done) => r == Value(JNull) && v == s.world
    case Some(Raise(PurgeSignal)) => r == Value(JNull) && v == Apply(s.world, Wipe(key))
    case Some(Raise(e)) => r == Failure(reported(e)) && v == s.world
    case Some(Die) => r == Halt(Defect) && v == s.world
    case Some(Do(_, _)) => false
  }

  /**
   * An invocation concludes where its handler stops. A failure other than a purge is reported as an execution error, or
   * given to the error handler if there is one, which then runs on the same context in the table as it was left and
   * decides the conclusion, its own failure reported in two execution errors.
   */
  ghost predicate Handled(reg: Registry, w: World, ctx: Ctx, p: Prog, onError: Option<(Ctx, Err) -> Prog>, fuel: nat,
                          r: Result, v: World)
    requires ctx.name in reg
  {
    var s := Follow(reg, w, ctx, p, fuel);
    if s.Fails() && !s.Purges() && onError.Some? then
      Concludes(r, v, Follow(reg, s.world, ctx, onError.value(ctx, s.at.value.e), fuel), ctx.Instance(),
                (e: Err) => TaskExecutionError(TaskExecutionError(e)))
    else Concludes(r, v, s, ctx.Instance(), (e: Err) => TaskExecutionError(e))
  }

  lemma InvocationAnswers(reg: Registry, w: World, ctx: Ctx, p: Prog, onError: Option<(Ctx, Err) -> Prog>, fuel: nat)
    requires ctx.name in reg
    ensures var g := Guarded(reg, w, ctx, p, onError, fuel);
            Handled(reg, w, ctx, p, onError, fuel, g.result, g.world)
  {
    var s := Follow(reg, w, ctx, p, fuel);
    RunEndsWhereItStops(reg, w, ctx, p, fuel);
    if s.Fails() && !s.Purges() && onError.Some? {
      RunEndsWhereItStops(reg, s.world, ctx, onError.value(ctx, s.at.value.e), fuel);
    }
  }

  /** The table after an external call that left v: a call that succeeded has cleared the flag of its instance. */
  function Cleared(v: World, key: string, r: Result): World { if r.Value? then Apply(v, Settle(key)) else v }

  /**
   * A sent event that fits its task is answered as its handler concludes, started on a context with the flag of the
   * instance; one that does not fit is refused, and an unknown task is reported without touching the table.
   */
  lemma SendAnswers(reg: Registry, w: World, name: string, id: string, event: Json, fuel: nat)
    ensures var o, key := Invoke(reg, w, Send(name, id, event), fuel), Key(name, id);
            if name !in reg then o == Ends(w, Failure(TaskExecutionError(TaskError(NotFound(name)))))
            else
              match reg[name].codec.decodeEvent(event)
              case None => o == Outcome(Apply(w, Open(key)), Failure(TaskValidationError), [Open(key)])
              case Some(e) =>
                var ctx := Ctx(name, id, At(w, key).failure);
                exists v :: o.world == Cleared(v, key, o.result)
                            && Handled(reg, Apply(w, Open(key)), ctx, reg[name].onEvent(ctx, e),
                                       reg[name].onEventError, fuel, o.result, v)
  {
    if name in reg {
      DeliveredIs(reg, w, name, id, event, fuel);
      if reg[name].codec.decodeEvent(event).Some? {
        var e, ctx := reg[name].codec.decodeEvent(event).value, ContextFor(w, name, id);
        var w1, p := Apply(w, Open(Key(name, id))), reg[name].onEvent(ctx, e);
        InvocationAnswers(reg, w1, ctx, p, reg[name].onEventError, fuel);
        assert Handled(reg, w1, ctx, p, reg[name].onEventError, fuel,
                       Invoke(reg, w, Send(name, id, event), fuel).result,
                       Guarded(reg, w1, ctx, p, reg[name].onEventError, fuel).world);
      }
    }
  }

  /** A fired alarm is answered as its alarm handler concludes, started once the alarm is consumed. */
  lemma FireAnswers(reg: Registry, w: World, name: string, id: string, fuel: nat)
    ensures var o, key := Invoke(reg, w, FireAlarm(name, id), fuel), Key(name, id);
            if name !in reg then o == Ends(w, Failure(TaskExecutionError(TaskError(NotFound(name)))))
            else
              var ctx := Ctx(name, id, At(w, key).failure);
              exists v :: o.world == Cleared(v, key, o.result)
                          && Handled(reg, Apply(Apply(w, Open(key)), Fire(key)), ctx, reg[name].onAlarm(ctx),
                                     reg[name].onAlarmError, fuel, o.result, v)
  {
    if name in reg {
      var ctx, w1 := ContextFor(w, name, id), FireWorld(w, Key(name, id));
      FiringParts(reg, w, name, id, fuel);
      InvocationAnswers(reg, w1, ctx, reg[name].onAlarm(ctx), reg[name].onAlarmError, fuel);
      assert Handled(reg, w1, ctx, reg[name].onAlarm(ctx), reg[name].onAlarmError, fuel,
                     Invoke(reg, w, FireAlarm(name, id), fuel).result, FiringBody(reg, w, name, id, fuel).world);
    }
  }
}
