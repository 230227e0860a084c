/** When handlers cannot make themselves due again, seen from their programs alone. */
module Draining {
  import opened TaskModel
  import opened TickSemantics
  import opened Programs

  /** Scheduling only by a positive delay, or for a time after `now`. */
  function LateOps(now: int): (string, Op) -> bool {
    (name: string, op: Op) => (op.ScheduleIn? ==> op.ms > 0) && (op.ScheduleAt? ==> op.ts > now)
  }

  function LateStep(now: int): Step -> bool { (s: Step) => s.SetAlarm? ==> s.ts > now }

  lemma LateOpsSetLate(reg: Registry, now: int)
    ensures Keeps(reg, LateOps(now), LateStep(now), now)
  {
    forall w: World, ctx: Ctx, op: Op ensures TakesGood(reg, LateOps(now), LateStep(now), now, w, ctx, op) {
    }
  }

  /** Ticks at a time that has been reached set only later alarms, when all handlers schedule late. */
  lemma TicksSetLate(reg: Registry, w: World, now: int, n: nat, fuel: nat)
    requires w.clock >= now && TasksOnly(reg, LateOps(now), fuel)
    ensures SetsLate(Serve(reg, w, Ticks(now, n), fuel).trace, now)
  {
    LateOpsSetLate(reg, now);
    RunsKeepGood(reg, w, Ticks(now, n), fuel, LateOps(now), LateStep(now), now);
    forall s | s in Serve(reg, w, Ticks(now, n), fuel).trace ensures s.SetAlarm? ==> s.ts > now {
      assert LateStep(now)(s);
    }
  }

  /**
   * Where every handler schedules only by positive delays, or for times after `now`, repeating a tick at a time that
   * has been reached leaves nothing due within as many ticks as there were due instances, whatever fails meanwhile.
   */
  lemma LateTasksDrain(reg: Registry, calls: seq<Call>, now: int, n: nat, fuel: nat)
    requires WellNamed(reg) && TasksOnly(reg, LateOps(now), fuel)
    requires var w := Serve(reg, EMPTY, calls, fuel).world; w.clock >= now && |DueSet(w, now)| <= n
    ensures DueSet(Serve(reg, Serve(reg, EMPTY, calls, fuel).world, Ticks(now, n), fuel).world, now) == {}
  {
    TicksSetLate(reg, Serve(reg, EMPTY, calls, fuel).world, now, n, fuel);
    RunsDrain(reg, calls, now, n, fuel);
  }
}
