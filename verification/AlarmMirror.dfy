/** The pending alarm is recorded twice, in the platform slot and in the instance's storage: the two never disagree. */
module AlarmMirror {
  import opened Values
  import opened TaskModel
  import opened TaskTrace

  predicate Mirrors(i: Snapshot) {
    && (ALARM_KEY in i.storage <==> i.alarm.Some?)
    && (i.alarm.Some? ==> i.storage[ALARM_KEY] == JNumber(i.alarm.value))
  }

  ghost predicate AllMirror(w: World) { forall k :: Mirrors(At(w, k)) }

  lemma ApplyMirrors(w: World, s: Step)
    requires AllMirror(w)
    ensures AllMirror(Apply(w, s))
  {
    assert Mirrors(BLANK);
    if !s.Pass? {
      assert Mirrors(At(w, s.key));
      assert Mirrors(Change(At(w, s.key), s));
      forall k ensures Mirrors(At(Apply(w, s), k)) {
        assert Mirrors(At(w, k));
      }
    } else {
      forall k ensures Mirrors(At(Apply(w, s), k)) {
        assert Mirrors(At(w, k));
      }
    }
  }

  lemma {:induction false} ReplayMirrors(w: World, t: seq<Step>)
    requires AllMirror(w)
    ensures AllMirror(Replay(w, t))
    decreases |t|
  {
    if t != [] {
      ApplyMirrors(w, t[0]);
      ReplayMirrors(Apply(w, t[0]), t[1..]);
    }
  }

  /**
   * At every moment of every run from the empty runtime, inside handlers and between calls, each instance's stored
   * alarm equals its alarm slot, and ctx.nextAlarm answers what the platform will do.
   */
  lemma MirrorAlways(reg: Registry, calls: seq<Call>, fuel: nat, moment: nat, key: string)
    requires moment <= |Serve(reg, EMPTY, calls, fuel).trace|
    ensures var w := Replay(EMPTY, Serve(reg, EMPTY, calls, fuel).trace[..moment]);
            && Mirrors(At(w, key))
            && forall ctx: Ctx | ctx.name in reg && ctx.Instance() == key ::
                 Perform(reg, w, ctx, NextAlarm, fuel) == Ends(w, Value(Nullable(At(w, key).alarm)))
    ensures Mirrors(At(Serve(reg, EMPTY, calls, fuel).world, key))
  {
    var s := Serve(reg, EMPTY, calls, fuel);
    ServeFaithful(reg, EMPTY, calls, fuel);
    assert AllMirror(EMPTY);
    ReplayMirrors(EMPTY, s.trace[..moment]);
    ReplayMirrors(EMPTY, s.trace);
    assert Mirrors(At(Replay(EMPTY, s.trace[..moment]), key));
    assert Mirrors(At(s.world, key));
  }

  /** One external call on any table that is in step leaves it in step, whether it succeeds, fails or never finishes. */
  lemma CallKeepsMirror(reg: Registry, w: World, call: Call, fuel: nat)
    requires AllMirror(w)
    ensures AllMirror(Invoke(reg, w, call, fuel).world)
  {
    InvokeFaithful(reg, w, call, fuel);
    ReplayMirrors(w, Invoke(reg, w, call, fuel).trace);
  }

  /**
   * What each operation of a handler on its own instance does to the alarm, in both records, as ctx.nextAlarm then
   * answers it.
   */
  lemma AlarmOperations(reg: Registry, w: World, ctx: Ctx, op: Op, fuel: nat)
    requires ctx.name in reg && !op.SendTo? && !op.GetStateOf? && Mirrors(At(w, ctx.Instance()))
    ensures var o := Perform(reg, w, ctx, op, fuel);
            var next := if op.ScheduleIn? then Some(w.clock + op.ms)
                        else if op.ScheduleAt? then Some(op.ts)
                        else if op.CancelSchedule? then None
                        else At(w, ctx.Instance()).alarm;
            && At(o.world, ctx.Instance()).alarm == next && Mirrors(At(o.world, ctx.Instance()))
            && Perform(reg, o.world, ctx, NextAlarm, fuel).result == Value(Nullable(next))
            && (op.ScheduleIn? || op.ScheduleAt? || op.CancelSchedule? ==> o.result == Value(JNull))
            && (op.Await? ==> o.result == Value(JNumber(o.world.clock)))
            && o.world.clock == w.clock + if op.Await? then op.ms else 0
  {
  }
}
