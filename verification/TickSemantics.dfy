/** What one tick fires, and why repeated ticks drain the alarms that are due. */
module TickSemantics {
  import opened Values
  import opened InstanceKey
  import opened TaskModel
  import opened TaskTrace
  import opened AlarmLedger

  // ----- The table: keys in insertion order, without repetition -----

  predicate NoRepeats(keys: seq<string>) {
    forall i, j :: 0 <= i < j < |keys| ==> keys[i] != keys[j]
  }

  ghost predicate Ordered(w: World) {
    && NoRepeats(w.order)
    && (forall k :: k in w.instances <==> k in w.order)
    && (forall k :: k in w.order ==> SEPARATOR in k)
  }

  /** Only instances of registered tasks have an alarm. */
  ghost predicate AlarmsOwned(reg: Registry, w: World) {
    forall k :: k in w.instances && w.instances[k].alarm.Some? ==> exists n :: n in reg && Names(n, k)
  }

  /** When no registered name has a separator, parsing the key finds that task again. */
  lemma OwnersParse(reg: Registry, w: World)
    requires WellNamed(reg) && AlarmsOwned(reg, w)
    ensures forall k :: k in w.instances && w.instances[k].alarm.Some? ==> Parse(k).0 in reg
  {
    forall k | k in w.instances && w.instances[k].alarm.Some? ensures Parse(k).0 in reg {
      var n :| n in reg && Names(n, k);
      KeyOfNamed(n, k);
    }
  }

  lemma ApplyOrdered(reg: Registry, w: World, s: Step)
    requires Ordered(w) && Proper(reg, s)
    ensures Ordered(Apply(w, s))
    ensures AlarmsOwned(reg, w) ==> AlarmsOwned(reg, Apply(w, s))
  {
    if !s.Pass? {
      EnsureOrdered(w, s.key);
    }
  }

  lemma EnsureOrdered(w: World, key: string)
    requires Ordered(w) && SEPARATOR in key
    ensures Ordered(Ensure(w, key))
  {
  }

  lemma {:induction false} ReplayOrdered(reg: Registry, w: World, t: seq<Step>)
    requires Ordered(w) && AllProper(reg, t)
    ensures Ordered(Replay(w, t))
    ensures AlarmsOwned(reg, w) ==> AlarmsOwned(reg, Replay(w, t))
    decreases |t|
  {
    if t != [] {
      ApplyOrdered(reg, w, t[0]);
      ReplayOrdered(reg, Apply(w, t[0]), t[1..]);
    }
  }

  /** The instances a trace acts on, in the order of their first step. A handler start alone creates nothing. */
  function FirstTouched(t: seq<Step>): seq<string> {
    if t == [] then []
    else
      var before, s := FirstTouched(t[..|t| - 1]), t[|t| - 1];
      if s.Pass? || s.Began? || s.key in before then before else before + [s.key]
  }

  lemma {:induction false} OrderIsCreation(t: seq<Step>)
    ensures var w := Replay(EMPTY, t);
            w.order == FirstTouched(t) && forall k :: k in w.instances <==> k in w.order
  {
    if t != [] {
      var init, s := t[..|t| - 1], t[|t| - 1];
      assert t == init + [s];
      OrderIsCreation(init);
      ReplayLast(EMPTY, init, s);
    }
  }

  /**
   * Every table a run can reach lists each instance once, in the order in which they were first used, and only
   * instances of registered tasks have alarms; when no task name has a separator, parsing their keys finds those
   * tasks.
   */
  lemma ReachableOrdered(reg: Registry, calls: seq<Call>, fuel: nat)
    ensures var s := Serve(reg, EMPTY, calls, fuel);
            && Ordered(s.world) && s.world.order == FirstTouched(s.trace)
            && AlarmsOwned(reg, s.world)
            && (WellNamed(reg) ==>
                  forall k :: k in s.world.instances && s.world.instances[k].alarm.Some? ==> Parse(k).0 in reg)
  {
    var s := Serve(reg, EMPTY, calls, fuel);
    ServeFaithful(reg, EMPTY, calls, fuel);
    ReplayOrdered(reg, EMPTY, s.trace);
    OrderIsCreation(s.trace);
    if WellNamed(reg) {
      OwnersParse(reg, s.world);
    }
  }

  // ----- The snapshot -----

  /** The elements of `part` occur in `whole` in the same order. */
  predicate Subsequence(part: seq<string>, whole: seq<string>)
    decreases |whole|
  {
    || part == []
    || (whole != [] && part[0] == whole[0] && Subsequence(part[1..], whole[1..]))
    || (whole != [] && Subsequence(part, whole[1..]))
  }

  lemma {:induction false} DueInMembers(w: World, keys: seq<string>, now: int)
    ensures forall k :: k in DueIn(w, keys, now) <==> k in keys && IsDue(w, k, now)
    decreases |keys|
  {
    if keys != [] {
      DueInMembers(w, keys[1..], now);
      assert forall k :: k in keys <==> k == keys[0] || k in keys[1..];
    }
  }

  /** The snapshot lists keys of the table in table order, none twice. */
  lemma {:induction false} DueInOrdered(w: World, keys: seq<string>, now: int)
    requires NoRepeats(keys)
    ensures Subsequence(DueIn(w, keys, now), keys) && NoRepeats(DueIn(w, keys, now))
    decreases |keys|
  {
    if keys != [] {
      DueInOrdered(w, keys[1..], now);
      DueInMembers(w, keys[1..], now);
      assert keys[0] !in keys[1..];
      var rest := DueIn(w, keys[1..], now);
      if IsDue(w, keys[0], now) {
        assert DueIn(w, keys, now) == [keys[0]] + rest && DueIn(w, keys, now)[1..] == rest;
      } else {
        assert DueIn(w, keys, now) == rest;
      }
    }
  }

  lemma SnapshotOf(w: World, now: int)
    requires Ordered(w)
    ensures NoRepeats(Due(w, now)) && Subsequence(Due(w, now), w.order)
    ensures forall k :: k in Due(w, now) <==> IsDue(w, k, now)
    ensures forall k :: k in Due(w, now) ==> SEPARATOR in k
  {
    DueInMembers(w, w.order, now);
    DueInOrdered(w, w.order, now);
  }

  function Registered(reg: Registry, keys: seq<string>): seq<string> {
    if keys == [] then []
    else (if Parse(keys[0]).0 in reg then [keys[0]] else []) + Registered(reg, keys[1..])
  }

  // ----- What a tick fires -----

  lemma {:induction false} FiresConcat(a: seq<Step>, b: seq<Step>)
    ensures Fires(a + b) == Fires(a) + Fires(b)
    ensures AlarmRuns(a + b) == AlarmRuns(a) + AlarmRuns(b)
  {
    AlarmRunsConcat(a, b);
    if a == [] {
      assert a + b == b;
    } else {
      assert (a + b)[1..] == a[1..] + b && (a + b)[0] == a[0];
      FiresConcat(a[1..], b);
      var first := if a[0].Fire? then [a[0].key] else [];
      assert first + (Fires(a[1..]) + Fires(b)) == first + Fires(a[1..]) + Fires(b);
    }
  }

  lemma {:induction false} AlarmRunsConcat(a: seq<Step>, b: seq<Step>)
    ensures AlarmRuns(a + b) == AlarmRuns(a) + AlarmRuns(b)
  {
    if a == [] {
      assert a + b == b;
    } else {
      assert (a + b)[1..] == a[1..] + b && (a + b)[0] == a[0];
      AlarmRunsConcat(a[1..], b);
      var first := if a[0].Began? && a[0].event.None? then [a[0].key] else [];
      assert first + (AlarmRuns(a[1..]) + AlarmRuns(b)) == first + AlarmRuns(a[1..]) + AlarmRuns(b);
    }
  }

  lemma {:induction false} NestedFiresNothing(t: seq<Step>)
    requires AllNested(t)
    ensures Fires(t) == [] && AlarmRuns(t) == []
  {
    if t != [] {
      assert Nested(t[0]);
      NestedFiresNothing(t[1..]);
    }
  }

  /** The instances whose alarm handler a trace starts, in order. */
  function AlarmRuns(t: seq<Step>): seq<string> {
    if t == [] then []
    else (if t[0].Began? && t[0].event.None? then [t[0].key] else []) + AlarmRuns(t[1..])
  }

  lemma FiringFiresOnce(reg: Registry, w: World, name: string, id: string, fuel: nat)
    requires name in reg
    ensures var o := FireInstance(reg, w, name, id, fuel);
            && Fires(o.trace) == [Key(name, id)] == AlarmRuns(o.trace)
            && Fire(Key(name, id)) in o.trace
  {
    var key, o := Key(name, id), FireInstance(reg, w, name, id, fuel);
    FiringShape(reg, w, name, id, fuel);
    var head, body := FiringHead(w, name, id), FiringBody(reg, w, name, id, fuel);
    var start, tail := Began(key, ContextFor(w, name, id), None), Settlement(key, o.result);
    assert o.trace == head + (body.trace + tail);
    NestedFiresNothing(body.trace);
    FiresConcat(body.trace, tail);
    FiresConcat(head, body.trace + tail);
    assert head == [Open(key)] + ([Fire(key)] + [start]);
    FiresConcat([Fire(key)], [start]);
    FiresConcat([Open(key)], [Fire(key)] + [start]);
    assert head[1] == Fire(key);
    assert o.trace[1] == Fire(key);
  }

  /** Firing a list of keys runs a prefix of the registered ones, and all of them unless a handler did not succeed. */
  lemma {:induction false} FireAllFires(reg: Registry, w: World, keys: seq<string>, fuel: nat)
    requires forall k :: k in keys ==> SEPARATOR in k
    ensures var o := FireAll(reg, w, keys, fuel);
            && Fires(o.trace) == AlarmRuns(o.trace) <= Registered(reg, keys)
            && (o.result.Value? ==> Fires(o.trace) == Registered(reg, keys))
            && (!o.result.Value? ==> Fires(o.trace) != [])
    decreases |keys|
  {
    if keys != [] {
      var (name, id) := Parse(keys[0]);
      KeyInvertsParse(keys[0]);
      if name !in reg {
        FireAllFires(reg, w, keys[1..], fuel);
      } else {
        var o := FireInstance(reg, w, name, id, fuel);
        FiringFiresOnce(reg, w, name, id, fuel);
        FireAllFires(reg, o.world, keys[1..], fuel);
        FiresConcat(o.trace, FireAll(reg, o.world, keys[1..], fuel).trace);
      }
    }
  }

  /**
   * A tick over any reachable table takes its snapshot first: it runs the alarm handler of a prefix of the registered
   * due instances, in insertion order and never one twice, whatever the handlers do to each other's alarms; a tick that
   * succeeds runs them all and answers the size of the snapshot.
   */
  lemma TickFiresSnapshot(reg: Registry, calls: seq<Call>, now: int, fuel: nat)
    ensures var w := Serve(reg, EMPTY, calls, fuel).world;
            var due, o := Due(w, now), Invoke(reg, w, Tick(now), fuel);
            && NoRepeats(due) && Subsequence(due, w.order)
            && (forall k :: k in due <==> At(w, k).alarm.Some? && At(w, k).alarm.value <= now)
            && Fires(o.trace) == AlarmRuns(o.trace) <= Registered(reg, due)
            && (o.result.Value? ==> Fires(o.trace) == Registered(reg, due) && o.result == Value(JNumber(|due|)))
            && (WellNamed(reg) ==> Registered(reg, due) == due)
  {
    var w := Serve(reg, EMPTY, calls, fuel).world;
    ReachableOrdered(reg, calls, fuel);
    SnapshotOf(w, now);
    assert forall k :: IsDue(w, k, now) <==> At(w, k).alarm.Some? && At(w, k).alarm.value <= now;
    FireAllFires(reg, w, Due(w, now), fuel);
    if WellNamed(reg) {
      AllRegistered(reg, Due(w, now));
    }
  }

  lemma {:induction false} AllRegistered(reg: Registry, keys: seq<string>)
    requires forall k :: k in keys ==> Parse(k).0 in reg
    ensures Registered(reg, keys) == keys
  {
    if keys != [] {
      AllRegistered(reg, keys[1..]);
    }
  }

  lemma {:induction false} UnregisteredOnly(reg: Registry, keys: seq<string>)
    requires forall k :: k in keys ==> Parse(k).0 !in reg
    ensures Registered(reg, keys) == []
  {
    if keys != [] {
      UnregisteredOnly(reg, keys[1..]);
    }
  }

  lemma {:induction false} RegisteredMembers(reg: Registry, keys: seq<string>)
    ensures forall k :: k in Registered(reg, keys) <==> k in keys && Parse(k).0 in reg
  {
    if keys != [] {
      RegisteredMembers(reg, keys[1..]);
      assert forall k :: k in keys <==> k == keys[0] || k in keys[1..];
    }
  }

  // ----- Draining -----

  function DueSet(w: World, now: int): set<string> {
    set k | k in w.instances && IsDue(w, k, now)
  }

  /** Every alarm the trace sets lies after `now`. */
  predicate SetsLate(t: seq<Step>, now: int) {
    forall s | s in t :: s.SetAlarm? ==> s.ts > now
  }

  lemma {:induction false} LateStepsOnlyShrink(w: World, t: seq<Step>, now: int)
    requires SetsLate(t, now)
    ensures DueSet(Replay(w, t), now) <= DueSet(w, now)
    ensures forall k :: Fire(k) in t ==> k !in DueSet(Replay(w, t), now)
    decreases |t|
  {
    if t != [] {
      var w1 := Apply(w, t[0]);
      assert t[0] in t;
      assert DueSet(w1, now) <= DueSet(w, now);
      LateStepsOnlyShrink(w1, t[1..], now);
      forall k | Fire(k) in t ensures k !in DueSet(Replay(w, t), now) {
        assert t[0] == Fire(k) || Fire(k) in t[1..];
      }
    }
  }

  lemma {:induction false} FiresAreSteps(t: seq<Step>, key: string)
    ensures key in Fires(t) <==> Fire(key) in t
  {
    if t != [] {
      FiresAreSteps(t[1..], key);
      assert Fire(key) in t <==> t[0] == Fire(key) || Fire(key) in t[1..];
    }
  }

  lemma {:induction false} NoneRegistered(reg: Registry, w: World, keys: seq<string>, fuel: nat)
    requires Registered(reg, keys) == []
    ensures FireAll(reg, w, keys, fuel) == Ends(w, Value(JNull))
    decreases |keys|
  {
    if keys != [] {
      NoneRegistered(reg, w, keys[1..], fuel);
    }
  }

  /** A tick fires something due if something registered is due, and otherwise does nothing. */
  lemma TickFiresFirst(reg: Registry, w: World, now: int, fuel: nat)
    requires Ordered(w)
    ensures var o := Invoke(reg, w, Tick(now), fuel);
            if exists k :: IsDue(w, k, now) && Parse(k).0 in reg
            then Fires(o.trace) != [] && IsDue(w, Fires(o.trace)[0], now)
            else o.world == w && o.trace == []
  {
    var due := Due(w, now);
    FirstRegistered(reg, w, now);
    FireAllFires(reg, w, due, fuel);
    if Registered(reg, due) == [] {
      NoneRegistered(reg, w, due, fuel);
    }
  }

  lemma FirstRegistered(reg: Registry, w: World, now: int)
    requires Ordered(w)
    ensures var keys := Registered(reg, Due(w, now));
            && (keys != [] <==> exists k :: IsDue(w, k, now) && Parse(k).0 in reg)
            && (if keys != [] then IsDue(w, keys[0], now) else forall k :: k in Due(w, now) ==> Parse(k).0 !in reg)
            && (forall k :: k in Due(w, now) ==> SEPARATOR in k)
  {
    var keys := Registered(reg, Due(w, now));
    SnapshotOf(w, now);
    RegisteredMembers(reg, Due(w, now));
    if keys != [] {
      assert keys[0] in keys;
    }
  }

  /** Whatever is still due after a tick that succeeded belongs to no registered task. */
  lemma TickFiresAll(reg: Registry, w: World, now: int, fuel: nat)
    requires Ordered(w) && SetsLate(Invoke(reg, w, Tick(now), fuel).trace, now)
    requires Invoke(reg, w, Tick(now), fuel).result.Value?
    ensures forall k :: IsDue(Invoke(reg, w, Tick(now), fuel).world, k, now) ==> Parse(k).0 !in reg
  {
    var o, due := Invoke(reg, w, Tick(now), fuel), Due(w, now);
    SnapshotOf(w, now);
    RegisteredMembers(reg, due);
    FireAllFires(reg, w, due, fuel);
    InvokeFaithful(reg, w, Tick(now), fuel);
    LateStepsOnlyShrink(w, o.trace, now);
    forall k | IsDue(o.world, k, now) ensures Parse(k).0 !in reg {
      assert k in DueSet(o.world, now);
      FiresAreSteps(o.trace, k);
      assert k in DueSet(w, now);
    }
  }

  /**
   * When the alarms set during a tick lie after its time, the due set strictly shrinks, also when a handler fails,
   * exactly when some due instance belongs to a registered task; otherwise the tick changes nothing at all. A tick that
   * succeeds leaves no registered instance due.
   */
  lemma TickShrinks(reg: Registry, w: World, now: int, fuel: nat)
    requires Ordered(w)
    requires SetsLate(Invoke(reg, w, Tick(now), fuel).trace, now)
    ensures var o := Invoke(reg, w, Tick(now), fuel);
            && DueSet(o.world, now) <= DueSet(w, now)
            && (DueSet(o.world, now) < DueSet(w, now) <==> exists k :: IsDue(w, k, now) && Parse(k).0 in reg)
            && ((forall k :: IsDue(w, k, now) ==> Parse(k).0 !in reg) ==> o.world == w && o.trace == [])
            && (o.result.Value? ==> forall k :: IsDue(o.world, k, now) ==> Parse(k).0 !in reg)
  {
    var o, due := Invoke(reg, w, Tick(now), fuel), Due(w, now);
    InvokeFaithful(reg, w, Tick(now), fuel);
    LateStepsOnlyShrink(w, o.trace, now);
    TickFiresFirst(reg, w, now, fuel);
    assert DueSet(o.world, now) <= DueSet(w, now);
    if exists k :: IsDue(w, k, now) && Parse(k).0 in reg {
      var first := Fires(o.trace)[0];
      FiresAreSteps(o.trace, first);
      assert first in DueSet(w, now) && first !in DueSet(o.world, now);
    }
    if o.result.Value? {
      TickFiresAll(reg, w, now, fuel);
    }
  }

  function Ticks(now: int, n: nat): seq<Call> { seq(n, _ => Tick(now)) }

  lemma TicksSplit(reg: Registry, w: World, now: int, n: nat, fuel: nat)
    requires n > 0
    ensures var o, all := Invoke(reg, w, Tick(now), fuel), Serve(reg, w, Ticks(now, n), fuel);
            var rest := Serve(reg, o.world, Ticks(now, n - 1), fuel);
            all.world == rest.world && all.trace == o.trace + rest.trace
  {
    assert Ticks(now, n)[1..] == Ticks(now, n - 1);
  }

  /** A tick with something registered due leaves fewer instances due. */
  lemma TickLeavesFewer(reg: Registry, w: World, now: int, fuel: nat)
    requires Ordered(w) && SetsLate(Invoke(reg, w, Tick(now), fuel).trace, now)
    requires exists k :: IsDue(w, k, now) && Parse(k).0 in reg
    ensures var w1 := Invoke(reg, w, Tick(now), fuel).world; Ordered(w1) && |DueSet(w1, now)| < |DueSet(w, now)|
  {
    var o := Invoke(reg, w, Tick(now), fuel);
    InvokeFaithful(reg, w, Tick(now), fuel);
    ReplayOrdered(reg, w, o.trace);
    TickShrinks(reg, w, now, fuel);
    ProperSubsetIsSmaller(DueSet(o.world, now), DueSet(w, now));
  }

  /**
   * Repeating tick(now), failing or not, empties the registered part of the due set within as many ticks as it has
   * keys.
   */
  lemma {:induction false} TicksDrain(reg: Registry, w: World, now: int, n: nat, fuel: nat)
    requires Ordered(w) && |DueSet(w, now)| <= n
    requires SetsLate(Serve(reg, w, Ticks(now, n), fuel).trace, now)
    ensures forall k :: IsDue(Serve(reg, w, Ticks(now, n), fuel).world, k, now) ==> Parse(k).0 !in reg
    decreases n
  {
    if n == 0 {
      assert DueSet(w, now) == {};
      assert forall k :: IsDue(w, k, now) ==> k in DueSet(w, now);
    } else {
      TicksSplit(reg, w, now, n, fuel);
      if exists k :: IsDue(w, k, now) && Parse(k).0 in reg {
        TickLeavesFewer(reg, w, now, fuel);
        TicksDrain(reg, Invoke(reg, w, Tick(now), fuel).world, now, n - 1, fuel);
      } else {
        IdleTicks(reg, w, now, n, fuel);
      }
    }
  }

  lemma ProperSubsetIsSmaller(a: set<string>, b: set<string>)
    requires a < b
    ensures |a| < |b|
  {
    var x :| x in b && x !in a;
    assert a <= b - {x};
    SubsetIsNoLarger(a, b - {x});
  }

  lemma SubsetIsNoLarger(a: set<string>, b: set<string>)
    requires a <= b
    ensures |a| <= |b|
  {
    assert b == a + (b - a);
  }

  lemma {:induction false} IdleTicks(reg: Registry, w: World, now: int, n: nat, fuel: nat)
    requires Ordered(w) && forall k :: IsDue(w, k, now) ==> Parse(k).0 !in reg
    ensures Serve(reg, w, Ticks(now, n), fuel) == Session(w, [])
    decreases n
  {
    if n > 0 {
      assert Ticks(now, n)[1..] == Ticks(now, n - 1);
      SnapshotOf(w, now);
      UnregisteredOnly(reg, Due(w, now));
      NoneRegistered(reg, w, Due(w, now), fuel);
      IdleTicks(reg, w, now, n - 1, fuel);
    }
  }

  /** With well-named tasks the drain is complete: nothing at all is due any more. */
  lemma RunsDrain(reg: Registry, calls: seq<Call>, now: int, n: nat, fuel: nat)
    requires WellNamed(reg)
    requires var w := Serve(reg, EMPTY, calls, fuel).world;
             |DueSet(w, now)| <= n && SetsLate(Serve(reg, w, Ticks(now, n), fuel).trace, now)
    ensures DueSet(Serve(reg, Serve(reg, EMPTY, calls, fuel).world, Ticks(now, n), fuel).world, now) == {}
  {
    var w := Serve(reg, EMPTY, calls, fuel).world;
    var s := Serve(reg, w, Ticks(now, n), fuel);
    ReachableOrdered(reg, calls, fuel);
    TicksDrain(reg, w, now, n, fuel);
    ServeFaithful(reg, w, Ticks(now, n), fuel);
    ReplayOrdered(reg, w, s.trace);
    OwnersParse(reg, s.world);
  }

  // ----- Counting the firings of one instance over a run -----

  /** How often a trace fires the alarm of one instance. */
  function Firings(t: seq<Step>, key: string): nat { Occurrences(Fires(t), key) }

  function Occurrences(keys: seq<string>, key: string): nat {
    if keys == [] then 0 else (if keys[0] == key then 1 else 0) + Occurrences(keys[1..], key)
  }

  lemma {:induction false} OccurrencesConcat(a: seq<string>, b: seq<string>, key: string)
    ensures Occurrences(a + b, key) == Occurrences(a, key) + Occurrences(b, key)
  {
    if a == [] {
      assert a + b == b;
    } else {
      assert (a + b)[1..] == a[1..] + b;
      OccurrencesConcat(a[1..], b, key);
    }
  }

  lemma FiringsConcat(a: seq<Step>, b: seq<Step>, key: string)
    ensures Firings(a + b, key) == Firings(a, key) + Firings(b, key)
  {
    FiresConcat(a, b);
    OccurrencesConcat(Fires(a), Fires(b), key);
  }

  lemma OccurrencesInOne(k: string, key: string)
    ensures Occurrences([k], key) == if k == key then 1 else 0
  {
  }

  lemma OneFiring(reg: Registry, w: World, name: string, id: string, key: string, fuel: nat)
    requires name in reg
    ensures Firings(FireInstance(reg, w, name, id, fuel).trace, key) == if Key(name, id) == key then 1 else 0
  {
    FiringFiresOnce(reg, w, name, id, fuel);
    assert Fires(FireInstance(reg, w, name, id, fuel).trace) == [Key(name, id)];
    OccurrencesInOne(Key(name, id), key);
  }

  lemma {:induction false} OccursOnce(keys: seq<string>, key: string)
    requires NoRepeats(keys)
    ensures Occurrences(keys, key) == if key in keys then 1 else 0
  {
    if keys != [] {
      OccursOnce(keys[1..], key);
      assert key in keys <==> key == keys[0] || key in keys[1..];
      assert keys[0] !in keys[1..];
    }
  }

  lemma {:induction false} RegisteredNoRepeats(reg: Registry, keys: seq<string>)
    requires NoRepeats(keys)
    ensures NoRepeats(Registered(reg, keys))
  {
    if keys != [] {
      RegisteredNoRepeats(reg, keys[1..]);
      RegisteredMembers(reg, keys[1..]);
      assert keys[0] !in keys[1..];
    }
  }

  lemma RegisteredOnce(reg: Registry, keys: seq<string>, key: string)
    requires NoRepeats(keys)
    ensures Occurrences(Registered(reg, keys), key) == if key in keys && Parse(key).0 in reg then 1 else 0
  {
    RegisteredNoRepeats(reg, keys);
    RegisteredMembers(reg, keys);
    OccursOnce(Registered(reg, keys), key);
  }

  predicate FiresAlarms(call: Call) { call.FireAlarm? || call.Tick? }

  ghost predicate Advances(reg: Registry, key: string, holds: (World, nat) -> bool, fuel: nat,
                           w: World, n: nat, name: string, id: string) {
    holds(w, n) && name in reg ==>
      holds(FireInstance(reg, w, name, id, fuel).world, n + if Key(name, id) == key then 1 else 0)
  }

  /** `holds` advances by one with each firing of `key`, and no other firing changes it. */
  ghost predicate AdvancedByFirings(reg: Registry, key: string, holds: (World, nat) -> bool, fuel: nat) {
    forall w: World, n: nat, name: string, id: string :: Advances(reg, key, holds, fuel, w, n, name, id)
  }

  lemma FiringAdvances(reg: Registry, w: World, name: string, id: string, key: string,
                       holds: (World, nat) -> bool, n: nat, fuel: nat)
    requires holds(w, n) && AdvancedByFirings(reg, key, holds, fuel) && name in reg
    ensures var o := FireInstance(reg, w, name, id, fuel); holds(o.world, n + Firings(o.trace, key))
  {
    assert Advances(reg, key, holds, fuel, w, n, name, id);
    OneFiring(reg, w, name, id, key, fuel);
  }

  lemma KeyAdvances(reg: Registry, w: World, k: string, key: string, holds: (World, nat) -> bool, n: nat, fuel: nat)
    requires holds(w, n) && AdvancedByFirings(reg, key, holds, fuel)
    ensures var o := FireKey(reg, w, k, fuel); holds(o.world, n + Firings(o.trace, key))
  {
    var (name, id) := Parse(k);
    if name in reg {
      FiringAdvances(reg, w, name, id, key, holds, n, fuel);
    }
  }

  /** Firing a list is firing its first key, which advances, and, if that succeeds, the others. */
  lemma FireAllHead(reg: Registry, w: World, keys: seq<string>, key: string, holds: (World, nat) -> bool, n: nat,
                    fuel: nat)
    returns (o: Outcome)
    requires keys != [] && holds(w, n) && AdvancedByFirings(reg, key, holds, fuel)
    ensures holds(o.world, n + Firings(o.trace, key))
    ensures var all, rest := FireAll(reg, w, keys, fuel), FireAll(reg, o.world, keys[1..], fuel);
            if o.result.Value?
            then all.world == rest.world && Firings(all.trace, key) == Firings(o.trace, key) + Firings(rest.trace, key)
            else all == o
  {
    o := FireKey(reg, w, keys[0], fuel);
    KeyAdvances(reg, w, keys[0], key, holds, n, fuel);
    FiringsConcat(o.trace, FireAll(reg, o.world, keys[1..], fuel).trace, key);
  }

  lemma {:induction false} FireAllAdvances(reg: Registry, w: World, keys: seq<string>, key: string,
                                           holds: (World, nat) -> bool, n: nat, fuel: nat)
    requires holds(w, n) && AdvancedByFirings(reg, key, holds, fuel)
    ensures var o := FireAll(reg, w, keys, fuel); holds(o.world, n + Firings(o.trace, key))
    decreases |keys|
  {
    if keys != [] {
      var o := FireAllHead(reg, w, keys, key, holds, n, fuel);
      if o.result.Value? {
        FireAllAdvances(reg, o.world, keys[1..], key, holds, n + Firings(o.trace, key), fuel);
      }
    }
  }

  lemma {:induction false} NoFireSteps(t: seq<Step>)
    requires forall s | s in t :: !s.Fire?
    ensures Fires(t) == []
  {
    if t != [] {
      assert !t[0].Fire?;
      NoFireSteps(t[1..]);
    }
  }

  /** Calls that fire no alarms have no firing in their trace. */
  lemma QuietCallsFireNothing(reg: Registry, w: World, call: Call, fuel: nat)
    requires !FiresAlarms(call)
    ensures Fires(Invoke(reg, w, call, fuel).trace) == []
  {
    var o := Invoke(reg, w, call, fuel);
    if call.Send? && call.name in reg {
      var body := HandleEvent(reg, w, call.name, call.id, call.event, fuel);
      SendShape(reg, w, call.name, call.id, call.event, fuel);
      NestedFiresNothing(body.trace);
      FiresConcat(body.trace, Settlement(Key(call.name, call.id), o.result));
    } else {
      NoFireSteps(o.trace);
    }
  }

  lemma CallAdvances(reg: Registry, w: World, call: Call, key: string, holds: (World, nat) -> bool, n: nat, fuel: nat)
    requires holds(w, n) && AdvancedByFirings(reg, key, holds, fuel)
    requires !FiresAlarms(call) ==> holds(Invoke(reg, w, call, fuel).world, n)
    ensures var o := Invoke(reg, w, call, fuel); holds(o.world, n + Firings(o.trace, key))
  {
    match call
    case FireAlarm(name, id) =>
      if name in reg { FiringAdvances(reg, w, name, id, key, holds, n, fuel); }
    case Tick(now) => FireAllAdvances(reg, w, Due(w, now), key, holds, n, fuel);
    case _ => QuietCallsFireNothing(reg, w, call, fuel);
  }

  /** A call that fires no alarms keeps what holds. */
  ghost predicate KeptByCall(reg: Registry, holds: (World, nat) -> bool, fuel: nat, w: World, n: nat, call: Call) {
    holds(w, n) && !FiresAlarms(call) ==> holds(Invoke(reg, w, call, fuel).world, n)
  }

  ghost predicate KeptByCalls(reg: Registry, holds: (World, nat) -> bool, fuel: nat, calls: seq<Call>) {
    forall w: World, n: nat, c: Call :: c in calls ==> KeptByCall(reg, holds, fuel, w, n, c)
  }

  lemma ServeFirings(reg: Registry, w: World, calls: seq<Call>, key: string, fuel: nat)
    requires calls != []
    ensures var o, s := Invoke(reg, w, calls[0], fuel), Serve(reg, w, calls, fuel);
            var rest := Serve(reg, o.world, calls[1..], fuel);
            s.world == rest.world && Firings(s.trace, key) == Firings(o.trace, key) + Firings(rest.trace, key)
  {
    var o := Invoke(reg, w, calls[0], fuel);
    FiringsConcat(o.trace, Serve(reg, o.world, calls[1..], fuel).trace, key);
  }

  /**
   * What each firing of an instance advances by one, and no other firing or call changes, counts its firings in a
   * run.
   */
  lemma {:induction false} RunAdvances(reg: Registry, w: World, calls: seq<Call>, key: string,
                                       holds: (World, nat) -> bool, n: nat, fuel: nat)
    requires holds(w, n) && AdvancedByFirings(reg, key, holds, fuel)
    requires KeptByCalls(reg, holds, fuel, calls)
    ensures var s := Serve(reg, w, calls, fuel); holds(s.world, n + Firings(s.trace, key))
    decreases |calls|
  {
    if calls != [] {
      var o := Invoke(reg, w, calls[0], fuel);
      assert KeptByCall(reg, holds, fuel, w, n, calls[0]);
      CallAdvances(reg, w, calls[0], key, holds, n, fuel);
      RunAdvances(reg, o.world, calls[1..], key, holds, n + Firings(o.trace, key), fuel);
      ServeFirings(reg, w, calls, key, fuel);
    }
  }
}
