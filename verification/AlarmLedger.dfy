/** Bookkeeping over a trace: what became of each alarm that was ever set. */
module AlarmLedger {
  import opened Values
  import opened InstanceKey
  import opened TaskModel
  import opened TaskTrace

  datatype Alarm = Alarm(key: string, ts: int)

  datatype Fate = Overwritten | Cancelled | Purged | Consumed(firing: nat)

  datatype Firing = Firing(key: string, took: Option<nat>)

  /** Alarms are numbered in the order they were set, firings in the order they happened. */
  datatype Ledger = Ledger(alarms: seq<Alarm>, firings: seq<Firing>, pending: map<string, nat>, fates: map<nat, Fate>)

  const NEW := Ledger([], [], map[], map[])

  function Retire(l: Ledger, key: string, fate: Fate): Ledger {
    if key in l.pending then l.(pending := l.pending - {key}, fates := l.fates[l.pending[key] := fate]) else l
  }

  function Enter(l: Ledger, s: Step): Ledger {
    match s
    case SetAlarm(key, ts) =>
      var l1 := Retire(l, key, Overwritten);
      l1.(alarms := l1.alarms + [Alarm(key, ts)], pending := l1.pending[key := |l1.alarms|])
    case ClearAlarm(key) => Retire(l, key, Cancelled)
    case Wipe(key) => Retire(l, key, Purged)
    case Fire(key) =>
      var took := if key in l.pending then Some(l.pending[key]) else None;
      Retire(l, key, Consumed(|l.firings|)).(firings := l.firings + [Firing(key, took)])
    case _ => l
  }

  function Book(l: Ledger, t: seq<Step>): Ledger
    decreases |t|
  {
    if t == [] then l else Book(Enter(l, t[0]), t[1..])
  }

  /** Alarm n is the one its instance is still waiting for. */
  predicate Pending(l: Ledger, n: nat) {
    n < |l.alarms| && l.alarms[n].key in l.pending && l.pending[l.alarms[n].key] == n
  }

  predicate KeyBalanced(l: Ledger, key: string) {
    key in l.pending ==> l.pending[key] < |l.alarms| && l.alarms[l.pending[key]].key == key
  }

  /** Every alarm that was set is pending or has a fate, and never both. */
  predicate NumberBalanced(l: Ledger, n: nat) {
    n in l.fates <==> n < |l.alarms| && !Pending(l, n)
  }

  /** An alarm consumed by a firing is the one that firing took, and it was set on the instance that fired. */
  predicate FateBalanced(l: Ledger, n: nat) {
    n in l.fates && l.fates[n].Consumed? ==>
      && n < |l.alarms|
      && l.fates[n].firing < |l.firings|
      && l.firings[l.fates[n].firing] == Firing(l.alarms[n].key, Some(n))
  }

  predicate FiringBalanced(l: Ledger, i: nat) {
    i < |l.firings| && l.firings[i].took.Some? ==>
      l.firings[i].took.value in l.fates && l.fates[l.firings[i].took.value] == Consumed(i)
  }

  ghost predicate Balanced(l: Ledger) {
    && (forall key :: KeyBalanced(l, key))
    && (forall n :: NumberBalanced(l, n))
    && (forall n :: FateBalanced(l, n))
    && (forall i :: FiringBalanced(l, i))
    && |l.alarms| == |l.pending| + |l.fates|
  }

  predicate TracksAt(l: Ledger, w: World, key: string) {
    if key in l.pending
    then l.pending[key] < |l.alarms| && At(w, key).alarm == Some(l.alarms[l.pending[key]].ts)
    else At(w, key).alarm == None
  }

  /** The ledger's pending alarms are exactly the alarm slots of the table. */
  ghost predicate Tracks(l: Ledger, w: World) {
    forall key :: TracksAt(l, w, key)
  }

  lemma RetireBalanced(l: Ledger, key: string, fate: Fate)
    requires Balanced(l) && !fate.Consumed?
    ensures Balanced(Retire(l, key, fate))
  {
    if key in l.pending {
      var n, l1 := l.pending[key], Retire(l, key, fate);
      RetireCounts(l, key, fate);
      assert NumberBalanced(l, n) && KeyBalanced(l, key);
      forall k ensures KeyBalanced(l1, k) { assert KeyBalanced(l, k); }
      forall m ensures NumberBalanced(l1, m) && FateBalanced(l1, m) {
        assert NumberBalanced(l, m) && FateBalanced(l, m);
      }
      forall i ensures FiringBalanced(l1, i) { assert FiringBalanced(l, i); }
    }
  }

  lemma RetireCounts(l: Ledger, key: string, fate: Fate)
    requires Balanced(l)
    ensures var l1 := Retire(l, key, fate); |l1.pending| + |l1.fates| == |l.alarms|
  {
    if key in l.pending {
      var n, l1 := l.pending[key], Retire(l, key, fate);
      assert NumberBalanced(l, n) && KeyBalanced(l, key);
      assert l.pending.Keys == l1.pending.Keys + {key};
      assert l1.fates.Keys == l.fates.Keys + {n};
      assert |l1.pending.Keys| + 1 == |l.pending.Keys|;
      assert |l1.fates.Keys| == |l.fates.Keys| + 1;
    }
  }

  lemma SetBalanced(l: Ledger, key: string, ts: int)
    requires Balanced(l) && key !in l.pending
    ensures Balanced(Enter(l, SetAlarm(key, ts)))
  {
    var l1 := Enter(l, SetAlarm(key, ts));
    assert l1.pending.Keys == l.pending.Keys + {key};
    assert |l1.pending.Keys| == |l.pending.Keys| + 1;
    forall k ensures KeyBalanced(l1, k) { assert KeyBalanced(l, k); }
    forall m ensures NumberBalanced(l1, m) && FateBalanced(l1, m) {
      assert NumberBalanced(l, m) && FateBalanced(l, m);
      if Pending(l, m) {
        assert Pending(l1, m);
      }
    }
    forall i ensures FiringBalanced(l1, i) { assert FiringBalanced(l, i); }
  }

  lemma OverwriteBalanced(l: Ledger, key: string, ts: int)
    requires Balanced(l)
    ensures Balanced(Enter(l, SetAlarm(key, ts)))
  {
    var l1 := Retire(l, key, Overwritten);
    RetireBalanced(l, key, Overwritten);
    SetBalanced(l1, key, ts);
    assert Enter(l, SetAlarm(key, ts)) == Enter(l1, SetAlarm(key, ts));
  }

  lemma FireBalanced(l: Ledger, key: string)
    requires Balanced(l)
    ensures Balanced(Enter(l, Fire(key)))
  {
    var l1 := Enter(l, Fire(key));
    RetireCounts(l, key, Consumed(|l.firings|));
    assert KeyBalanced(l, key);
    assert key in l.pending ==> NumberBalanced(l, l.pending[key]);
    forall k ensures KeyBalanced(l1, k) { assert KeyBalanced(l, k); }
    forall m ensures NumberBalanced(l1, m) && FateBalanced(l1, m) {
      assert NumberBalanced(l, m) && FateBalanced(l, m);
    }
    forall i ensures FiringBalanced(l1, i) { assert FiringBalanced(l, i); }
  }

  lemma EnterBalanced(l: Ledger, s: Step)
    requires Balanced(l)
    ensures Balanced(Enter(l, s))
  {
    if s.SetAlarm? {
      OverwriteBalanced(l, s.key, s.ts);
    } else if s.Fire? {
      FireBalanced(l, s.key);
    } else if s.ClearAlarm? || s.Wipe? {
      RetireBalanced(l, s.key, if s.Wipe? then Purged else Cancelled);
    } else {
      assert Enter(l, s) == l;
    }
  }

  lemma EnterTracksAt(l: Ledger, w: World, s: Step, key: string)
    requires TracksAt(l, w, key)
    ensures TracksAt(Enter(l, s), Apply(w, s), key)
  {
  }

  lemma EnterTracks(l: Ledger, w: World, s: Step)
    requires Tracks(l, w)
    ensures Tracks(Enter(l, s), Apply(w, s))
  {
    forall key ensures TracksAt(Enter(l, s), Apply(w, s), key) {
      assert TracksAt(l, w, key);
      EnterTracksAt(l, w, s, key);
    }
  }

  lemma {:induction false} BookKeeps(l: Ledger, w: World, t: seq<Step>)
    requires Balanced(l) && Tracks(l, w)
    ensures Balanced(Book(l, t)) && Tracks(Book(l, t), Replay(w, t))
    decreases |t|
  {
    if t != [] {
      EnterBalanced(l, t[0]);
      EnterTracks(l, w, t[0]);
      BookKeeps(Enter(l, t[0]), Apply(w, t[0]), t[1..]);
    }
  }

  lemma FateSurvives(l: Ledger, s: Step, n: nat)
    requires Balanced(l) && n in l.fates
    ensures n in Enter(l, s).fates && Enter(l, s).fates[n] == l.fates[n]
  {
    assert NumberBalanced(l, n);
    if !s.Pass? {
      assert KeyBalanced(l, s.key);
    }
  }

  /** Once an alarm has met its fate, no later step of the run gives it another. */
  lemma {:induction false} FatesAreFinal(l: Ledger, t: seq<Step>, n: nat)
    requires Balanced(l) && n in l.fates
    ensures n in Book(l, t).fates && Book(l, t).fates[n] == l.fates[n]
    decreases |t|
  {
    if t != [] {
      EnterBalanced(l, t[0]);
      FateSurvives(l, t[0], n);
      assert n in Enter(l, t[0]).fates && Enter(l, t[0]).fates[n] == l.fates[n];
      FatesAreFinal(Enter(l, t[0]), t[1..], n);
    }
  }

  /** The alarms a trace sets, in order. */
  function AlarmsSet(t: seq<Step>): seq<Alarm> {
    if t == [] then []
    else (if t[0].SetAlarm? then [Alarm(t[0].key, t[0].ts)] else []) + AlarmsSet(t[1..])
  }

  /** The keys a trace fires, in order. */
  function Fires(t: seq<Step>): seq<string> {
    if t == [] then [] else (if t[0].Fire? then [t[0].key] else []) + Fires(t[1..])
  }

  function Fired(l: Ledger): seq<string> {
    seq(|l.firings|, i requires 0 <= i < |l.firings| => l.firings[i].key)
  }

  lemma BookRecords(l: Ledger, t: seq<Step>)
    ensures Book(l, t).alarms == l.alarms + AlarmsSet(t)
    ensures Fired(Book(l, t)) == Fired(l) + Fires(t)
  {
    BookRecordsAlarms(l, t);
    BookRecordsFirings(l, t);
  }

  lemma {:induction false} BookRecordsAlarms(l: Ledger, t: seq<Step>)
    ensures Book(l, t).alarms == l.alarms + AlarmsSet(t)
    decreases |t|
  {
    if t != [] {
      var first := if t[0].SetAlarm? then [Alarm(t[0].key, t[0].ts)] else [];
      assert Enter(l, t[0]).alarms == l.alarms + first;
      BookRecordsAlarms(Enter(l, t[0]), t[1..]);
    }
  }

  lemma {:induction false} BookRecordsFirings(l: Ledger, t: seq<Step>)
    ensures Fired(Book(l, t)) == Fired(l) + Fires(t)
    decreases |t|
  {
    if t != [] {
      var first := if t[0].Fire? then [t[0].key] else [];
      assert Fired(Enter(l, t[0])) == Fired(l) + first;
      BookRecordsFirings(Enter(l, t[0]), t[1..]);
    }
  }

  /**
   * Over any run from the empty runtime: every alarm ever set is either still pending, in exactly the slot of the
   * instance it was set on and with the time it was set to, or has exactly one fate; a firing consumes at most one
   * alarm and only of its own instance, so no alarm is consumed twice; and the counts add up.
   */
  lemma EveryAlarmAccountedFor(reg: Registry, calls: seq<Call>, fuel: nat)
    ensures var s := Serve(reg, EMPTY, calls, fuel);
            var l := Book(NEW, s.trace);
            && l.alarms == AlarmsSet(s.trace)
            && Fired(l) == Fires(s.trace)
            && Balanced(l)
            && Tracks(l, s.world)
  {
    ServeFaithful(reg, EMPTY, calls, fuel);
    BookRecords(NEW, Serve(reg, EMPTY, calls, fuel).trace);
    BookKeeps(NEW, EMPTY, Serve(reg, EMPTY, calls, fuel).trace);
  }

  lemma FireStepConsumes(l: Ledger, w: World, key: string)
    requires Balanced(l) && Tracks(l, w) && At(w, key).alarm.Some?
    ensures var l1 := Enter(l, Fire(key));
            key in l.pending && l.pending[key] in l1.fates && l1.fates[l.pending[key]] == Consumed(|l.firings|)
  {
    assert TracksAt(l, w, key);
  }

  /**
   * A firing consumes the alarm that was pending when it began, for good, whether the handler and its error handler
   * then succeed, fail, die or never finish, and whatever they schedule, cancel or purge.
   */
  lemma FiringConsumes(reg: Registry, l: Ledger, w: World, name: string, id: string, fuel: nat)
    requires name in reg && Balanced(l) && Tracks(l, w) && At(w, Key(name, id)).alarm.Some?
    ensures var key, l1 := Key(name, id), Book(l, FireInstance(reg, w, name, id, fuel).trace);
            && key in l.pending
            && l.alarms <= l1.alarms
            && l.pending[key] in l1.fates && l1.fates[l.pending[key]] == Consumed(|l.firings|)
  {
    var key, t := Key(name, id), FireInstance(reg, w, name, id, fuel).trace;
    FiringShape(reg, w, name, id, fuel);
    assert t[0] == Open(key) && t[1..][0] == Fire(key) && t[1..][1..] == t[2..];
    FireStepConsumes(l, w, key);
    EnterBalanced(l, Fire(key));
    FatesAreFinal(Enter(l, Fire(key)), t[2..], l.pending[key]);
    assert Book(l, t) == Book(l, t[1..]) == Book(Enter(l, Fire(key)), t[2..]);
    BookRecords(l, t);
  }
}
