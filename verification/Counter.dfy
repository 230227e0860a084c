/** The example counter task, run on the runtime: a start event, ten alarms two seconds apart, then a purge. */
module Counter {
  import opened Values
  import opened InstanceKey
  import opened TaskModel
  import opened TaskTrace
  import opened TickSemantics
  import opened Draining
  import opened Endings
  import opened Fuel
  import opened Programs
  import opened ReadYourWrites

  const NAME := "counter"
  const PERIOD: nat := 2000
  const GOAL := 10

  // ----- Declaration -----

  function State(count: int): Json { JObject(map["count" := JNumber(count)]) }

  const START := JObject(map["_tag" := JString("Start")])

  /** The state schema: a struct with a numeric count; unknown fields are dropped. */
  function CheckState(v: Json): Option<Json> {
    if v.JObject? && "count" in v.fields && v.fields["count"].JNumber? then Some(State(v.fields["count"].n)) else None
  }

  function CheckEvent(v: Json): Option<Json> {
    if v.JObject? && "_tag" in v.fields && v.fields["_tag"] == JString("Start") then Some(START) else None
  }

  // ----- Handlers -----

  /** Sequencing in the handler: a failed operation ends it with that failure. */
  function Then(k: Json -> Prog): Result -> Prog {
    (r: Result) =>
      match r
      case Value(v) => k(v)
      case Failure(e) => Raise(e)
      case Halt(_) => Die
  }

  const SCHEDULE := Do(ScheduleIn(PERIOD), Then(_ => Done))

  const ON_EVENT := Do(Save(State(0)), Then(_ => SCHEDULE))

  function CountOf(v: Json): int {
    if v.JObject? && "count" in v.fields && v.fields["count"].JNumber? then v.fields["count"].n else 0
  }

  function AfterSave(count: int): Prog {
    if count >= GOAL then Raise(PurgeSignal) else SCHEDULE
  }

  function Continue(count: int): Json -> Prog { _ => AfterSave(count) }

  function AfterRecall(v: Json): Prog {
    Do(Save(State(CountOf(v) + 1)), Then(Continue(CountOf(v) + 1)))
  }

  const ON_ALARM := Do(Recall, Then(v => AfterRecall(v)))

  const HOOKS := Hooks(
    Codec(CheckEvent, CheckState, CheckState),
    (ctx: Ctx, event: Json) => ON_EVENT,
    Some((ctx: Ctx, e: Err) => Done),
    (ctx: Ctx) => ON_ALARM,
    Some((ctx: Ctx, e: Err) => Done))

  const REGISTRY: Registry := map[NAME := HOOKS]

  /** Enough for either handler to finish. */
  const FUEL: nat := 4

  // ----- What the handlers do to their instance -----

  function Counting(count: int, ts: int, failure: Option<SystemFailure>): Snapshot {
    Snapshot(map["t:state" := State(count), "t:alarm" := JNumber(ts)], Some(ts), failure)
  }

  /** The count an alarm handler finds. */
  function Found(i: Snapshot): int { CountOf(Read(i, STATE_KEY)) }

  predicate Resting(i: Snapshot) {
    || (i.storage == map[] && i.alarm == None)
    || (i.alarm.Some? && 0 <= Found(i) < 10 && i == Counting(Found(i), i.alarm.value, i.failure))
  }

  lemma ScheduleRuns(w: World, ctx: Ctx, fuel: nat)
    requires ctx.name == NAME && fuel >= 2
    ensures var o := Run(REGISTRY, w, ctx, SCHEDULE, fuel);
            && o.result == Value(JNull)
            && o.trace == [SetAlarm(ctx.Instance(), w.clock + PERIOD)]
            && o.world == Apply(w, SetAlarm(ctx.Instance(), w.clock + PERIOD))
  {
    LocalRuns(REGISTRY, w, ctx, ScheduleIn(PERIOD), SCHEDULE.k, fuel);
    assert SCHEDULE.k(Value(JNull)) == Done;
  }

  lemma SaveRuns(w: World, ctx: Ctx, count: int, k: Json -> Prog, fuel: nat)
    requires ctx.name == NAME && fuel >= 1
    ensures var put := PutState(ctx.Instance(), State(count), State(count));
            Run(REGISTRY, w, ctx, Do(Save(State(count)), Then(k)), fuel)
            == After([put], Run(REGISTRY, Apply(w, put), ctx, k(JNull), fuel - 1))
  {
    LocalRuns(REGISTRY, w, ctx, Save(State(count)), Then(k), fuel);
    assert CheckState(State(count)) == Some(State(count));
  }

  lemma EventRuns(w: World, ctx: Ctx, fuel: nat)
    requires ctx.name == NAME && fuel >= FUEL
    ensures var o := Run(REGISTRY, w, ctx, ON_EVENT, fuel);
            && o.result == Value(JNull)
            && o.world == Apply(Apply(w, PutState(ctx.Instance(), State(0), State(0))),
                                SetAlarm(ctx.Instance(), w.clock + PERIOD))
  {
    SaveRuns(w, ctx, 0, _ => SCHEDULE, fuel);
    ScheduleRuns(Apply(w, PutState(ctx.Instance(), State(0), State(0))), ctx, fuel - 1);
  }

  predicate Countable(i: Snapshot) {
    STATE_KEY in i.storage ==> i.storage[STATE_KEY] == State(CountOf(i.storage[STATE_KEY]))
  }

  lemma RecallRuns(w: World, ctx: Ctx, fuel: nat) returns (v: Json)
    requires ctx.name == NAME && fuel >= 1 && Countable(At(w, ctx.Instance()))
    ensures CountOf(v) == Found(At(w, ctx.Instance()))
    ensures Run(REGISTRY, w, ctx, ON_ALARM, fuel) == Run(REGISTRY, w, ctx, AfterRecall(v), fuel - 1)
  {
    var a := Local(HOOKS.codec, w, ctx.Instance(), Recall);
    assert a.result.Value? && CountOf(a.result.v) == Found(At(w, ctx.Instance()));
    v := a.result.v;
    LocalRuns(REGISTRY, w, ctx, Recall, ON_ALARM.k, fuel);
    assert ON_ALARM.k(a.result) == AfterRecall(v);
    var rest := Run(REGISTRY, w, ctx, AfterRecall(v), fuel - 1);
    assert After([], rest) == rest;
  }

  /** How an alarm handler that has just saved count n ends. */
  predicate EndsAt(o: Outcome, saved: World, key: string, n: int) {
    if n < GOAL then o.result == Value(JNull) && o.world == Apply(saved, SetAlarm(key, saved.clock + PERIOD))
    else o.result == Failure(PurgeSignal) && o.world == saved
  }

  lemma AfterSaveRuns(saved: World, ctx: Ctx, n: int, fuel: nat)
    requires ctx.name == NAME && fuel >= 2
    ensures EndsAt(Run(REGISTRY, saved, ctx, AfterSave(n), fuel), saved, ctx.Instance(), n)
  {
    if n < GOAL {
      ScheduleRuns(saved, ctx, fuel);
    }
  }

  lemma AlarmHandlerRuns(w: World, ctx: Ctx, fuel: nat)
    requires ctx.name == NAME && fuel >= FUEL && Countable(At(w, ctx.Instance()))
    ensures var n := Found(At(w, ctx.Instance())) + 1;
            EndsAt(Run(REGISTRY, w, ctx, ON_ALARM, fuel),
                   Apply(w, PutState(ctx.Instance(), State(n), State(n))), ctx.Instance(), n)
  {
    var v := RecallRuns(w, ctx, fuel);
    RecalledSaves(w, ctx, v, Found(At(w, ctx.Instance())) + 1, fuel - 1);
  }

  lemma RecalledSaves(w: World, ctx: Ctx, v: Json, n: int, fuel: nat)
    requires ctx.name == NAME && fuel >= 3 && n == CountOf(v) + 1
    ensures EndsAt(Run(REGISTRY, w, ctx, AfterRecall(v), fuel),
                   Apply(w, PutState(ctx.Instance(), State(n), State(n))), ctx.Instance(), n)
  {
    SaveRuns(w, ctx, n, Continue(n), fuel);
    AfterSaveRuns(Apply(w, PutState(ctx.Instance(), State(n), State(n))), ctx, n, fuel - 1);
  }

  /** The table after the alarm handler: count saved, then rescheduled or purged. */
  function Handled(w: World, key: string): World {
    var n := Found(At(w, key)) + 1;
    Closed(Apply(w, PutState(key, State(n), State(n))), key, n)
  }

  function Closed(saved: World, key: string, n: int): World {
    Apply(saved, if n < GOAL then SetAlarm(key, saved.clock + PERIOD) else Wipe(key))
  }

  lemma GuardedAlarmRuns(w: World, ctx: Ctx, fuel: nat)
    requires ctx.name == NAME && fuel >= FUEL && Countable(At(w, ctx.Instance()))
    ensures var o := Guarded(REGISTRY, w, ctx, ON_ALARM, HOOKS.onAlarmError, fuel);
            o.result == Value(JNull) && o.world == Handled(w, ctx.Instance())
  {
    var n := Found(At(w, ctx.Instance())) + 1;
    AlarmHandlerRuns(w, ctx, fuel);
    GuardedCloses(REGISTRY, w, ctx, ON_ALARM, HOOKS.onAlarmError, fuel,
                  Apply(w, PutState(ctx.Instance(), State(n), State(n))), n);
  }

  lemma GuardedCloses(reg: Registry, w: World, ctx: Ctx, p: Prog, onError: Option<(Ctx, Err) -> Prog>, fuel: nat,
                      saved: World, n: int)
    requires ctx.name in reg && EndsAt(Run(reg, w, ctx, p, fuel), saved, ctx.Instance(), n)
    ensures var g := Guarded(reg, w, ctx, p, onError, fuel);
            g.result == Value(JNull) && g.world == Closed(saved, ctx.Instance(), n)
  {
  }

  /** What a successful alarm firing makes of a resting instance. */
  function Fired(i: Snapshot, clock: int): Snapshot {
    var n := Found(i) + 1;
    if n >= 10 then BLANK else Counting(n, clock + 2000, None)
  }

  /** One firing of a resting counter succeeds and changes its own instance only, by one count or to a purged one. */
  lemma FiringCounts(w: World, id: string, fuel: nat)
    requires fuel >= FUEL && Resting(At(w, Key(NAME, id)))
    ensures var o := FireInstance(REGISTRY, w, NAME, id, fuel);
            && o.result == Value(JNull)
            && o.world.clock == w.clock
            && At(o.world, Key(NAME, id)) == Fired(At(w, Key(NAME, id)), w.clock)
            && (forall k {:trigger At(o.world, k)} :: k != Key(NAME, id) ==> At(o.world, k) == At(w, k))
  {
    FiringWorld(w, id, fuel);
    FiringSnapshot(w, Key(NAME, id));
  }

  function AfterFiring(w: World, key: string): World {
    Apply(Handled(FireWorld(w, key), key), Settle(key))
  }

  lemma FiringWorld(w: World, id: string, fuel: nat)
    requires fuel >= FUEL && Resting(At(w, Key(NAME, id)))
    ensures FireInstance(REGISTRY, w, NAME, id, fuel).result == Value(JNull)
    ensures FireInstance(REGISTRY, w, NAME, id, fuel).world == AfterFiring(w, Key(NAME, id))
  {
    var w1, ctx := FireWorld(w, Key(NAME, id)), ContextFor(w, NAME, id);
    FiringStarts(w, Key(NAME, id));
    GuardedAlarmRuns(w1, ctx, fuel);
    FiringParts(REGISTRY, w, NAME, id, fuel);
  }

  lemma FiringStarts(w: World, key: string)
    requires Resting(At(w, key))
    ensures Countable(At(FireWorld(w, key), key))
  {
  }

  /** A step changes the snapshot of its own instance only. */
  lemma AtApply(w: World, s: Step)
    requires !s.Pass?
    ensures Apply(w, s).clock == w.clock
    ensures forall k {:trigger At(Apply(w, s), k)} ::
              At(Apply(w, s), k) == if k == s.key then Change(At(w, k), s) else At(w, k)
  {
  }

  lemma FiringSnapshot(w: World, key: string)
    requires Resting(At(w, key))
    ensures var w2 := AfterFiring(w, key);
            && w2.clock == w.clock
            && At(w2, key) == Fired(At(w, key), w.clock)
            && (forall k {:trigger At(w2, k)} :: k != key ==> At(w2, k) == At(w, k))
  {
    var w0 := Apply(w, Open(key));
    var w1 := Apply(w0, Fire(key));
    AtApply(w, Open(key));
    AtApply(w0, Fire(key));
    HandledSnapshot(w1, key);
    AtApply(Handled(w1, key), Settle(key));
    FiredChanges(At(w, key), key, w.clock);
  }

  lemma HandledSnapshot(w: World, key: string)
    ensures var w2 := Handled(w, key);
            && w2.clock == w.clock
            && At(w2, key) == Counted(At(w, key), key, w.clock)
            && (forall k {:trigger At(w2, k)} :: k != key ==> At(w2, k) == At(w, k))
  {
    var n := Found(At(w, key)) + 1;
    AtApply(w, PutState(key, State(n), State(n)));
    var saved := Apply(w, PutState(key, State(n), State(n)));
    AtApply(saved, if n < GOAL then SetAlarm(key, saved.clock + PERIOD) else Wipe(key));
  }

  /** What the alarm handler makes of its instance. */
  function Counted(i: Snapshot, key: string, clock: int): Snapshot {
    var n := Found(i) + 1;
    Change(Change(i, PutState(key, State(n), State(n))), if n < GOAL then SetAlarm(key, clock + PERIOD) else Wipe(key))
  }

  lemma FiredChanges(i: Snapshot, key: string, clock: int)
    requires Resting(i)
    ensures Change(Counted(Change(i, Fire(key)), key, clock), Settle(key)) == Fired(i, clock)
  {
  }

  predicate TaggedStart(event: Json) {
    event.JObject? && "_tag" in event.fields && event.fields["_tag"] == JString("Start")
  }

  /** A start event, whatever else it holds, resets the counter to zero and sets its alarm. */
  lemma StartResets(w: World, id: string, event: Json, fuel: nat)
    requires fuel >= FUEL && TaggedStart(event)
    ensures var o := Invoke(REGISTRY, w, Send(NAME, id, event), fuel);
            && o.result == Value(JNull)
            && o.world.clock == w.clock
            && (At(w, Key(NAME, id)).storage.Keys <= {STATE_KEY, ALARM_KEY} ==>
                  At(o.world, Key(NAME, id)) == Counting(0, w.clock + 2000, None))
            && (forall k {:trigger At(o.world, k)} :: k != Key(NAME, id) ==> At(o.world, k) == At(w, k))
  {
    StartWorld(w, id, event, fuel);
    var key := Key(NAME, id);
    var w1 := Apply(w, Open(key));
    var w2 := Apply(w1, PutState(key, State(0), State(0)));
    var w3 := Apply(w2, SetAlarm(key, w.clock + PERIOD));
    AtApply(w, Open(key));
    AtApply(w1, PutState(key, State(0), State(0)));
    AtApply(w2, SetAlarm(key, w.clock + PERIOD));
    AtApply(w3, Settle(key));
  }

  lemma StartWorld(w: World, id: string, event: Json, fuel: nat)
    requires fuel >= FUEL && CheckEvent(event).Some?
    ensures var key, o := Key(NAME, id), Invoke(REGISTRY, w, Send(NAME, id, event), fuel);
            var saved := Apply(Apply(w, Open(key)), PutState(key, State(0), State(0)));
            && o.result == Value(JNull)
            && o.world == Apply(Apply(saved, SetAlarm(key, w.clock + PERIOD)), Settle(key))
  {
    var w1, ctx := Apply(w, Open(Key(NAME, id))), ContextFor(w, NAME, id);
    EventRuns(w1, ctx, fuel);
    assert HOOKS.codec.decodeEvent(event) == Some(START);
    DeliveredIs(REGISTRY, w, NAME, id, event, fuel);
  }

  /** Any event that is not tagged as a start is refused and changes nothing but to create a missing counter. */
  lemma UnfitEvent(w: World, id: string, event: Json, fuel: nat)
    requires !TaggedStart(event)
    ensures var o := Invoke(REGISTRY, w, Send(NAME, id, event), fuel);
            o.result == Failure(TaskValidationError) && o.world == Apply(w, Open(Key(NAME, id)))
  {
    DeliveredIs(REGISTRY, w, NAME, id, event, fuel);
  }

  lemma RecallFails(w: World, ctx: Ctx, fuel: nat)
    requires ctx.name == NAME && fuel >= 2 && RecallFrom(HOOKS.codec, At(w, ctx.Instance())).Failure?
    ensures var o := Run(REGISTRY, w, ctx, ON_ALARM, fuel);
            o.world == w && o.result == RecallFrom(HOOKS.codec, At(w, ctx.Instance())) && o.trace == []
  {
    var a := Local(HOOKS.codec, w, ctx.Instance(), Recall);
    LocalRuns(REGISTRY, w, ctx, Recall, ON_ALARM.k, fuel);
    assert ON_ALARM.k(a.result) == Raise(a.result.e);
  }

  lemma FailureSwallowed(w: World, ctx: Ctx, fuel: nat)
    requires ctx.name == NAME && fuel >= 2 && RecallFrom(HOOKS.codec, At(w, ctx.Instance())).Failure?
    ensures var g := Guarded(REGISTRY, w, ctx, ON_ALARM, HOOKS.onAlarmError, fuel);
            g.world == w && g.result == Value(JNull)
  {
    RecallFails(w, ctx, fuel);
    assert HOOKS.onAlarmError.Some?;
    Swallows(REGISTRY, w, ctx, ON_ALARM, HOOKS.onAlarmError.value, fuel,
             RecallFrom(HOOKS.codec, At(w, ctx.Instance())).e);
  }

  lemma Swallows(reg: Registry, w: World, ctx: Ctx, p: Prog, onError: (Ctx, Err) -> Prog, fuel: nat, e: Err)
    requires ctx.name in reg && Run(reg, w, ctx, p, fuel).result == Failure(e) && e != PurgeSignal
    requires onError(ctx, e) == Done
    ensures var g := Guarded(reg, w, ctx, p, Some(onError), fuel);
            g.result == Value(JNull) && g.world == Run(reg, w, ctx, p, fuel).world
  {
    var v := Run(reg, w, ctx, p, fuel).world;
    assert fuel > 0;
    assert Run(reg, v, ctx, onError(ctx, e), fuel) == Ends(v, Value(JNull));
    assert Routed(reg, v, ctx, e, Some(onError), fuel) == Ends(v, Value(JNull));
  }

  /** A counter whose stored state cannot be read loses its alarm: the firing succeeds and sets no other. */
  lemma UnreadableCounterStops(w: World, id: string, fuel: nat)
    requires fuel >= FUEL && "t:state" in At(w, Key(NAME, id)).storage
    requires var raw := At(w, Key(NAME, id)).storage["t:state"]; raw != JNull && CheckState(raw).None?
    ensures var i, o := At(w, Key(NAME, id)), FireInstance(REGISTRY, w, NAME, id, fuel);
            && o.result == Value(JNull)
            && At(o.world, Key(NAME, id)) == Snapshot(i.storage - {"t:alarm"}, None, None)
  {
    var w1, ctx := FireWorld(w, Key(NAME, id)), ContextFor(w, NAME, id);
    FailureSwallowed(w1, ctx, fuel);
    FiringParts(REGISTRY, w, NAME, id, fuel);
  }

  // ----- Whole runs -----

  ghost predicate AllResting(w: World) { forall key {:trigger At(w, key)} :: Resting(At(w, key)) }

  lemma FiringRests(w: World, id: string, fuel: nat)
    requires fuel >= FUEL && AllResting(w)
    ensures AllResting(FireInstance(REGISTRY, w, NAME, id, fuel).world)
    ensures FireInstance(REGISTRY, w, NAME, id, fuel).result == Value(JNull)
  {
    FiringCounts(w, id, fuel);
    var w1 := FireInstance(REGISTRY, w, NAME, id, fuel).world;
    forall key {:trigger At(w1, key)} ensures Resting(At(w1, key)) {
      assert Resting(At(w, key));
    }
  }

  lemma SendRests(w: World, id: string, event: Json, fuel: nat)
    requires fuel >= FUEL && AllResting(w)
    ensures AllResting(Invoke(REGISTRY, w, Send(NAME, id, event), fuel).world)
  {
    var w1 := Invoke(REGISTRY, w, Send(NAME, id, event), fuel).world;
    assert Resting(At(w, Key(NAME, id)));
    if CheckEvent(event).Some? {
      StartResets(w, id, event, fuel);
    } else {
      UnfitEvent(w, id, event, fuel);
    }
    forall key {:trigger At(w1, key)} ensures Resting(At(w1, key)) {
      assert Resting(At(w, key));
    }
  }

  lemma {:induction false} FireAllRests(w: World, keys: seq<string>, fuel: nat)
    requires fuel >= FUEL && AllResting(w)
    ensures AllResting(FireAll(REGISTRY, w, keys, fuel).world)
    ensures FireAll(REGISTRY, w, keys, fuel).result == Value(JNull)
    decreases |keys|
  {
    if keys != [] {
      var (name, id) := Parse(keys[0]);
      if name == NAME {
        FiringRests(w, id, fuel);
        FireAllRests(FireInstance(REGISTRY, w, NAME, id, fuel).world, keys[1..], fuel);
      } else {
        FireAllRests(w, keys[1..], fuel);
      }
    }
  }

  lemma CallRests(w: World, call: Call, fuel: nat)
    requires fuel >= FUEL && AllResting(w)
    ensures AllResting(Invoke(REGISTRY, w, call, fuel).world)
  {
    match call
    case Send(name, id, event) => if name == NAME { SendRests(w, id, event, fuel); }
    case FireAlarm(name, id) => if name == NAME { FiringRests(w, id, fuel); }
    case Tick(now) => FireAllRests(w, Due(w, now), fuel);
    case _ => QuietCallRests(w, call, fuel);
  }

  lemma QuietCallRests(w: World, call: Call, fuel: nat)
    requires AllResting(w) && (call.GetState? || call.InjectFailure? || call.Elapse?)
    ensures AllResting(Invoke(REGISTRY, w, call, fuel).world)
  {
    var w1 := Invoke(REGISTRY, w, call, fuel).world;
    forall key {:trigger At(w1, key)} ensures Resting(At(w1, key)) {
      assert Resting(At(w, key));
    }
  }

  /**
   * Between the calls of any run, whatever is sent, fired, ticked or injected, each counter is either empty with no
   * alarm, or holds a count from 0 to 9 with an alarm set.
   */
  lemma {:induction false} CountersRest(w: World, calls: seq<Call>, fuel: nat)
    requires fuel >= FUEL && AllResting(w)
    ensures AllResting(Serve(REGISTRY, w, calls, fuel).world)
    decreases |calls|
  {
    if calls != [] {
      CallRests(w, calls[0], fuel);
      CountersRest(Invoke(REGISTRY, w, calls[0], fuel).world, calls[1..], fuel);
    }
  }

  lemma CountersAlwaysRest(calls: seq<Call>, fuel: nat, key: string)
    requires fuel >= FUEL
    ensures Resting(At(Serve(REGISTRY, EMPTY, calls, fuel).world, key))
  {
    assert Resting(BLANK);
    assert AllResting(EMPTY);
    CountersRest(EMPTY, calls, fuel);
  }

  // ----- The countdown -----

  /** A counter n firings after its start: every tenth firing empties it, and the one after that starts over at 1. */
  predicate HasCounted(i: Snapshot, n: nat) {
    if n > 0 && n % 10 == 0 then i.storage == map[] && i.alarm == None
    else i.alarm.Some? && i == Counting(n % 10, i.alarm.value, i.failure)
  }

  /** Every counter is at rest, and this one has fired n times. */
  ghost predicate Counts(w: World, key: string, n: nat) {
    AllResting(w) && HasCounted(At(w, key), n)
  }

  /** The call delivers a start event to the counter stored under `key`. */
  predicate Starts(call: Call, key: string) {
    call.Send? && call.name == NAME && Key(NAME, call.id) == key && CheckEvent(call.event).Some?
  }

  lemma FiringCountsOn(w: World, other: string, key: string, n: nat, fuel: nat)
    requires fuel >= FUEL && Counts(w, key, n)
    ensures Counts(FireInstance(REGISTRY, w, NAME, other, fuel).world, key,
                   n + if Key(NAME, other) == key then 1 else 0)
  {
    assert Resting(At(w, Key(NAME, other)));
    FiringCounts(w, other, fuel);
    FiredCounts(w, FireInstance(REGISTRY, w, NAME, other, fuel).world, Key(NAME, other), key, n);
  }

  lemma FiredCounts(w: World, w1: World, fired: string, key: string, n: nat)
    requires Counts(w, key, n)
    requires At(w1, fired) == Fired(At(w, fired), w.clock)
    requires forall k {:trigger At(w1, k)} :: k != fired ==> At(w1, k) == At(w, k)
    ensures Counts(w1, key, n + if fired == key then 1 else 0)
  {
  }

  lemma OtherCallsCountNothing(w: World, call: Call, key: string, n: nat, fuel: nat)
    requires fuel >= FUEL && Counts(w, key, n) && !FiresAlarms(call) && !Starts(call, key)
    ensures Counts(Invoke(REGISTRY, w, call, fuel).world, key, n)
  {
    CallRests(w, call, fuel);
    if call.Send? && call.name == NAME {
      if CheckEvent(call.event).Some? {
        StartResets(w, call.id, call.event, fuel);
      } else {
        UnfitEvent(w, call.id, call.event, fuel);
      }
    }
  }

  lemma StartCounts(w: World, id: string, event: Json, fuel: nat)
    requires fuel >= FUEL && AllResting(w) && CheckEvent(event).Some?
    ensures Counts(Invoke(REGISTRY, w, Send(NAME, id, event), fuel).world, Key(NAME, id), 0)
  {
    assert Resting(At(w, Key(NAME, id)));
    SendRests(w, id, event, fuel);
    StartResets(w, id, event, fuel);
  }

  ghost function CountingOf(key: string): (World, nat) -> bool { (w: World, n: nat) => Counts(w, key, n) }

  lemma CountedAdvances(key: string, fuel: nat)
    requires fuel >= FUEL
    ensures AdvancedByFirings(REGISTRY, key, CountingOf(key), fuel)
  {
    forall w: World, n: nat, name: string, id: string
      ensures Advances(REGISTRY, key, CountingOf(key), fuel, w, n, name, id)
    {
      if CountingOf(key)(w, n) && name in REGISTRY {
        assert name == NAME;
        FiringCountsOn(w, id, key, n, fuel);
      }
    }
  }

  lemma Countdown(w: World, calls: seq<Call>, key: string, fuel: nat)
    requires fuel >= FUEL && Counts(w, key, 0) && forall c | c in calls :: !Starts(c, key)
    ensures var s := Serve(REGISTRY, w, calls, fuel); Counts(s.world, key, Firings(s.trace, key))
  {
    CountedAdvances(key, fuel);
    forall v: World, n: nat, c: Call | c in calls ensures KeptByCall(REGISTRY, CountingOf(key), fuel, v, n, c) {
      if CountingOf(key)(v, n) && !FiresAlarms(c) {
        OtherCallsCountNothing(v, c, key, n, fuel);
      }
    }
    RunAdvances(REGISTRY, w, calls, key, CountingOf(key), 0, fuel);
  }

  // ----- Which calls fire a counter -----

  /** The call fires the counter stored under `key`: a fire call on it, or a tick at or after its alarm. */
  predicate FiresIt(w: World, call: Call, key: string) {
    || (call.FireAlarm? && call.name == NAME && Key(NAME, call.id) == key)
    || (call.Tick? && IsDue(w, key, call.now))
  }

  lemma TickFiresIt(w: World, now: int, id: string, fuel: nat)
    requires fuel >= FUEL && Ordered(w) && AllResting(w)
    ensures Firings(Invoke(REGISTRY, w, Tick(now), fuel).trace, Key(NAME, id)) ==
            if IsDue(w, Key(NAME, id), now) then 1 else 0
  {
    var due, key := Due(w, now), Key(NAME, id);
    SnapshotOf(w, now);
    FireAllRests(w, due, fuel);
    FireAllFires(REGISTRY, w, due, fuel);
    ParseInvertsKey(NAME, id);
    RegisteredOnce(REGISTRY, due, key);
  }

  lemma CallFiresIt(w: World, call: Call, id: string, fuel: nat)
    requires fuel >= FUEL && Ordered(w) && AllResting(w)
    ensures Firings(Invoke(REGISTRY, w, call, fuel).trace, Key(NAME, id)) ==
            if FiresIt(w, call, Key(NAME, id)) then 1 else 0
  {
    match call
    case Tick(now) => TickFiresIt(w, now, id, fuel);
    case FireAlarm(name, other) => if name == NAME { OneFiring(REGISTRY, w, NAME, other, Key(NAME, id), fuel); }
    case _ => QuietCallsFireNothing(REGISTRY, w, call, fuel);
  }

  /** How many calls of a run fire the counter, each seen in the table it is made on. */
  function Occasions(w: World, calls: seq<Call>, key: string, fuel: nat): nat
    decreases |calls|
  {
    if calls == [] then 0
    else
      (if FiresIt(w, calls[0], key) then 1 else 0)
      + Occasions(Invoke(REGISTRY, w, calls[0], fuel).world, calls[1..], key, fuel)
  }

  /** Every such call fires it exactly once, and no other call does. */
  lemma {:induction false} FiringsAreOccasions(w: World, calls: seq<Call>, id: string, fuel: nat)
    requires fuel >= FUEL && Ordered(w) && AllResting(w)
    ensures Firings(Serve(REGISTRY, w, calls, fuel).trace, Key(NAME, id)) == Occasions(w, calls, Key(NAME, id), fuel)
    decreases |calls|
  {
    if calls != [] {
      var o := Invoke(REGISTRY, w, calls[0], fuel);
      CallFiresIt(w, calls[0], id, fuel);
      CallRests(w, calls[0], fuel);
      CallOrdered(w, calls[0], fuel);
      FiringsAreOccasions(o.world, calls[1..], id, fuel);
      FiringsConcat(o.trace, Serve(REGISTRY, o.world, calls[1..], fuel).trace, Key(NAME, id));
    }
  }

  lemma CallOrdered(w: World, call: Call, fuel: nat)
    requires Ordered(w)
    ensures Ordered(Invoke(REGISTRY, w, call, fuel).world)
  {
    InvokeFaithful(REGISTRY, w, call, fuel);
    ReplayOrdered(REGISTRY, w, Invoke(REGISTRY, w, call, fuel).trace);
  }

  /** The table after any run and then a start event. */
  function StartedWorld(before: seq<Call>, id: string, start: Json, fuel: nat): World {
    Invoke(REGISTRY, Serve(REGISTRY, EMPTY, before, fuel).world, Send(NAME, id, start), fuel).world
  }

  lemma StartedInRun(before: seq<Call>, id: string, start: Json, fuel: nat)
    requires fuel >= FUEL && CheckEvent(start).Some?
    ensures var w := StartedWorld(before, id, start, fuel); Counts(w, Key(NAME, id), 0) && Ordered(w)
  {
    var w := Serve(REGISTRY, EMPTY, before, fuel).world;
    assert Resting(BLANK) && AllResting(EMPTY);
    CountersRest(EMPTY, before, fuel);
    ReachableOrdered(REGISTRY, before, fuel);
    CallOrdered(w, Send(NAME, id, start), fuel);
    StartCounts(w, id, start, fuel);
  }

  /**
   * Take any run, then a start event for one counter, then any run without another start of it: fire calls, ticks,
   * injected failures and calls on other counters in any order. The counter fires exactly at each fire call on it and
   * at each tick at or after its alarm. After n of those it holds n modulo ten, and it is empty after every tenth.
   */
  lemma TenFiringsEndIt(before: seq<Call>, id: string, start: Json, after: seq<Call>, fuel: nat)
    requires fuel >= FUEL && CheckEvent(start).Some? && forall c | c in after :: !Starts(c, Key(NAME, id))
    ensures var key, w := Key(NAME, id), StartedWorld(before, id, start, fuel);
            var s, n := Serve(REGISTRY, w, after, fuel), Occasions(w, after, key, fuel);
            n == Firings(s.trace, key) && HasCounted(At(s.world, key), n)
  {
    var w := StartedWorld(before, id, start, fuel);
    StartedInRun(before, id, start, fuel);
    Countdown(w, after, Key(NAME, id), fuel);
    FiringsAreOccasions(w, after, id, fuel);
  }

  /** Ten ticks in a row, each at or after the alarm of that moment, purge the counter. */
  lemma TenTicksPurge(before: seq<Call>, id: string, start: Json, nows: seq<int>, fuel: nat)
    requires fuel >= FUEL && CheckEvent(start).Some? && |nows| == 10
    requires TicksInTime(StartedWorld(before, id, start, fuel), Key(NAME, id), nows, fuel)
    ensures var s := Serve(REGISTRY, StartedWorld(before, id, start, fuel), TicksAt(nows), fuel);
            var i := At(s.world, Key(NAME, id));
            i.storage == map[] && i.alarm == None
  {
    AllOccasions(StartedWorld(before, id, start, fuel), Key(NAME, id), nows, fuel);
    TenFiringsEndIt(before, id, start, TicksAt(nows), fuel);
  }

  function TicksAt(nows: seq<int>): (calls: seq<Call>)
    ensures |calls| == |nows| && forall c | c in calls :: c.Tick?
  {
    if nows == [] then [] else [Tick(nows[0])] + TicksAt(nows[1..])
  }

  predicate TicksInTime(w: World, key: string, nows: seq<int>, fuel: nat)
    decreases |nows|
  {
    nows == [] || (At(w, key).alarm.Some? && At(w, key).alarm.value <= nows[0]
      && TicksInTime(Invoke(REGISTRY, w, Tick(nows[0]), fuel).world, key, nows[1..], fuel))
  }

  lemma {:induction false} AllOccasions(w: World, key: string, nows: seq<int>, fuel: nat)
    requires TicksInTime(w, key, nows, fuel)
    ensures Occasions(w, TicksAt(nows), key, fuel) == |nows|
    decreases |nows|
  {
    if nows != [] {
      assert TicksAt(nows)[1..] == TicksAt(nows[1..]);
      AllOccasions(Invoke(REGISTRY, w, Tick(nows[0]), fuel).world, key, nows[1..], fuel);
    }
  }

  // ----- What the counter's programs keep to -----

  /** The operations the counter's handlers use. */
  ghost predicate AllowsCounting(allowed: (string, Op) -> bool) {
    allowed(NAME, Recall) && allowed(NAME, ScheduleIn(PERIOD)) && forall n: int :: allowed(NAME, Save(State(n)))
  }

  lemma ThenOnly(k: Json -> Prog, allowed: (string, Op) -> bool, steps: nat)
    requires forall v: Json :: Only(k(v), NAME, allowed, steps)
    ensures forall r: Result :: Only(Then(k)(r), NAME, allowed, steps)
  {
    forall r: Result ensures Only(Then(k)(r), NAME, allowed, steps) {
      if r.Value? {
        assert Then(k)(r) == k(r.v);
      }
    }
  }

  lemma ScheduleOnly(allowed: (string, Op) -> bool, steps: nat)
    requires AllowsCounting(allowed)
    ensures Only(SCHEDULE, NAME, allowed, steps)
  {
    if steps > 0 {
      ThenOnly(_ => Done, allowed, steps - 1);
    }
  }

  lemma EventOnly(allowed: (string, Op) -> bool, steps: nat)
    requires AllowsCounting(allowed)
    ensures Only(ON_EVENT, NAME, allowed, steps)
  {
    if steps > 0 {
      ScheduleOnly(allowed, steps - 1);
      ThenOnly(_ => SCHEDULE, allowed, steps - 1);
    }
  }

  lemma AfterRecallOnly(v: Json, allowed: (string, Op) -> bool, steps: nat)
    requires AllowsCounting(allowed)
    ensures Only(AfterRecall(v), NAME, allowed, steps)
  {
    if steps > 0 {
      ScheduleOnly(allowed, steps - 1);
      ThenOnly(Continue(CountOf(v) + 1), allowed, steps - 1);
    }
  }

  lemma AlarmOnly(allowed: (string, Op) -> bool, steps: nat)
    requires AllowsCounting(allowed)
    ensures Only(ON_ALARM, NAME, allowed, steps)
  {
    if steps > 0 {
      forall v: Json ensures Only(AfterRecall(v), NAME, allowed, steps - 1) {
        AfterRecallOnly(v, allowed, steps - 1);
      }
      ThenOnly(v => AfterRecall(v), allowed, steps - 1);
    }
  }

  lemma CountersOnly(allowed: (string, Op) -> bool, steps: nat)
    requires AllowsCounting(allowed)
    ensures TasksOnly(REGISTRY, allowed, steps)
  {
    EventOnly(allowed, steps);
    AlarmOnly(allowed, steps);
    assert HooksOnly(HOOKS, NAME, allowed, steps);
  }

  /** Whatever was sent to the counters, ticks at the present time leave none of them due. */
  lemma CountersDrain(calls: seq<Call>, now: int, n: nat, fuel: nat)
    requires var w := Serve(REGISTRY, EMPTY, calls, fuel).world; w.clock >= now && |DueSet(w, now)| <= n
    ensures DueSet(Serve(REGISTRY, Serve(REGISTRY, EMPTY, calls, fuel).world, Ticks(now, n), fuel).world, now) == {}
  {
    CountersOnly(LateOps(now), fuel);
    LateTasksDrain(REGISTRY, calls, now, n, fuel);
  }

  /**
   * The count last saved is what everyone reads, at every moment of every run, although the state schema drops unknown
   * fields and so loses something of other states.
   */
  lemma EveryoneReadsTheCount(calls: seq<Call>, fuel: nat, moment: nat, id: string)
    requires moment <= |Serve(REGISTRY, EMPTY, calls, fuel).trace|
    ensures var t := Serve(REGISTRY, EMPTY, calls, fuel).trace[..moment];
            var w, state := Replay(EMPTY, t), OrNull(LastSaved(t, Key(NAME, id)));
            EveryoneReads(REGISTRY, w, NAME, id, state)
  {
    forall n: int ensures LawfulSaves(REGISTRY)(NAME, Save(State(n))) {
      CountRoundTrips(n);
    }
    CountersOnly(LawfulSaves(REGISTRY), fuel);
    LawfulTasksReadBack(REGISTRY, calls, fuel, moment, NAME, id);
  }

  lemma CountRoundTrips(n: int)
    ensures RoundTrips(HOOKS.codec, State(n))
  {
    assert CheckState(State(n)) == Some(State(n));
  }

  /** The law does not hold of every state that encodes. */
  lemma OtherStatesLoseFields()
    ensures exists s: Json :: HOOKS.codec.encodeState(s).Some? && !RoundTrips(HOOKS.codec, s)
  {
    var s := JObject(map["count" := JNumber(1), "x" := JNull]);
    assert HOOKS.codec.encodeState(s) == Some(State(1)) && HOOKS.codec.decodeState(State(1)) == Some(State(1));
    assert "x" in s.fields && "x" !in State(1).fields;
    assert s != State(1);
    assert !RoundTrips(HOOKS.codec, s);
  }

  // ----- Every call on counters ends -----

  function NoRank(): string -> nat { (name: string) => 0 }

  lemma ThenBounded(k: Json -> Prog, depth: nat)
    requires forall v: Json :: Bounded(REGISTRY, k(v), 0, NoRank(), depth)
    ensures forall r: Result :: Bounded(REGISTRY, Then(k)(r), 0, NoRank(), depth)
  {
    forall r: Result ensures Bounded(REGISTRY, Then(k)(r), 0, NoRank(), depth) {
      if r.Value? {
        assert Then(k)(r) == k(r.v);
      }
    }
  }

  lemma ScheduleBounded(depth: nat)
    requires depth >= 1
    ensures Bounded(REGISTRY, SCHEDULE, 0, NoRank(), depth)
  {
    ThenBounded(_ => Done, depth - 1);
  }

  lemma EventBounded(depth: nat)
    requires depth >= 2
    ensures Bounded(REGISTRY, ON_EVENT, 0, NoRank(), depth)
  {
    ScheduleBounded(depth - 1);
    ThenBounded(_ => SCHEDULE, depth - 1);
  }

  lemma AlarmBounded(depth: nat)
    requires depth >= 3
    ensures Bounded(REGISTRY, ON_ALARM, 0, NoRank(), depth)
  {
    forall v: Json ensures Bounded(REGISTRY, AfterRecall(v), 0, NoRank(), depth - 1) {
      ScheduleBounded(depth - 2);
      ThenBounded(Continue(CountOf(v) + 1), depth - 2);
    }
    ThenBounded(v => AfterRecall(v), depth - 1);
  }

  /** Every call of every run on counters ends with fuel 4, and more fuel changes nothing. */
  lemma CountersEnd(calls: seq<Call>, fuel: nat)
    requires fuel >= FUEL
    ensures AllEnd(REGISTRY, EMPTY, calls, fuel)
    ensures Serve(REGISTRY, EMPTY, calls, fuel) == Serve(REGISTRY, EMPTY, calls, FUEL)
  {
    EventBounded(3);
    AlarmBounded(3);
    assert BoundedHooks(REGISTRY, HOOKS, 0, NoRank(), 3);
    assert Enough(3, 0) == FUEL;
    BoundedRunsEnd(REGISTRY, EMPTY, calls, NoRank(), 3, 0, fuel);
  }
}
