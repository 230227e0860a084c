/**
 * The task-group runtime as a function of values: what one handler invocation, one sibling dispatch and one
 * external call do to the table of instances. A handler is any program of context operations that may branch on
 * every answer it gets, so it can catch failures, retry, loop a data-dependent number of times and nest dispatches.
 */
module TaskModel {
  import opened Values
  import opened InstanceKey

  const STATE_KEY := "t:state"
  const ALARM_KEY := "t:alarm"

  // ----- Errors and results -----

  datatype SystemFailure = SystemFailure(message: string)

  datatype Fault = NotFound(name: string) | SchemaMismatch | SiblingDispatch(cause: Err) | SiblingGetState(cause: Err)

  datatype Err =
    | PurgeSignal
    | UserError(tag: string, detail: Json)
    | SchemaError
    | TaskError(fault: Fault)
    | TaskValidationError
    | TaskExecutionError(cause: Err)

  /** A defect bypasses the error channel. OutOfFuel marks a handler that has not finished yet. */
  datatype Halted = Defect | OutOfFuel

  datatype Result = Value(v: Json) | Failure(e: Err) | Halt(why: Halted)

  // ----- Handlers -----

  datatype Op =
    | Recall
    | Save(state: Json)
    | Update(fn: Json -> Json)
    | ScheduleIn(ms: nat)
    | ScheduleAt(ts: int)
    | CancelSchedule
    | NextAlarm
    | SendTo(name: string, id: string, event: Json)
    | GetStateOf(name: string, id: string)
    | Await(ms: nat)

  /** `Raise(PurgeSignal)` is ctx.purge(). An operation that fails hands its failure to the continuation. */
  datatype Prog =
    | Done
    | Raise(e: Err)
    | Die
    | Do(op: Op, k: Result -> Prog)

  datatype Ctx = Ctx(name: string, id: string, systemFailure: Option<SystemFailure>) {
    function Instance(): string { Key(name, id) }
  }

  datatype Codec = Codec(
    decodeEvent: Json -> Option<Json>,
    decodeState: Json -> Option<Json>,
    encodeState: Json -> Option<Json>)

  datatype Hooks = Hooks(
    codec: Codec,
    onEvent: (Ctx, Json) -> Prog,
    onEventError: Option<(Ctx, Err) -> Prog>,
    onAlarm: Ctx -> Prog,
    onAlarmError: Option<(Ctx, Err) -> Prog>)

  type Registry = map<string, Hooks>

  /** Task names without the key separator: exactly the names that parsing a key recovers. */
  predicate WellNamed(reg: Registry) { forall name <- reg :: SEPARATOR !in name }

  // ----- State -----

  datatype Snapshot = Snapshot(storage: map<string, Json>, alarm: Option<int>, failure: Option<SystemFailure>)

  const BLANK := Snapshot(map[], None, None)

  /** `order` is the insertion order of the instance table, which is the order tick visits it in. */
  datatype World = World(instances: map<string, Snapshot>, order: seq<string>, clock: int)

  function At(w: World, key: string): Snapshot {
    if key in w.instances then w.instances[key] else BLANK
  }

  // ----- Steps: the atomic changes every run is made of -----

  datatype Step =
    | Open(key: string)                                                // a handler context is built: create if missing
    | Began(key: string, ctx: Ctx, event: Option<Json>)  // a handler starts, on this raw event or an alarm
    | PutState(key: string, state: Json, raw: Json)
    | SetAlarm(key: string, ts: int)
    | ClearAlarm(key: string)
    | Wipe(key: string)
    | Fire(key: string)                                                // the pending alarm is consumed by a firing
    | Settle(key: string)                                              // an external call succeeded: failure cleared
    | Inject(key: string, failure: SystemFailure)
    | Pass(ms: nat)

  function Change(i: Snapshot, s: Step): Snapshot {
    match s
    case PutState(_, _, raw) => i.(storage := i.storage[STATE_KEY := raw])
    case SetAlarm(_, ts) => i.(alarm := Some(ts), storage := i.storage[ALARM_KEY := JNumber(ts)])
    case ClearAlarm(_) => i.(alarm := None, storage := i.storage - {ALARM_KEY})
    case Wipe(_) => i.(alarm := None, storage := map[])
    case Fire(_) => i.(alarm := None, storage := i.storage - {ALARM_KEY})
    case Settle(_) => i.(failure := None)
    case Inject(_, f) => i.(failure := Some(f))
    case _ => i
  }

  /** getOrCreateInstance. */
  function Ensure(w: World, key: string): World {
    if key in w.instances then w
    else w.(instances := w.instances[key := BLANK], order := w.order + [key])
  }

  function Apply(w: World, s: Step): World {
    match s
    case Pass(ms) => w.(clock := w.clock + ms)
    case Began(_, _, _) => w
    case Open(key) => Ensure(w, key)
    case _ =>
      var w1 := Ensure(w, s.key);
      w1.(instances := w1.instances[s.key := Change(w1.instances[s.key], s)])
  }

  function Replay(w: World, trace: seq<Step>): World
    decreases |trace|
  {
    if trace == [] then w else Replay(Apply(w, trace[0]), trace[1..])
  }

  // ----- Outcomes -----

  datatype Outcome = Outcome(world: World, result: Result, trace: seq<Step>)

  function Ends(w: World, r: Result): Outcome { Outcome(w, r, []) }

  function Stepped(w: World, s: Step, r: Result): Outcome { Outcome(Apply(w, s), r, [s]) }

  function After(trace: seq<Step>, o: Outcome): Outcome { o.(trace := trace + o.trace) }

  // ----- Context operations on the instance itself -----

  /** storage.get turns an absent cell into null. */
  function Read(i: Snapshot, cell: string): Json {
    if cell in i.storage then i.storage[cell] else JNull
  }

  function RecallFrom(codec: Codec, i: Snapshot): Result {
    var raw := Read(i, STATE_KEY);
    if raw == JNull then Value(JNull)
    else
      match codec.decodeState(raw)
      case None => Failure(TaskError(SchemaMismatch))
      case Some(s) => Value(s)
  }

  function NextAlarmFrom(i: Snapshot): Option<int> {
    match Read(i, ALARM_KEY)
    case JNumber(n) => Some(n)
    case _ => None
  }

  function Nullable(t: Option<int>): Json {
    if t.Some? then JNumber(t.value) else JNull
  }

  function SaveTo(codec: Codec, w: World, key: string, s: Json): Outcome {
    match codec.encodeState(s)
    case None => Ends(w, Failure(TaskError(SchemaMismatch)))
    case Some(raw) => Stepped(w, PutState(key, s, raw), Value(JNull))
  }

  function Local(codec: Codec, w: World, key: string, op: Op): Outcome
    requires !op.SendTo? && !op.GetStateOf?
  {
    match op
    case Recall => Ends(w, RecallFrom(codec, At(w, key)))
    case Save(s) => SaveTo(codec, w, key, s)
    case Update(fn) =>
      (match RecallFrom(codec, At(w, key))
       case Value(s) => if s == JNull then Ends(w, Value(JNull)) else SaveTo(codec, w, key, fn(s))
       case r => Ends(w, r))
    case ScheduleIn(ms) => Stepped(w, SetAlarm(key, w.clock + ms), Value(JNull))
    case ScheduleAt(ts) => Stepped(w, SetAlarm(key, ts), Value(JNull))
    case CancelSchedule => Stepped(w, ClearAlarm(key), Value(JNull))
    case NextAlarm => Ends(w, Value(Nullable(NextAlarmFrom(At(w, key)))))
    case Await(ms) => Stepped(w, Pass(ms), Value(JNumber(w.clock + ms)))
  }

  // ----- Reading an instance's state from outside -----

  /** handleGetState: decode what is stored, then encode it again for the wire. */
  function HandleGetState(codec: Codec, i: Snapshot): Result {
    match RecallFrom(codec, i)
    case Failure(e) => Failure(TaskExecutionError(e))
    case Halt(h) => Halt(h)
    case Value(s) =>
      if s == JNull then Value(JNull)
      else
        match codec.encodeState(s)
        case None => Failure(TaskExecutionError(SchemaError))
        case Some(raw) => Value(raw)
  }

  /** Decodes what came over the wire; `unreadable` is how the reader reports a schema failure. */
  function Receive(codec: Codec, wire: Result, unreadable: Err): Result {
    if !wire.Value? || wire.v == JNull then wire
    else
      match codec.decodeState(wire.v)
      case None => Failure(unreadable)
      case Some(s) => Value(s)
  }

  function SiblingState(reg: Registry, w: World, name: string, id: string): Outcome {
    if name !in reg then Ends(w, Failure(TaskError(NotFound(name))))
    else
      var w1 := Apply(w, Open(Key(name, id)));
      var wire := match HandleGetState(reg[name].codec, At(w1, Key(name, id)))
                  case Failure(e) => Failure(TaskError(SiblingGetState(e)))
                  case r => r;
      Outcome(w1, Receive(reg[name].codec, wire, TaskError(SchemaMismatch)), [Open(Key(name, id))])
  }

  // ----- Running handlers -----

  function Run(reg: Registry, w: World, ctx: Ctx, p: Prog, fuel: nat): Outcome
    requires ctx.name in reg
    decreases fuel, 0
  {
    if fuel == 0 then Ends(w, Halt(OutOfFuel))
    else
      match p
      case Done => Ends(w, Value(JNull))
      case Raise(e) => Ends(w, Failure(e))
      case Die => Ends(w, Halt(Defect))
      case Do(op, k) => Continued(reg, w, ctx, op, k, fuel - 1)
  }

  /** An operation and the rest of the program after its answer. */
  function Continued(reg: Registry, w: World, ctx: Ctx, op: Op, k: Result -> Prog, fuel: nat): Outcome
    requires ctx.name in reg
    decreases fuel, 7
  {
    var a := Perform(reg, w, ctx, op, fuel);
    if a.result.Halt? then a else After(a.trace, Run(reg, a.world, ctx, k(a.result), fuel))
  }

  function Perform(reg: Registry, w: World, ctx: Ctx, op: Op, fuel: nat): Outcome
    requires ctx.name in reg
    decreases fuel, 6
  {
    match op
    case SendTo(name, id, event) => Dispatch(reg, w, name, id, event, fuel)
    case GetStateOf(name, id) => SiblingState(reg, w, name, id)
    case _ => Local(reg[ctx.name].codec, w, ctx.Instance(), op)
  }

  function Dispatch(reg: Registry, w: World, name: string, id: string, event: Json, fuel: nat): Outcome
    decreases fuel, 5
  {
    if name !in reg then Ends(w, Failure(TaskError(NotFound(name))))
    else
      var o := HandleEvent(reg, w, name, id, event, fuel);
      if o.result.Failure? then o.(result := Failure(TaskError(SiblingDispatch(o.result.e)))) else o
  }

  function ContextFor(w: World, name: string, id: string): Ctx {
    Ctx(name, id, At(w, Key(name, id)).failure)
  }

  /** makeHandlerContext followed by handleEvent. */
  function HandleEvent(reg: Registry, w: World, name: string, id: string, raw: Json, fuel: nat): Outcome
    requires name in reg
    decreases fuel, 4
  {
    After([Open(Key(name, id))],
          EventBody(reg, Apply(w, Open(Key(name, id))), ContextFor(w, name, id), raw, fuel))
  }

  /** handleEvent on a context that is already built. */
  function EventBody(reg: Registry, w: World, ctx: Ctx, raw: Json, fuel: nat): Outcome
    requires ctx.name in reg
    decreases fuel, 3
  {
    match reg[ctx.name].codec.decodeEvent(raw)
    case None => Ends(w, Failure(TaskValidationError))
    case Some(event) =>
      After([Began(ctx.Instance(), ctx, Some(raw))],
            Guarded(reg, w, ctx, reg[ctx.name].onEvent(ctx, event), reg[ctx.name].onEventError, fuel))
  }

  /** Runs a hook, and handleError on its failure. */
  function Guarded(reg: Registry, w: World, ctx: Ctx, p: Prog, onError: Option<(Ctx, Err) -> Prog>, fuel: nat): Outcome
    requires ctx.name in reg
    decreases fuel, 2
  {
    var o := Run(reg, w, ctx, p, fuel);
    if !o.result.Failure? then o
    else After(o.trace, Routed(reg, o.world, ctx, o.result.e, onError, fuel))
  }

  /** handleError: a purge cleans up, a missing error handler passes the error on, and its own errors are routed too. */
  function Routed(reg: Registry, w: World, ctx: Ctx, e: Err, onError: Option<(Ctx, Err) -> Prog>, fuel: nat): Outcome
    requires ctx.name in reg
    decreases fuel, 1
  {
    if e == PurgeSignal then Cleanup(w, ctx)
    else if onError.None? then Ends(w, Failure(TaskExecutionError(e)))
    else
      var h := Run(reg, w, ctx, onError.value(ctx, e), fuel);
      if !h.result.Failure? then h
      else if h.result.e == PurgeSignal then After(h.trace, Cleanup(h.world, ctx))
      else h.(result := Failure(TaskExecutionError(TaskExecutionError(h.result.e))))
  }

  function Cleanup(w: World, ctx: Ctx): Outcome {
    Stepped(w, Wipe(ctx.Instance()), Value(JNull))
  }

  // ----- External calls -----

  datatype Call =
    | Send(name: string, id: string, event: Json)
    | FireAlarm(name: string, id: string)
    | GetState(name: string, id: string)
    | Tick(now: int)
    | InjectFailure(name: string, id: string, failure: SystemFailure)
    | Elapse(ms: nat)

  /** A call that succeeded clears the failure flag of the instance it was made on. */
  function Settled(o: Outcome, key: string): Outcome {
    if o.result.Value? then Outcome(Apply(o.world, Settle(key)), o.result, o.trace + [Settle(key)]) else o
  }

  /** The step that a call's answer adds to its trace. */
  function Settlement(key: string, r: Result): seq<Step> { if r.Value? then [Settle(key)] else [] }

  /** The alarm hook on a context that is already built. */
  function RunAlarm(reg: Registry, w: World, ctx: Ctx, fuel: nat): Outcome
    requires ctx.name in reg
  {
    Guarded(reg, w, ctx, reg[ctx.name].onAlarm(ctx), reg[ctx.name].onAlarmError, fuel)
  }

  /** handleAlarm on an instance whose alarm is already consumed. */
  function AlarmBody(reg: Registry, w: World, name: string, id: string, fuel: nat): Outcome
    requires name in reg
  {
    var ctx := ContextFor(w, name, id);
    After([Began(Key(name, id), ctx, None)], RunAlarm(reg, w, ctx, fuel))
  }

  /** The instance exists and its alarm is consumed. */
  function FireWorld(w: World, key: string): World { Apply(Apply(w, Open(key)), Fire(key)) }

  function FireInstance(reg: Registry, w: World, name: string, id: string, fuel: nat): Outcome
    requires name in reg
  {
    var key := Key(name, id);
    Settled(After([Open(key), Fire(key)], AlarmBody(reg, FireWorld(w, key), name, id, fuel)), key)
  }

  /** What a tick does for one collected key: nothing when its task is not registered. */
  function FireKey(reg: Registry, w: World, key: string, fuel: nat): Outcome {
    var (name, id) := Parse(key);
    if name in reg then FireInstance(reg, w, name, id, fuel) else Ends(w, Value(JNull))
  }

  predicate IsDue(w: World, key: string, now: int) {
    key in w.instances && w.instances[key].alarm.Some? && w.instances[key].alarm.value <= now
  }

  function DueIn(w: World, keys: seq<string>, now: int): seq<string> {
    if keys == [] then []
    else (if IsDue(w, keys[0], now) then [keys[0]] else []) + DueIn(w, keys[1..], now)
  }

  function Due(w: World, now: int): seq<string> { DueIn(w, w.order, now) }

  /** Fires a snapshot of keys one after the other; the first firing that does not succeed ends the tick. */
  function FireAll(reg: Registry, w: World, keys: seq<string>, fuel: nat): Outcome
    decreases |keys|
  {
    if keys == [] then Ends(w, Value(JNull))
    else
      var (name, id) := Parse(keys[0]);
      if name !in reg then FireAll(reg, w, keys[1..], fuel)
      else
        var o := FireInstance(reg, w, name, id, fuel);
        if o.result.Value? then After(o.trace, FireAll(reg, o.world, keys[1..], fuel)) else o
  }

  function TickAt(reg: Registry, w: World, now: int, fuel: nat): Outcome {
    var o := FireAll(reg, w, Due(w, now), fuel);
    if o.result.Value? then o.(result := Value(JNumber(|Due(w, now)|))) else o
  }

  function ExternalState(reg: Registry, w: World, name: string, id: string): Outcome {
    if name !in reg then Ends(w, Failure(TaskExecutionError(TaskError(NotFound(name)))))
    else
      var w1 := Apply(w, Open(Key(name, id)));
      Outcome(w1,
              Receive(reg[name].codec, HandleGetState(reg[name].codec, At(w1, Key(name, id))),
                TaskExecutionError(SchemaError)),
              [Open(Key(name, id))])
  }

  function Invoke(reg: Registry, w: World, call: Call, fuel: nat): Outcome {
    match call
    case Send(name, id, event) =>
      if name !in reg then Ends(w, Failure(TaskExecutionError(TaskError(NotFound(name)))))
      else Settled(HandleEvent(reg, w, name, id, event, fuel), Key(name, id))
    case FireAlarm(name, id) =>
      if name !in reg then Ends(w, Failure(TaskExecutionError(TaskError(NotFound(name)))))
      else FireInstance(reg, w, name, id, fuel)
    case GetState(name, id) => ExternalState(reg, w, name, id)
    case Tick(now) => TickAt(reg, w, now, fuel)
    case InjectFailure(name, id, f) =>
      var w1 := Apply(w, Open(Key(name, id)));
      Outcome(Apply(w1, Inject(Key(name, id), f)), Value(JNull), [Open(Key(name, id)), Inject(Key(name, id), f)])
    case Elapse(ms) => Stepped(w, Pass(ms), Value(JNull))
  }

  // ----- Whole runs -----

  datatype Session = Session(world: World, trace: seq<Step>)

  const EMPTY := World(map[], [], 0)

  /** Any sequence of external calls; a call that failed or halted leaves its partial effects for the next one. */
  function Serve(reg: Registry, w: World, calls: seq<Call>, fuel: nat): Session
    decreases |calls|
  {
    if calls == [] then Session(w, [])
    else
      var o := Invoke(reg, w, calls[0], fuel);
      var rest := Serve(reg, o.world, calls[1..], fuel);
      Session(rest.world, o.trace + rest.trace)
  }
}
