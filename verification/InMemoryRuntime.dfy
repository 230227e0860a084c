/**
 * The runtime as the program keeps it: a mutable table of mutable instance records. Every method does to the heap what
 * TaskModel says it does to the table of values, so whatever is proved of TaskModel's runs holds of this object.
 */
module InMemoryRuntime {
  import opened Values
  import opened InstanceKey
  import opened TaskModel

  class Instance {
    var storage: map<string, Json>
    var scheduledAlarm: Option<int>
    var systemFailure: Option<SystemFailure>

    constructor ()
      ensures State() == BLANK
    {
      storage, scheduledAlarm, systemFailure := map[], None, None;
    }

    function State(): Snapshot
      reads this
    {
      Snapshot(storage, scheduledAlarm, systemFailure)
    }

    // ----- Storage and Alarm services of one instance -----

    method Set(cell: string, value: Json)
      modifies this`storage
      ensures storage == old(storage)[cell := value]
    {
      storage := storage[cell := value];
    }

    method Delete(cell: string)
      modifies this`storage
      ensures storage == old(storage) - {cell}
    {
      storage := storage - {cell};
    }

    method DeleteAll()
      modifies this`storage
      ensures storage == map[]
    {
      storage := map[];
    }

    method SetAlarm(ts: int)
      modifies this`scheduledAlarm
      ensures scheduledAlarm == Some(ts)
    {
      scheduledAlarm := Some(ts);
    }

    method CancelAlarm()
      modifies this`scheduledAlarm
      ensures scheduledAlarm == None
    {
      scheduledAlarm := None;
    }
  }

  class Runtime {
    const registry: Registry
    var instances: map<string, Instance>
    var order: seq<string>
    var clock: int
    /** Every step of every handler and call so far. */
    ghost var log: seq<Step>

    ghost predicate Valid()
      reads this`instances
    {
      forall j, k :: j in instances && k in instances && instances[j] == instances[k] ==> j == k
    }

    ghost function Table(): World
      reads this`instances, this`order, this`clock, instances.Values
    {
      World(map k | k in instances :: instances[k].State(), order, clock)
    }

    /** Entries are never removed or replaced, and a new entry is a new record. */
    twostate predicate Grown()
      reads this`instances
    {
      && (forall k :: k in old(instances) ==> k in instances && instances[k] == old(instances[k]))
      && fresh(instances.Values - old(instances.Values))
    }

    constructor (registry: Registry)
      ensures this.registry == registry
      ensures Valid() && Table() == EMPTY && instances == map[] && log == []
    {
      this.registry := registry;
      log := [];
      instances, order, clock := map[], [], 0;
    }

    // ----- Instance management -----

    method GetOrCreateInstance(key: string) returns (i: Instance)
      requires Valid()
      modifies this`instances, this`order
      ensures Valid() && Grown()
      ensures key in instances && instances[key] == i
      ensures Table() == Ensure(old(Table()), key)
    {
      if key in instances {
        i := instances[key];
      } else {
        i := new Instance();
        instances := instances[key := i];
        order := order + [key];
        assert forall k :: k in old(instances) ==> instances[k].State() == old(instances[k].State());
        assert Table().instances == old(Table()).instances[key := BLANK];
      }
    }

    method MakeHandlerContext(name: string, id: string) returns (ctx: Ctx, i: Instance)
      requires Valid()
      modifies this`instances, this`order
      ensures Valid() && Grown()
      ensures ctx.Instance() in instances && instances[ctx.Instance()] == i
      ensures Table() == Apply(old(Table()), Open(Key(name, id)))
      ensures ctx == ContextFor(old(Table()), name, id)
    {
      i := GetOrCreateInstance(Key(name, id));
      ctx := Ctx(name, id, i.systemFailure);
      assert At(Table(), Key(name, id)) == i.State();
    }

    method OpenContext(name: string, id: string) returns (ctx: Ctx, i: Instance)
      requires Valid()
      modifies this`instances, this`order, this`log
      ensures Valid() && Grown()
      ensures ctx.Instance() in instances && instances[ctx.Instance()] == i
      ensures Table() == Apply(old(Table()), Open(Key(name, id))) && log == old(log) + [Open(Key(name, id))]
      ensures ctx == ContextFor(old(Table()), name, id) && i.State() == At(Table(), Key(name, id))
    {
      ctx, i := MakeHandlerContext(name, id);
      log := log + [Open(Key(name, id))];
      assert At(Table(), Key(name, id)) == i.State();
    }

    /** Changing one record changes one entry of the table. */
    lemma OneEntry(was: World, key: string, s: Step)
      requires key in instances && was.instances.Keys == instances.Keys && was.order == order && was.clock == clock
      requires !s.Pass? && !s.Began? && !s.Open? && s.key == key
      requires instances[key].State() == Change(was.instances[key], s)
      requires forall k :: k in instances && k != key ==> instances[k].State() == was.instances[k]
      ensures Table() == Apply(was, s)
    {
    }

    // ----- Context operations on the instance itself -----

    method Save(codec: Codec, key: string, i: Instance, state: Json) returns (r: Result)
      requires Valid() && key in instances && instances[key] == i
      modifies this`log, i
      ensures Table() == SaveTo(codec, old(Table()), key, state).world
      ensures r == SaveTo(codec, old(Table()), key, state).result
      ensures log == old(log) + SaveTo(codec, old(Table()), key, state).trace
    {
      var raw := codec.encodeState(state);
      if raw.None? {
        return Failure(TaskError(SchemaMismatch));
      }
      i.Set(STATE_KEY, raw.value);
      OneEntry(old(Table()), key, PutState(key, state, raw.value));
      log := log + [PutState(key, state, raw.value)];
      r := Value(JNull);
    }

    method ScheduleAlarm(key: string, i: Instance, ts: int)
      requires Valid() && key in instances && instances[key] == i
      modifies this`log, i
      ensures Table() == Apply(old(Table()), TaskModel.SetAlarm(key, ts))
              && log == old(log) + [TaskModel.SetAlarm(key, ts)]
    {
      i.SetAlarm(ts);
      i.Set(ALARM_KEY, JNumber(ts));
      OneEntry(old(Table()), key, TaskModel.SetAlarm(key, ts));
      log := log + [TaskModel.SetAlarm(key, ts)];
    }

    method CancelSchedule(key: string, i: Instance)
      requires Valid() && key in instances && instances[key] == i
      modifies this`log, i
      ensures Table() == Apply(old(Table()), ClearAlarm(key)) && log == old(log) + [ClearAlarm(key)]
    {
      i.CancelAlarm();
      i.Delete(ALARM_KEY);
      OneEntry(old(Table()), key, ClearAlarm(key));
      log := log + [ClearAlarm(key)];
    }

    method Update(codec: Codec, key: string, i: Instance, fn: Json -> Json) returns (r: Result)
      requires Valid() && key in instances && instances[key] == i
      modifies this`log, i
      ensures Table() == Local(codec, old(Table()), key, Op.Update(fn)).world
      ensures r == Local(codec, old(Table()), key, Op.Update(fn)).result
      ensures log == old(log) + Local(codec, old(Table()), key, Op.Update(fn)).trace
    {
      assert At(Table(), key) == i.State();
      r := RecallFrom(codec, i.State());
      if r.Value? && r.v != JNull {
        r := Save(codec, key, i, fn(r.v));
      }
    }

    method PerformTimed(codec: Codec, key: string, i: Instance, op: Op) returns (r: Result)
      requires Valid() && key in instances && instances[key] == i
      requires op.ScheduleIn? || op.ScheduleAt? || op.CancelSchedule? || op.Await?
      modifies this`clock, this`log, i
      ensures Valid() && Grown()
      ensures Table() == Local(codec, old(Table()), key, op).world
      ensures r == Local(codec, old(Table()), key, op).result
      ensures log == old(log) + Local(codec, old(Table()), key, op).trace
    {
      r := Value(JNull);
      match op
      case ScheduleIn(ms) => ScheduleAlarm(key, i, clock + ms);
      case ScheduleAt(ts) => ScheduleAlarm(key, i, ts);
      case CancelSchedule => CancelSchedule(key, i);
      case Await(ms) =>
        clock := clock + ms;
        log := log + [Pass(ms)];
        r := Value(JNumber(clock));
    }

    method PerformLocal(codec: Codec, key: string, i: Instance, op: Op) returns (r: Result)
      requires Valid() && key in instances && instances[key] == i
      requires !op.SendTo? && !op.GetStateOf?
      modifies this`clock, this`log, i
      ensures Valid() && Grown()
      ensures Table() == Local(codec, old(Table()), key, op).world
      ensures r == Local(codec, old(Table()), key, op).result
      ensures log == old(log) + Local(codec, old(Table()), key, op).trace
    {
      assert At(Table(), key) == i.State();
      if op.Recall? {
        r := RecallFrom(codec, i.State());
      } else if op.Save? {
        r := Save(codec, key, i, op.state);
      } else if op.Update? {
        r := Update(codec, key, i, op.fn);
      } else if op.NextAlarm? {
        r := Value(Nullable(NextAlarmFrom(i.State())));
      } else {
        r := PerformTimed(codec, key, i, op);
      }
    }

    method Cleanup(ctx: Ctx, i: Instance)
      requires Valid() && ctx.Instance() in instances && instances[ctx.Instance()] == i
      modifies this`log, i
      ensures Table() == Apply(old(Table()), Wipe(ctx.Instance())) && log == old(log) + [Wipe(ctx.Instance())]
    {
      i.DeleteAll();
      i.CancelAlarm();
      OneEntry(old(Table()), ctx.Instance(), Wipe(ctx.Instance()));
      log := log + [Wipe(ctx.Instance())];
    }

    // ----- Running handlers -----

    method RunProgram(ctx: Ctx, i: Instance, p: Prog, fuel: nat) returns (r: Result)
      requires Valid() && ctx.name in registry
      requires ctx.Instance() in instances && instances[ctx.Instance()] == i
      modifies this, instances.Values
      ensures Valid() && Grown()
      ensures Table() == Run(registry, old(Table()), ctx, p, fuel).world
      ensures r == Run(registry, old(Table()), ctx, p, fuel).result
      ensures log == old(log) + Run(registry, old(Table()), ctx, p, fuel).trace
      decreases fuel, 0
    {
      if fuel == 0 {
        return Halt(OutOfFuel);
      }
      match p
      case Done => r := Value(JNull);
      case Raise(e) => r := Failure(e);
      case Die => r := Halt(Defect);
      case Do(op, k) => r := RunOperation(ctx, i, op, k, fuel - 1);
    }

    /** One operation and the rest of the program after its answer. */
    method RunOperation(ctx: Ctx, i: Instance, op: Op, k: Result -> Prog, fuel: nat) returns (r: Result)
      requires Valid() && ctx.name in registry
      requires ctx.Instance() in instances && instances[ctx.Instance()] == i
      modifies this, instances.Values
      ensures Valid() && Grown()
      ensures Table() == Continued(registry, old(Table()), ctx, op, k, fuel).world
      ensures r == Continued(registry, old(Table()), ctx, op, k, fuel).result
      ensures log == old(log) + Continued(registry, old(Table()), ctx, op, k, fuel).trace
      decreases fuel, 6
    {
      ContinuedParts(registry, Table(), ctx, op, k, fuel, log);
      r := PerformOp(ctx, i, op, fuel);
      if r.Halt? {
        return;
      }
      r := RunProgram(ctx, i, k(r), fuel);
    }

    method PerformOp(ctx: Ctx, i: Instance, op: Op, fuel: nat) returns (r: Result)
      requires Valid() && ctx.name in registry
      requires ctx.Instance() in instances && instances[ctx.Instance()] == i
      modifies this, instances.Values
      ensures Valid() && Grown()
      ensures Table() == Perform(registry, old(Table()), ctx, op, fuel).world
      ensures r == Perform(registry, old(Table()), ctx, op, fuel).result
      ensures log == old(log) + Perform(registry, old(Table()), ctx, op, fuel).trace
      decreases fuel, 5
    {
      match op
      case SendTo(name, id, event) => r := DispatchSend(name, id, event, fuel);
      case GetStateOf(name, id) => r := DispatchGetState(name, id);
      case _ => r := PerformLocal(registry[ctx.name].codec, ctx.Instance(), i, op);
    }

    method DispatchSend(name: string, id: string, event: Json, fuel: nat) returns (r: Result)
      requires Valid()
      modifies this, instances.Values
      ensures Valid() && Grown()
      ensures Table() == Dispatch(registry, old(Table()), name, id, event, fuel).world
      ensures r == Dispatch(registry, old(Table()), name, id, event, fuel).result
      ensures log == old(log) + Dispatch(registry, old(Table()), name, id, event, fuel).trace
      decreases fuel, 4
    {
      if name !in registry {
        return Failure(TaskError(NotFound(name)));
      }
      r := DeliverEvent(name, id, event, fuel);
      if r.Failure? {
        r := Failure(TaskError(SiblingDispatch(r.e)));
      }
    }

    method DispatchGetState(name: string, id: string) returns (r: Result)
      requires Valid()
      modifies this
      ensures Valid() && Grown()
      ensures Table() == SiblingState(registry, old(Table()), name, id).world
      ensures r == SiblingState(registry, old(Table()), name, id).result
      ensures log == old(log) + SiblingState(registry, old(Table()), name, id).trace
    {
      if name !in registry {
        return Failure(TaskError(NotFound(name)));
      }
      var ctx, i := OpenContext(name, id);
      r := HandleGetState(registry[name].codec, i.State());
      if r.Failure? {
        r := Failure(TaskError(SiblingGetState(r.e)));
      }
      r := Receive(registry[name].codec, r, TaskError(SchemaMismatch));
    }

    method DeliverEvent(name: string, id: string, raw: Json, fuel: nat) returns (r: Result)
      requires Valid() && name in registry
      modifies this, instances.Values
      ensures Valid() && Grown()
      ensures Table() == TaskModel.HandleEvent(registry, old(Table()), name, id, raw, fuel).world
      ensures r == TaskModel.HandleEvent(registry, old(Table()), name, id, raw, fuel).result
      ensures log == old(log) + TaskModel.HandleEvent(registry, old(Table()), name, id, raw, fuel).trace
      ensures Key(name, id) in instances
      decreases fuel, 3
    {
      ghost var was, w := log, Table();
      var ctx, i := OpenContext(name, id);
      ghost var e := EventBody(registry, Table(), ctx, raw, fuel);
      Delivered(registry, w, name, id, raw, fuel, e);
      r := HandleEvent(ctx, i, raw, fuel);
      Regroup(was, [Open(Key(name, id))], e.trace, []);
    }

    method HandleEvent(ctx: Ctx, i: Instance, raw: Json, fuel: nat) returns (r: Result)
      requires Valid() && ctx.name in registry
      requires ctx.Instance() in instances && instances[ctx.Instance()] == i
      modifies this, instances.Values
      ensures Valid() && Grown()
      ensures Table() == EventBody(registry, old(Table()), ctx, raw, fuel).world
      ensures r == EventBody(registry, old(Table()), ctx, raw, fuel).result
      ensures log == old(log) + EventBody(registry, old(Table()), ctx, raw, fuel).trace
      decreases fuel, 2
    {
      var decoded := registry[ctx.name].codec.decodeEvent(raw);
      if decoded.None? {
        return Failure(TaskValidationError);
      }
      log := log + [Began(ctx.Instance(), ctx, Some(raw))];
      r := RunGuarded(ctx, i, registry[ctx.name].onEvent(ctx, decoded.value), registry[ctx.name].onEventError, fuel);
    }

    method RunGuarded(ctx: Ctx, i: Instance, p: Prog, onError: Option<(Ctx, Err) -> Prog>, fuel: nat)
      returns (r: Result)
      requires Valid() && ctx.name in registry
      requires ctx.Instance() in instances && instances[ctx.Instance()] == i
      modifies this, instances.Values
      ensures Valid() && Grown()
      ensures Table() == Guarded(registry, old(Table()), ctx, p, onError, fuel).world
      ensures r == Guarded(registry, old(Table()), ctx, p, onError, fuel).result
      ensures log == old(log) + Guarded(registry, old(Table()), ctx, p, onError, fuel).trace
      decreases fuel, 1
    {
      GuardedParts(registry, Table(), ctx, p, onError, fuel, log);
      r := RunProgram(ctx, i, p, fuel);
      if r.Failure? {
        r := HandleError(ctx, i, r.e, onError, fuel);
      }
    }

    method HandleError(ctx: Ctx, i: Instance, e: Err, onError: Option<(Ctx, Err) -> Prog>, fuel: nat)
      returns (r: Result)
      requires Valid() && ctx.name in registry
      requires ctx.Instance() in instances && instances[ctx.Instance()] == i
      modifies this, instances.Values
      ensures Valid() && Grown()
      ensures Table() == Routed(registry, old(Table()), ctx, e, onError, fuel).world
      ensures r == Routed(registry, old(Table()), ctx, e, onError, fuel).result
      ensures log == old(log) + Routed(registry, old(Table()), ctx, e, onError, fuel).trace
      decreases fuel, 1, 0
    {
      if e == PurgeSignal {
        Cleanup(ctx, i);
        return Value(JNull);
      }
      if onError.None? {
        return Failure(TaskExecutionError(e));
      }
      r := RunProgram(ctx, i, onError.value(ctx, e), fuel);
      if r == Failure(PurgeSignal) {
        Cleanup(ctx, i);
        r := Value(JNull);
      } else if r.Failure? {
        r := Failure(TaskExecutionError(TaskExecutionError(r.e)));
      }
    }

    // ----- External calls -----

    method ClearFailure(key: string)
      requires Valid() && key in instances
      modifies this`log, instances[key]
      ensures Table() == Apply(old(Table()), Settle(key)) && log == old(log) + [Settle(key)]
    {
      instances[key].systemFailure := None;
      OneEntry(old(Table()), key, Settle(key));
      log := log + [Settle(key)];
    }

    method Send(name: string, id: string, event: Json, fuel: nat) returns (r: Result)
      requires Valid()
      modifies this, instances.Values
      ensures Valid() && Grown()
      ensures Table() == Invoke(registry, old(Table()), Call.Send(name, id, event), fuel).world
      ensures r == Invoke(registry, old(Table()), Call.Send(name, id, event), fuel).result
      ensures log == old(log) + Invoke(registry, old(Table()), Call.Send(name, id, event), fuel).trace
    {
      if name !in registry {
        return Failure(TaskExecutionError(TaskError(NotFound(name))));
      }
      r := DeliverEvent(name, id, event, fuel);
      if r.Value? {
        ClearFailure(Key(name, id));
      }
    }

    method GetState(name: string, id: string) returns (r: Result)
      requires Valid()
      modifies this
      ensures Valid() && Grown()
      ensures Table() == ExternalState(registry, old(Table()), name, id).world
      ensures r == ExternalState(registry, old(Table()), name, id).result
      ensures log == old(log) + ExternalState(registry, old(Table()), name, id).trace
    {
      if name !in registry {
        return Failure(TaskExecutionError(TaskError(NotFound(name))));
      }
      var ctx, i := OpenContext(name, id);
      r := HandleGetState(registry[name].codec, i.State());
      r := Receive(registry[name].codec, r, TaskExecutionError(SchemaError));
    }

    /** The platform slot is cleared first; the handler then deletes the stored copy before it runs. */
    method ConsumeAlarm(key: string, i: Instance)
      requires Valid() && key in instances && instances[key] == i
      modifies this`log, i
      ensures Table() == Apply(old(Table()), Fire(key)) && log == old(log) + [Fire(key)]
    {
      i.scheduledAlarm := None;
      i.Delete(ALARM_KEY);
      OneEntry(old(Table()), key, Fire(key));
      log := log + [Fire(key)];
    }

    method FireAlarm(name: string, id: string, fuel: nat) returns (r: Result)
      requires Valid()
      modifies this, instances.Values
      ensures Valid() && Grown()
      ensures Table() == Invoke(registry, old(Table()), Call.FireAlarm(name, id), fuel).world
      ensures r == Invoke(registry, old(Table()), Call.FireAlarm(name, id), fuel).result
      ensures log == old(log) + Invoke(registry, old(Table()), Call.FireAlarm(name, id), fuel).trace
    {
      if name !in registry {
        return Failure(TaskExecutionError(TaskError(NotFound(name))));
      }
      r := FireRegistered(name, id, fuel);
    }

    /** handleAlarm on an instance whose platform slot is already cleared. */
    method HandleAlarm(name: string, id: string, fuel: nat) returns (r: Result)
      requires Valid() && name in registry && Key(name, id) in instances
      modifies this, instances.Values
      ensures Valid() && Grown()
      ensures Table() == AlarmBody(registry, old(Table()), name, id, fuel).world
      ensures r == AlarmBody(registry, old(Table()), name, id, fuel).result
      ensures log == old(log) + AlarmBody(registry, old(Table()), name, id, fuel).trace
    {
      AlarmSteps(registry, Table(), name, id, fuel, log);
      var ctx, i := MakeHandlerContext(name, id);
      log := log + [Began(Key(name, id), ctx, None)];
      r := RunGuarded(ctx, i, registry[name].onAlarm(ctx), registry[name].onAlarmError, fuel);
    }

    method FireRegistered(name: string, id: string, fuel: nat) returns (r: Result)
      requires Valid() && name in registry
      modifies this, instances.Values
      ensures Valid() && Grown()
      ensures Table() == FireInstance(registry, old(Table()), name, id, fuel).world
      ensures r == FireInstance(registry, old(Table()), name, id, fuel).result
      ensures log == old(log) + FireInstance(registry, old(Table()), name, id, fuel).trace
    {
      FiringSteps(registry, Table(), name, id, fuel, log);
      StartFiring(Key(name, id));
      r := HandleAlarm(name, id, fuel);
      SettleOn(Key(name, id), r);
    }

    /** After a call on an instance: a success clears its failure flag. */
    method SettleOn(key: string, r: Result)
      requires Valid() && key in instances
      modifies this`log, instances[key]
      ensures Table() == if r.Value? then Apply(old(Table()), Settle(key)) else old(Table())
      ensures log == old(log) + Settlement(key, r)
    {
      if r.Value? {
        ClearFailure(key);
      } else {
        assert log + [] == log;
      }
    }

    method StartFiring(key: string)
      requires Valid()
      modifies this, instances.Values
      ensures Valid() && Grown() && key in instances
      ensures Table() == Apply(Apply(old(Table()), Open(key)), Fire(key))
      ensures log == old(log) + [Open(key), Fire(key)]
    {
      var i := GetOrCreateInstance(key);
      log := log + [Open(key)];
      ConsumeAlarm(key, i);
    }

    method CollectDue(now: int) returns (due: seq<string>)
      requires Valid()
      ensures due == TaskModel.Due(Table(), now)
    {
      due := [];
      for n := 0 to |order|
        invariant due == DueIn(Table(), order[..n], now)
      {
        DueInLast(Table(), order[..n], order[n], now);
        assert order[..n + 1] == order[..n] + [order[n]];
        if IsPending(order[n], now) {
          due := due + [order[n]];
        }
      }
      assert order[..|order|] == order;
    }

    predicate IsPending(key: string, now: int)
      requires Valid()
      reads this, instances.Values
      ensures IsPending(key, now) <==> IsDue(Table(), key, now)
    {
      key in instances && instances[key].scheduledAlarm.Some? && instances[key].scheduledAlarm.value <= now
    }

    method Tick(now: int, fuel: nat) returns (r: Result)
      requires Valid()
      modifies this, instances.Values
      ensures Valid() && Grown()
      ensures Table() == Invoke(registry, old(Table()), Call.Tick(now), fuel).world
      ensures r == Invoke(registry, old(Table()), Call.Tick(now), fuel).result
      ensures log == old(log) + Invoke(registry, old(Table()), Call.Tick(now), fuel).trace
    {
      var toFire := CollectDue(now);
      r := FireSnapshot(toFire, fuel);
      if r.Value? {
        r := Value(JNumber(|toFire|));
      }
    }

    method FireSnapshot(toFire: seq<string>, fuel: nat) returns (r: Result)
      requires Valid()
      modifies this, instances.Values
      ensures Valid() && Grown()
      ensures Table() == FireAll(registry, old(Table()), toFire, fuel).world
      ensures r == FireAll(registry, old(Table()), toFire, fuel).result
      ensures log == old(log) + FireAll(registry, old(Table()), toFire, fuel).trace
    {
      ghost var all, was, done := FireAll(registry, Table(), toFire, fuel), log, [];
      var n := 0;
      while n < |toFire|
        invariant 0 <= n <= |toFire|
        invariant Valid() && Grown() && log == was + done
        invariant Remaining(all, done, registry, Table(), toFire[n..], fuel)
      {
        r, done := FireNext(toFire, n, fuel, all, was, done);
        if !r.Value? {
          return;
        }
        n := n + 1;
      }
      NoneRemaining(all, done, registry, Table(), fuel);
      r := Value(JNull);
    }

    /** One turn of the tick loop: an instance of a task that is no longer registered is passed over. */
    method FireNext(toFire: seq<string>, n: nat, fuel: nat, ghost all: Outcome, ghost was: seq<Step>,
                    ghost done: seq<Step>)
      returns (r: Result, ghost done': seq<Step>)
      requires Valid() && n < |toFire| && log == was + done
      requires Remaining(all, done, registry, Table(), toFire[n..], fuel)
      modifies this, instances.Values
      ensures Valid() && Grown() && log == was + done'
      ensures r.Value? ==> Remaining(all, done', registry, Table(), toFire[n + 1..], fuel)
      ensures !r.Value? ==> all == Outcome(Table(), r, done')
    {
      ghost var o := FireKey(registry, Table(), toFire[n], fuel);
      FireAllStep(all, done, registry, Table(), toFire, n, fuel, o);
      done' := done + o.trace;
      r := FireCollected(toFire[n], fuel);
    }

    method FireCollected(key: string, fuel: nat) returns (r: Result)
      requires Valid()
      modifies this, instances.Values
      ensures Valid() && Grown()
      ensures Table() == FireKey(registry, old(Table()), key, fuel).world
      ensures r == FireKey(registry, old(Table()), key, fuel).result
      ensures log == old(log) + FireKey(registry, old(Table()), key, fuel).trace
    {
      var (name, id) := Parse(key);
      if name in registry {
        r := FireRegistered(name, id, fuel);
      } else {
        r := Value(JNull);
      }
    }

    /** Time passes between calls. */
    method Elapse(ms: nat)
      requires Valid()
      modifies this`clock, this`log
      ensures Valid() && Grown()
      ensures Table() == Apply(old(Table()), Pass(ms)) && log == old(log) + [Pass(ms)]
    {
      clock := clock + ms;
      log := log + [Pass(ms)];
    }

    method InjectSystemFailure(name: string, id: string, failure: SystemFailure)
      requires Valid()
      modifies this, instances.Values
      ensures Valid() && Grown()
      ensures forall fuel :: Table() == Invoke(registry, old(Table()), InjectFailure(name, id, failure), fuel).world
      ensures log == old(log) + [Open(Key(name, id)), Inject(Key(name, id), failure)]
    {
      var i := GetOrCreateInstance(Key(name, id));
      log := log + [Open(Key(name, id))];
      Mark(Key(name, id), i, failure);
    }

    method Mark(key: string, i: Instance, failure: SystemFailure)
      requires Valid() && key in instances && instances[key] == i
      modifies this`log, i
      ensures Table() == Apply(old(Table()), Inject(key, failure)) && log == old(log) + [Inject(key, failure)]
    {
      i.systemFailure := Some(failure);
      OneEntry(old(Table()), key, Inject(key, failure));
      log := log + [Inject(key, failure)];
    }
  }

  lemma {:induction false} DueInLast(w: World, keys: seq<string>, key: string, now: int)
    ensures DueIn(w, keys + [key], now) == DueIn(w, keys, now) + (if IsDue(w, key, now) then [key] else [])
    decreases |keys|
  {
    if keys == [] {
      assert keys + [key] == [key];
    } else {
      assert (keys + [key])[1..] == keys[1..] + [key];
      DueInLast(w, keys[1..], key, now);
    }
  }

  lemma Delivered(reg: Registry, w: World, name: string, id: string, raw: Json, fuel: nat, e: Outcome)
    requires name in reg
    requires e == EventBody(reg, Apply(w, Open(Key(name, id))), ContextFor(w, name, id), raw, fuel)
    ensures HandleEvent(reg, w, name, id, raw, fuel) == After([Open(Key(name, id))], e)
  {
  }

  lemma FiringSteps(reg: Registry, w: World, name: string, id: string, fuel: nat, log: seq<Step>)
    requires name in reg
    ensures var key, o := Key(name, id), FireInstance(reg, w, name, id, fuel);
            var a := AlarmBody(reg, FireWorld(w, key), name, id, fuel);
            && o.world == (if a.result.Value? then Apply(a.world, Settle(key)) else a.world)
            && o.result == a.result
            && log + [Open(key), Fire(key)] + a.trace + Settlement(key, a.result) == log + o.trace
  {
    var a := AlarmBody(reg, FireWorld(w, Key(name, id)), name, id, fuel);
    Regroup(log, [Open(Key(name, id)), Fire(Key(name, id))], a.trace, Settlement(Key(name, id), a.result));
  }

  lemma AlarmSteps(reg: Registry, w: World, name: string, id: string, fuel: nat, log: seq<Step>)
    requires name in reg
    ensures var ctx, a := ContextFor(w, name, id), AlarmBody(reg, w, name, id, fuel);
            var g := Guarded(reg, w, ctx, reg[name].onAlarm(ctx), reg[name].onAlarmError, fuel);
            && a.world == g.world && a.result == g.result
            && log + [Began(Key(name, id), ctx, None)] + g.trace == log + a.trace
  {
    var ctx := ContextFor(w, name, id);
    Regroup(log, [Began(Key(name, id), ctx, None)], RunAlarm(reg, w, ctx, fuel).trace, []);
  }

  lemma Regroup(a: seq<Step>, b: seq<Step>, c: seq<Step>, d: seq<Step>)
    ensures a + b + c + d == a + (b + c + d)
  {
  }

  lemma ContinuedParts(reg: Registry, w: World, ctx: Ctx, op: Op, k: Result -> Prog, fuel: nat, log: seq<Step>)
    requires ctx.name in reg
    ensures var a, c := Perform(reg, w, ctx, op, fuel), Continued(reg, w, ctx, op, k, fuel);
            && (a.result.Halt? ==> c == a)
            && (!a.result.Halt? ==>
                  var rest := Run(reg, a.world, ctx, k(a.result), fuel);
                  c.world == rest.world && c.result == rest.result && log + a.trace + rest.trace == log + c.trace)
  {
  }

  lemma GuardedParts(reg: Registry, w: World, ctx: Ctx, p: Prog, onError: Option<(Ctx, Err) -> Prog>, fuel: nat,
                     log: seq<Step>)
    requires ctx.name in reg
    ensures var o, g := Run(reg, w, ctx, p, fuel), Guarded(reg, w, ctx, p, onError, fuel);
            && (!o.result.Failure? ==> g == o)
            && (o.result.Failure? ==>
                  var h := Routed(reg, o.world, ctx, o.result.e, onError, fuel);
                  g.world == h.world && g.result == h.result && log + o.trace + h.trace == log + g.trace)
  {
    var o := Run(reg, w, ctx, p, fuel);
    assert o.trace + [] == o.trace;
  }

  /** What firing all keys amounts to, when the first ones have done `done` and the rest is still to be fired. */
  predicate Remaining(all: Outcome, done: seq<Step>, reg: Registry, w: World, keys: seq<string>, fuel: nat) {
    all == After(done, FireAll(reg, w, keys, fuel))
  }

  lemma NoneRemaining(all: Outcome, done: seq<Step>, reg: Registry, w: World, fuel: nat)
    requires Remaining(all, done, reg, w, [], fuel)
    ensures all == Outcome(w, Value(JNull), done)
  {
  }

  lemma FireAllStep(all: Outcome, done: seq<Step>, reg: Registry, w: World, keys: seq<string>, n: nat, fuel: nat,
                    o: Outcome)
    requires n < |keys| && Remaining(all, done, reg, w, keys[n..], fuel) && o == FireKey(reg, w, keys[n], fuel)
    ensures o.result.Value? ==> Remaining(all, done + o.trace, reg, o.world, keys[n + 1..], fuel)
    ensures !o.result.Value? ==> all == Outcome(o.world, o.result, done + o.trace)
  {
  }
}
