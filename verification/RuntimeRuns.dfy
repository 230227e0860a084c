/** A run of external calls on the mutable runtime: what is proved of every run of values holds of the object. */
module RuntimeRuns {
  import opened Values
  import opened TaskModel
  import opened TaskTrace
  import opened InMemoryRuntime
  import opened AlarmLedger
  import opened AlarmMirror

  method CallOn(rt: Runtime, call: Call, fuel: nat) returns (r: Result)
    requires rt.Valid()
    modifies rt, rt.instances.Values
    ensures rt.Valid() && rt.Grown()
    ensures rt.Table() == Invoke(rt.registry, old(rt.Table()), call, fuel).world
    ensures r == Invoke(rt.registry, old(rt.Table()), call, fuel).result
    ensures rt.log == old(rt.log) + Invoke(rt.registry, old(rt.Table()), call, fuel).trace
  {
    match call
    case Send(name, id, event) => r := rt.Send(name, id, event, fuel);
    case FireAlarm(name, id) => r := rt.FireAlarm(name, id, fuel);
    case GetState(name, id) => r := rt.GetState(name, id);
    case Tick(now) => r := rt.Tick(now, fuel);
    case InjectFailure(name, id, failure) =>
      rt.InjectSystemFailure(name, id, failure);
      r := Value(JNull);
    case Elapse(ms) =>
      rt.Elapse(ms);
      r := Value(JNull);
  }

  lemma ServeSteps(reg: Registry, w: World, calls: seq<Call>, fuel: nat, log: seq<Step>)
    requires calls != []
    ensures var o, s := Invoke(reg, w, calls[0], fuel), Serve(reg, w, calls, fuel);
            var rest := Serve(reg, o.world, calls[1..], fuel);
            s.world == rest.world && log + o.trace + rest.trace == log + s.trace
  {
    var o, s := Invoke(reg, w, calls[0], fuel), Serve(reg, w, calls, fuel);
    Appended(log, o.trace, Serve(reg, o.world, calls[1..], fuel).trace, s.trace);
  }

  lemma Appended(log: seq<Step>, first: seq<Step>, rest: seq<Step>, both: seq<Step>)
    requires both == first + rest
    ensures log + first + rest == log + both
  {
  }

  /** Failed calls leave their partial effects behind for the next ones. */
  method ServeOn(rt: Runtime, calls: seq<Call>, fuel: nat)
    requires rt.Valid()
    modifies rt, rt.instances.Values
    ensures rt.Valid() && rt.Grown()
    ensures rt.Table() == Serve(rt.registry, old(rt.Table()), calls, fuel).world
    ensures rt.log == old(rt.log) + Serve(rt.registry, old(rt.Table()), calls, fuel).trace
    decreases |calls|
  {
    if calls != [] {
      ServeSteps(rt.registry, rt.Table(), calls, fuel, rt.log);
      var r := CallOn(rt, calls[0], fuel);
      ServeOn(rt, calls[1..], fuel);
    }
  }

  /**
   * A new runtime that served any calls: its two records of every alarm agree, and its log accounts for every alarm.
   */
  method ServeFresh(registry: Registry, calls: seq<Call>, fuel: nat) returns (rt: Runtime)
    ensures fresh(rt) && rt.Valid() && rt.registry == registry
    ensures rt.Table() == Serve(registry, EMPTY, calls, fuel).world
            && rt.log == Serve(registry, EMPTY, calls, fuel).trace
    ensures AllMirror(rt.Table())
    ensures Balanced(Book(NEW, rt.log)) && Tracks(Book(NEW, rt.log), rt.Table())
  {
    rt := new Runtime(registry);
    ServeOn(rt, calls, fuel);
    ServeFaithful(registry, EMPTY, calls, fuel);
    assert AllMirror(EMPTY);
    ReplayMirrors(EMPTY, Serve(registry, EMPTY, calls, fuel).trace);
    EveryAlarmAccountedFor(registry, calls, fuel);
  }
}
