/** Which invocation each step of a run belongs to, and what that says about purges. */
module Invocations {
  import opened Values
  import opened InstanceKey
  import opened TaskModel
  import opened TaskTrace
  import opened Isolation
  import opened Fuel

  /** One handler invocation: on an event as it came over the wire, or on an alarm. */
  datatype Invocation = Invocation(ctx: Ctx, event: Option<Json>, fuel: nat) {
    predicate Valid(reg: Registry) {
      ctx.name in reg && (event.Some? ==> reg[ctx.name].codec.decodeEvent(event.value).Some?)
    }

    function Handler(reg: Registry): Prog
      requires Valid(reg)
    {
      if event.Some? then reg[ctx.name].onEvent(ctx, reg[ctx.name].codec.decodeEvent(event.value).value)
      else reg[ctx.name].onAlarm(ctx)
    }

    function ErrorHandler(reg: Registry): Option<(Ctx, Err) -> Prog>
      requires Valid(reg)
    {
      if event.Some? then reg[ctx.name].onEventError else reg[ctx.name].onAlarmError
    }

    function Outcome(reg: Registry, w: World): TaskModel.Outcome
      requires Valid(reg)
    {
      Guarded(reg, w, ctx, Handler(reg), ErrorHandler(reg), fuel)
    }

    predicate Purges(reg: Registry, w: World)
      requires Valid(reg)
    {
      EndsInPurge(reg, w, ctx, Handler(reg), ErrorHandler(reg), fuel)
    }

    function Start(): Step { Began(ctx.Instance(), ctx, event) }

    /** Its outcome with its start in front. */
    function Begun(reg: Registry, w: World): TaskModel.Outcome
      requires Valid(reg)
    {
      After([Start()], Outcome(reg, w))
    }
  }

  /** Invocation v begins at step j of the trace, and its own steps come right after. */
  ghost predicate RunsAt(reg: Registry, w: World, t: seq<Step>, j: nat, v: Invocation) {
    && j < |t| && v.Valid(reg) && t[j] == v.Start()
    && v.Outcome(reg, Replay(w, t[..j + 1])).trace <= t[j + 1..]
  }

  function EndOf(reg: Registry, w: World, t: seq<Step>, j: nat, v: Invocation): nat
    requires j < |t| && v.Valid(reg)
  {
    j + 1 + |v.Outcome(reg, Replay(w, t[..j + 1])).trace|
  }

  /** The step changes the storage or the alarm of its instance. */
  predicate Changes(s: Step) { s.PutState? || s.SetAlarm? || s.ClearAlarm? || s.Wipe? }

  /** Its own steps are all there: it has come to its end, or it ran out of fuel at one of the places in `ends`. */
  ghost predicate WholeAt(reg: Registry, w: World, t: seq<Step>, j: nat, v: Invocation, ends: set<nat>) {
    RunsAt(reg, w, t, j, v) && (Ended(v.Outcome(reg, Replay(w, t[..j + 1]))) || EndOf(reg, w, t, j, v) in ends)
  }

  ghost predicate Begun(reg: Registry, w: World, t: seq<Step>, j: nat, ends: set<nat>) {
    exists v: Invocation :: WholeAt(reg, w, t, j, v, ends)
  }

  /** Step i lies inside an invocation on its instance. */
  ghost predicate Inside(reg: Registry, w: World, t: seq<Step>, i: nat, ends: set<nat>)
    requires i < |t| && !t[i].Pass?
  {
    exists j: nat, v: Invocation ::
      WholeAt(reg, w, t, j, v, ends) && v.ctx.Instance() == t[i].key && j < i < EndOf(reg, w, t, j, v)
  }

  /** An invocation begun on `key` ends in a purge, and step i is its last. */
  ghost predicate PurgeEndsAt(reg: Registry, w: World, t: seq<Step>, i: nat, key: string) {
    exists j: nat, v: Invocation ::
      RunsAt(reg, w, t, j, v) && v.ctx.Instance() == key
      && v.Purges(reg, Replay(w, t[..j + 1])) && EndOf(reg, w, t, j, v) == i + 1
  }

  /** Every start and every wipe belongs to an invocation, and so does every other change except on `me`. */
  ghost predicate Accounted(reg: Registry, w: World, t: seq<Step>, me: set<string>, ends: set<nat>) {
    && (forall j :: 0 <= j < |t| && t[j].Began? ==> Begun(reg, w, t, j, ends))
    && (forall i :: 0 <= i < |t| && t[i].Wipe? ==> PurgeEndsAt(reg, w, t, i, t[i].key))
    && (forall i :: 0 <= i < |t| && Changes(t[i]) && t[i].key !in me ==> Inside(reg, w, t, i, ends))
  }

  // ----- Traces put together -----

  /** The places in `inner`, seen from n steps earlier, are among `ends`. */
  predicate Shifted(n: nat, inner: set<nat>, ends: set<nat>) { forall e <- inner :: n + e in ends }

  lemma RunsLeft(reg: Registry, w: World, a: seq<Step>, b: seq<Step>, j: nat, v: Invocation)
    requires RunsAt(reg, w, a, j, v)
    ensures RunsAt(reg, w, a + b, j, v) && EndOf(reg, w, a + b, j, v) == EndOf(reg, w, a, j, v)
    ensures Replay(w, (a + b)[..j + 1]) == Replay(w, a[..j + 1])
  {
    assert (a + b)[..j + 1] == a[..j + 1];
    assert (a + b)[j + 1..] == a[j + 1..] + b;
  }

  lemma RunsRight(reg: Registry, w: World, a: seq<Step>, b: seq<Step>, j: nat, v: Invocation)
    requires RunsAt(reg, Replay(w, a), b, j, v)
    ensures RunsAt(reg, w, a + b, |a| + j, v)
    ensures EndOf(reg, w, a + b, |a| + j, v) == |a| + EndOf(reg, Replay(w, a), b, j, v)
    ensures Replay(w, (a + b)[..|a| + j + 1]) == Replay(Replay(w, a), b[..j + 1])
  {
    assert (a + b)[..|a| + j + 1] == a + b[..j + 1];
    assert (a + b)[|a| + j + 1..] == b[j + 1..];
    ReplayConcat(w, a, b[..j + 1]);
  }

  lemma WholeLeft(reg: Registry, w: World, a: seq<Step>, b: seq<Step>, j: nat, v: Invocation,
                  inner: set<nat>, ends: set<nat>)
    requires WholeAt(reg, w, a, j, v, inner) && inner <= ends
    ensures WholeAt(reg, w, a + b, j, v, ends) && EndOf(reg, w, a + b, j, v) == EndOf(reg, w, a, j, v)
  {
    RunsLeft(reg, w, a, b, j, v);
  }

  lemma WholeRight(reg: Registry, w: World, w1: World, a: seq<Step>, b: seq<Step>, j: nat, v: Invocation,
                   inner: set<nat>, ends: set<nat>)
    requires w1 == Replay(w, a) && WholeAt(reg, w1, b, j, v, inner) && Shifted(|a|, inner, ends)
    ensures WholeAt(reg, w, a + b, |a| + j, v, ends)
  {
    RunsRight(reg, w, a, b, j, v);
    WholeMoved(reg, w, w1, a + b, b, |a|, j, |a| + j, v, inner, ends);
  }

  lemma WholeMoved(reg: Registry, w: World, w1: World, t: seq<Step>, b: seq<Step>, n: nat, j: nat, k: nat,
                   v: Invocation, inner: set<nat>, ends: set<nat>)
    requires WholeAt(reg, w1, b, j, v, inner) && Shifted(n, inner, ends)
    requires RunsAt(reg, w, t, k, v) && Replay(w, t[..k + 1]) == Replay(w1, b[..j + 1])
    requires EndOf(reg, w, t, k, v) == n + EndOf(reg, w1, b, j, v)
    ensures WholeAt(reg, w, t, k, v, ends)
  {
  }

  lemma BegunLeft(reg: Registry, w: World, a: seq<Step>, b: seq<Step>, j: nat, inner: set<nat>, ends: set<nat>)
    requires Begun(reg, w, a, j, inner) && inner <= ends
    ensures Begun(reg, w, a + b, j, ends)
  {
    var v: Invocation :| WholeAt(reg, w, a, j, v, inner);
    WholeLeft(reg, w, a, b, j, v, inner, ends);
  }

  lemma BegunRight(reg: Registry, w: World, a: seq<Step>, b: seq<Step>, j: nat, inner: set<nat>, ends: set<nat>)
    requires Begun(reg, Replay(w, a), b, j, inner) && Shifted(|a|, inner, ends)
    ensures Begun(reg, w, a + b, |a| + j, ends)
  {
    var v: Invocation :| WholeAt(reg, Replay(w, a), b, j, v, inner);
    WholeRight(reg, w, Replay(w, a), a, b, j, v, inner, ends);
    RunsRight(reg, w, a, b, j, v);
  }

  lemma InsideLeft(reg: Registry, w: World, a: seq<Step>, b: seq<Step>, i: nat, inner: set<nat>, ends: set<nat>)
    requires i < |a| && !a[i].Pass? && Inside(reg, w, a, i, inner) && inner <= ends
    ensures Inside(reg, w, a + b, i, ends)
  {
    var j: nat, v: Invocation :|
      WholeAt(reg, w, a, j, v, inner) && v.ctx.Instance() == a[i].key && j < i < EndOf(reg, w, a, j, v);
    WholeLeft(reg, w, a, b, j, v, inner, ends);
  }

  lemma InsideRight(reg: Registry, w: World, a: seq<Step>, b: seq<Step>, i: nat, inner: set<nat>, ends: set<nat>)
    requires i < |b| && !b[i].Pass? && Inside(reg, Replay(w, a), b, i, inner) && Shifted(|a|, inner, ends)
    ensures Inside(reg, w, a + b, |a| + i, ends)
  {
    var j: nat, v: Invocation :|
      WholeAt(reg, Replay(w, a), b, j, v, inner) && v.ctx.Instance() == b[i].key
      && j < i < EndOf(reg, Replay(w, a), b, j, v);
    WholeRight(reg, w, Replay(w, a), a, b, j, v, inner, ends);
    RunsRight(reg, w, a, b, j, v);
  }

  lemma PurgeLeft(reg: Registry, w: World, a: seq<Step>, b: seq<Step>, i: nat, key: string)
    requires PurgeEndsAt(reg, w, a, i, key)
    ensures PurgeEndsAt(reg, w, a + b, i, key)
  {
    var j: nat, v: Invocation :|
      RunsAt(reg, w, a, j, v) && v.ctx.Instance() == key
      && v.Purges(reg, Replay(w, a[..j + 1])) && EndOf(reg, w, a, j, v) == i + 1;
    RunsLeft(reg, w, a, b, j, v);
  }

  lemma PurgeRight(reg: Registry, w: World, a: seq<Step>, b: seq<Step>, i: nat, key: string)
    requires PurgeEndsAt(reg, Replay(w, a), b, i, key)
    ensures PurgeEndsAt(reg, w, a + b, |a| + i, key)
  {
    var j: nat, v: Invocation :|
      RunsAt(reg, Replay(w, a), b, j, v) && v.ctx.Instance() == key
      && v.Purges(reg, Replay(Replay(w, a), b[..j + 1])) && EndOf(reg, Replay(w, a), b, j, v) == i + 1;
    RunsRight(reg, w, a, b, j, v);
  }

  lemma AccountedConcat(reg: Registry, w: World, a: seq<Step>, b: seq<Step>, me: set<string>,
                        first: set<nat>, second: set<nat>, ends: set<nat>)
    requires Accounted(reg, w, a, me, first) && Accounted(reg, Replay(w, a), b, me, second)
    requires first <= ends && Shifted(|a|, second, ends)
    ensures Accounted(reg, w, a + b, me, ends)
  {
    var t := a + b;
    forall j | 0 <= j < |t| && t[j].Began? ensures Begun(reg, w, t, j, ends) {
      BegunConcat(reg, w, a, b, j, first, second, ends);
    }
    forall i | 0 <= i < |t| && t[i].Wipe? ensures PurgeEndsAt(reg, w, t, i, t[i].key) {
      PurgeConcat(reg, w, a, b, i, t[i].key);
    }
    forall i | 0 <= i < |t| && Changes(t[i]) && t[i].key !in me ensures Inside(reg, w, t, i, ends) {
      InsideConcat(reg, w, a, b, i, first, second, ends);
    }
  }

  lemma BegunConcat(reg: Registry, w: World, a: seq<Step>, b: seq<Step>, j: nat,
                    first: set<nat>, second: set<nat>, ends: set<nat>)
    requires first <= ends && Shifted(|a|, second, ends)
    requires j < |a| ==> Begun(reg, w, a, j, first)
    requires |a| <= j ==> Begun(reg, Replay(w, a), b, j - |a|, second)
    ensures Begun(reg, w, a + b, j, ends)
  {
    if j < |a| {
      BegunLeft(reg, w, a, b, j, first, ends);
    } else {
      BegunRight(reg, w, a, b, j - |a|, second, ends);
    }
  }

  lemma PurgeConcat(reg: Registry, w: World, a: seq<Step>, b: seq<Step>, i: nat, key: string)
    requires i < |a| ==> PurgeEndsAt(reg, w, a, i, key)
    requires |a| <= i ==> PurgeEndsAt(reg, Replay(w, a), b, i - |a|, key)
    ensures PurgeEndsAt(reg, w, a + b, i, key)
  {
    if i < |a| {
      PurgeLeft(reg, w, a, b, i, key);
    } else {
      PurgeRight(reg, w, a, b, i - |a|, key);
    }
  }

  lemma InsideConcat(reg: Registry, w: World, a: seq<Step>, b: seq<Step>, i: nat,
                     first: set<nat>, second: set<nat>, ends: set<nat>)
    requires first <= ends && Shifted(|a|, second, ends) && i < |a + b| && !(a + b)[i].Pass?
    requires i < |a| ==> Inside(reg, w, a, i, first)
    requires |a| <= i ==> Inside(reg, Replay(w, a), b, i - |a|, second)
    ensures Inside(reg, w, a + b, i, ends)
  {
    if i < |a| {
      InsideLeft(reg, w, a, b, i, first, ends);
    } else {
      InsideRight(reg, w, a, b, i - |a|, second, ends);
    }
  }

  predicate Plain(s: Step) { !s.Began? && !Changes(s) }

  lemma PlainAccounted(reg: Registry, w: World, t: seq<Step>, me: set<string>, ends: set<nat>)
    requires forall s | s in t :: Plain(s)
    ensures Accounted(reg, w, t, me, ends)
  {
    assert forall i :: 0 <= i < |t| ==> t[i] in t && Plain(t[i]);
  }

  // ----- What handlers cause -----

  /** Where an outcome ran out of fuel: nowhere, or at its very end. */
  function Cut(o: TaskModel.Outcome): set<nat> { if Ended(o) then {} else {|o.trace|} }

  /** What ended and was then continued is cut where the continuation is. */
  lemma AccountedAfter(reg: Registry, w: World, a: seq<Step>, o: TaskModel.Outcome, me: set<string>)
    requires Accounted(reg, w, a, me, {}) && Accounted(reg, Replay(w, a), o.trace, me, Cut(o))
    ensures Accounted(reg, w, After(a, o).trace, me, Cut(After(a, o)))
  {
    AccountedConcat(reg, w, a, o.trace, me, {}, Cut(o), Cut(After(a, o)));
  }

  /**
   * Up to its own cleanup, everything an invocation causes is accounted for, except what it does to its own instance.
   */
  ghost predicate BodyAccounted(reg: Registry, w: World, ctx: Ctx, p: Prog, onError: Option<(Ctx, Err) -> Prog>,
                                fuel: nat)
    requires ctx.name in reg
  {
    var g := Guarded(reg, w, ctx, p, onError, fuel);
    if EndsInPurge(reg, w, ctx, p, onError, fuel)
    then g.trace != [] && Accounted(reg, w, g.trace[..|g.trace| - 1], {ctx.Instance()}, {})
    else Accounted(reg, w, g.trace, {ctx.Instance()}, Cut(g))
  }

  lemma {:induction false} RunAccounted(reg: Registry, w: World, ctx: Ctx, p: Prog, fuel: nat)
    requires ctx.name in reg
    ensures var o := Run(reg, w, ctx, p, fuel); Accounted(reg, w, o.trace, {ctx.Instance()}, Cut(o))
    decreases fuel, 0
  {
    if fuel > 0 && p.Do? {
      ContinuedAccounted(reg, w, ctx, p.op, p.k, fuel - 1);
    }
  }

  lemma {:induction false} ContinuedAccounted(reg: Registry, w: World, ctx: Ctx, op: Op, k: Result -> Prog, fuel: nat)
    requires ctx.name in reg
    ensures var o := Continued(reg, w, ctx, op, k, fuel); Accounted(reg, w, o.trace, {ctx.Instance()}, Cut(o))
    decreases fuel, 5
  {
    var a := Perform(reg, w, ctx, op, fuel);
    PerformAccounted(reg, w, ctx, op, fuel);
    if !a.result.Halt? {
      RunAccounted(reg, a.world, ctx, k(a.result), fuel);
      PerformSound(reg, w, ctx, op, fuel);
      AccountedAfter(reg, w, a.trace, Run(reg, a.world, ctx, k(a.result), fuel), {ctx.Instance()});
    }
  }

  lemma {:induction false} PerformAccounted(reg: Registry, w: World, ctx: Ctx, op: Op, fuel: nat)
    requires ctx.name in reg
    ensures var o := Perform(reg, w, ctx, op, fuel);
            && Accounted(reg, w, o.trace, {ctx.Instance()}, Cut(o))
            && (op.SendTo? ==> Accounted(reg, w, o.trace, {}, Cut(o)))
    decreases fuel, 4
  {
    if op.SendTo? && op.name in reg {
      HandleEventAccounted(reg, w, op.name, op.id, op.event, fuel);
      DispatchIs(reg, w, ctx, op.name, op.id, op.event, fuel);
    }
  }

  lemma DispatchIs(reg: Registry, w: World, ctx: Ctx, name: string, id: string, event: Json, fuel: nat)
    requires ctx.name in reg && name in reg
    ensures var d, o := Perform(reg, w, ctx, SendTo(name, id, event), fuel), HandleEvent(reg, w, name, id, event, fuel);
            && d.trace == o.trace && d.world == o.world && Cut(d) == Cut(o)
            && d == Dispatch(reg, w, name, id, event, fuel) && (o.result.Value? ==> d.result == o.result)
  {
    assert Perform(reg, w, ctx, SendTo(name, id, event), fuel) == Dispatch(reg, w, name, id, event, fuel);
  }

  lemma {:induction false} HandleEventAccounted(reg: Registry, w: World, name: string, id: string, raw: Json, fuel: nat)
    requires name in reg
    ensures var o := HandleEvent(reg, w, name, id, raw, fuel); Accounted(reg, w, o.trace, {}, Cut(o))
    decreases fuel, 2
  {
    var opening, w1 := [Open(Key(name, id))], Apply(w, Open(Key(name, id)));
    DeliveredIs(reg, w, name, id, raw, fuel);
    PlainAccounted(reg, w, opening, {}, {});
    if reg[name].codec.decodeEvent(raw).Some? {
      var v := Invocation(ContextFor(w, name, id), Some(raw), fuel);
      GuardedAccounted(reg, w1, v.ctx, v.Handler(reg), v.ErrorHandler(reg), fuel);
      OpenedAccounted(reg, w, opening, w1, v);
      assert Cut(HandleEvent(reg, w, name, id, raw, fuel)) == Cut(After(opening, v.Begun(reg, w1)));
    }
  }

  /** What the handler and the error handler it falls back on do, before the invocation concludes. */
  function Hooked(reg: Registry, w: World, ctx: Ctx, p: Prog, onError: Option<(Ctx, Err) -> Prog>, fuel: nat): Outcome
    requires ctx.name in reg
  {
    var o := Run(reg, w, ctx, p, fuel);
    if o.result.Failure? && o.result.e != PurgeSignal && onError.Some?
    then After(o.trace, Run(reg, o.world, ctx, onError.value(ctx, o.result.e), fuel))
    else o
  }

  lemma {:induction false} HookedAccounted(reg: Registry, w: World, ctx: Ctx, p: Prog,
                                           onError: Option<(Ctx, Err) -> Prog>, fuel: nat)
    requires ctx.name in reg
    ensures var o := Hooked(reg, w, ctx, p, onError, fuel); Accounted(reg, w, o.trace, {ctx.Instance()}, Cut(o))
    decreases fuel, 1, 0
  {
    var o := Run(reg, w, ctx, p, fuel);
    RunAccounted(reg, w, ctx, p, fuel);
    if o.result.Failure? && o.result.e != PurgeSignal && onError.Some? {
      var q := onError.value(ctx, o.result.e);
      RunSound(reg, w, ctx, p, fuel);
      RunAccounted(reg, o.world, ctx, q, fuel);
      AccountedAfter(reg, w, o.trace, Run(reg, o.world, ctx, q, fuel), {ctx.Instance()});
    }
  }

  /** An invocation does what its hooks do, and then cleans up if they end in a purge. */
  lemma GuardedIsHooked(reg: Registry, w: World, ctx: Ctx, p: Prog, onError: Option<(Ctx, Err) -> Prog>, fuel: nat)
    requires ctx.name in reg
    ensures var g, o := Guarded(reg, w, ctx, p, onError, fuel), Hooked(reg, w, ctx, p, onError, fuel);
            && (EndsInPurge(reg, w, ctx, p, onError, fuel) <==> o.result == Failure(PurgeSignal))
            && g.trace == o.trace + (if o.result == Failure(PurgeSignal) then [Wipe(ctx.Instance())] else [])
            && (Ended(g) <==> Ended(o))
  {
    var r := Run(reg, w, ctx, p, fuel);
    BothEnd(reg, w, ctx, p, onError, fuel);
    if r.result.Failure? && r.result.e != PurgeSignal && onError.Some? {
      var h := Run(reg, r.world, ctx, onError.value(ctx, r.result.e), fuel);
      assert r.trace + (h.trace + [Wipe(ctx.Instance())]) == r.trace + h.trace + [Wipe(ctx.Instance())];
      assert r.trace + h.trace + [] == r.trace + h.trace;
    } else {
      assert r.trace + [] == r.trace;
    }
  }

  lemma {:induction false} GuardedAccounted(reg: Registry, w: World, ctx: Ctx, p: Prog,
                                            onError: Option<(Ctx, Err) -> Prog>, fuel: nat)
    requires ctx.name in reg
    ensures BodyAccounted(reg, w, ctx, p, onError, fuel)
    decreases fuel, 1
  {
    var g, o := Guarded(reg, w, ctx, p, onError, fuel), Hooked(reg, w, ctx, p, onError, fuel);
    HookedAccounted(reg, w, ctx, p, onError, fuel);
    GuardedIsHooked(reg, w, ctx, p, onError, fuel);
    if o.result == Failure(PurgeSignal) {
      assert g.trace[..|g.trace| - 1] == o.trace;
    } else {
      assert g.trace == o.trace;
    }
  }

  /** With its start in front, an invocation accounts for its own changes and its own cleanup. */
  lemma InvocationAccounted(reg: Registry, w: World, v: Invocation)
    requires v.Valid(reg) && BodyAccounted(reg, w, v.ctx, v.Handler(reg), v.ErrorHandler(reg), v.fuel)
    ensures Accounted(reg, w, v.Begun(reg, w).trace, {}, Cut(v.Begun(reg, w)))
  {
    var o, t, ends := v.Outcome(reg, w), v.Begun(reg, w).trace, Cut(v.Begun(reg, w));
    StartRuns(reg, w, v);
    BegunIs(reg, w, v);
    StartAccounts(reg, w, t, v, ends);
    BodyParts(reg, w, v);
    BodyStarted(reg, w, v.Start(), o.trace, v.Purges(reg, w), v.ctx.Instance(), Cut(o), ends, t);
  }

  /** The body of an invocation: all its steps, or those before its cleanup. */
  ghost predicate BodyOf(reg: Registry, w: World, o: seq<Step>, purges: bool, me: string, inner: set<nat>) {
    if purges then o != [] && o[|o| - 1] == Wipe(me) && Accounted(reg, w, o[..|o| - 1], {me}, {})
    else Accounted(reg, w, o, {me}, inner)
  }

  lemma BodyParts(reg: Registry, w: World, v: Invocation)
    requires v.Valid(reg) && BodyAccounted(reg, w, v.ctx, v.Handler(reg), v.ErrorHandler(reg), v.fuel)
    ensures BodyOf(reg, w, v.Outcome(reg, w).trace, v.Purges(reg, w), v.ctx.Instance(), Cut(v.Outcome(reg, w)))
  {
    if v.Purges(reg, w) {
      PurgeCleansUpLast(reg, w, v.ctx, v.Handler(reg), v.ErrorHandler(reg), v.fuel);
    }
  }

  lemma CleanupLast(start: Step, o: seq<Step>, me: string, t: seq<Step>)
    requires t == [start] + o && o != [] && o[|o| - 1] == Wipe(me)
    ensures t == [start] + (o[..|o| - 1] + [Wipe(me)])
  {
  }

  lemma BodyStarted(reg: Registry, w: World, start: Step, o: seq<Step>, purges: bool, me: string,
                    inner: set<nat>, ends: set<nat>, t: seq<Step>)
    requires start.Began? && t == [start] + o && Shifted(1, inner, ends) && BodyOf(reg, w, o, purges, me, inner)
    requires Begun(reg, w, t, 0, ends) && OwnInside(reg, w, t, me, ends)
    requires purges ==> PurgeEndsAt(reg, w, t, |t| - 1, me)
    ensures Accounted(reg, w, t, {}, ends)
  {
    if purges {
      CleanupLast(start, o, me, t);
      StartWithCleanup(reg, w, start, o[..|o| - 1], me, ends, t);
    } else {
      StartWithBody(reg, w, start, o, me, inner, ends);
    }
  }

  lemma BegunIs(reg: Registry, w: World, v: Invocation)
    requires v.Valid(reg)
    ensures v.Begun(reg, w).trace == [v.Start()] + v.Outcome(reg, w).trace
    ensures Shifted(1, Cut(v.Outcome(reg, w)), Cut(v.Begun(reg, w)))
    ensures Ended(v.Outcome(reg, w)) || |v.Begun(reg, w).trace| in Cut(v.Begun(reg, w))
  {
  }

  /** What an invocation that fills its trace accounts for itself. */
  lemma StartAccounts(reg: Registry, w: World, t: seq<Step>, v: Invocation, ends: set<nat>)
    requires RunsAt(reg, w, t, 0, v) && EndOf(reg, w, t, 0, v) == |t| && Replay(w, t[..1]) == w
    requires Ended(v.Outcome(reg, w)) || |t| in ends
    ensures Begun(reg, w, t, 0, ends)
    ensures v.Purges(reg, w) ==> PurgeEndsAt(reg, w, t, |t| - 1, v.ctx.Instance())
    ensures OwnInside(reg, w, t, v.ctx.Instance(), ends)
  {
    assert WholeAt(reg, w, t, 0, v, ends);
  }

  /** The changes of `me` after the start lie inside an invocation on it. */
  ghost predicate OwnInside(reg: Registry, w: World, t: seq<Step>, me: string, ends: set<nat>) {
    forall i :: 0 < i < |t| && Changes(t[i]) && t[i].key == me ==> Inside(reg, w, t, i, ends)
  }

  lemma StartWithBody(reg: Registry, w: World, start: Step, body: seq<Step>, me: string,
                      inner: set<nat>, ends: set<nat>)
    requires start.Began? && Accounted(reg, w, body, {me}, inner) && Shifted(1, inner, ends)
    requires Begun(reg, w, [start] + body, 0, ends) && OwnInside(reg, w, [start] + body, me, ends)
    ensures Accounted(reg, w, [start] + body, {}, ends)
  {
    assert [start] + (body + []) == [start] + body;
    Framed(reg, w, start, body, [], {me}, inner, ends);
  }

  lemma StartWithCleanup(reg: Registry, w: World, start: Step, body: seq<Step>, me: string,
                         ends: set<nat>, t: seq<Step>)
    requires start.Began? && Accounted(reg, w, body, {me}, {}) && t == [start] + (body + [Wipe(me)])
    requires Begun(reg, w, t, 0, ends) && OwnInside(reg, w, t, me, ends) && PurgeEndsAt(reg, w, t, |t| - 1, me)
    ensures Accounted(reg, w, t, {}, ends)
  {
    Framed(reg, w, start, body, [Wipe(me)], {me}, {}, ends);
    forall i | 0 <= i < |t| && t[i].Wipe? ensures PurgeEndsAt(reg, w, t, i, t[i].key) {
      if i > |body| {
        assert i == |t| - 1 && t[i] == Wipe(me);
      }
    }
  }

  /** Steps accounted for among themselves stay so behind a handler start and before a cleanup. */
  lemma Framed(reg: Registry, w: World, start: Step, body: seq<Step>, tail: seq<Step>, me: set<string>,
               inner: set<nat>, ends: set<nat>)
    requires start.Began? && Accounted(reg, w, body, me, inner) && (forall s | s in tail :: s.Wipe? && s.key in me)
    requires Shifted(1, inner, ends)
    ensures var t := [start] + (body + tail);
            && (forall j :: 0 < j < |t| && t[j].Began? ==> Begun(reg, w, t, j, ends))
            && (forall i :: 0 <= i <= |body| && t[i].Wipe? ==> PurgeEndsAt(reg, w, t, i, t[i].key))
            && (forall i :: 0 <= i < |t| && Changes(t[i]) && t[i].key !in me ==> Inside(reg, w, t, i, ends))
  {
    var t := [start] + (body + tail);
    forall j | 0 < j < |t| && t[j].Began? ensures Begun(reg, w, t, j, ends) {
      BegunFramed(reg, w, start, body, tail, j - 1, inner, ends);
    }
    forall i | 0 <= i <= |body| && t[i].Wipe? ensures PurgeEndsAt(reg, w, t, i, t[i].key) {
      PurgeFramed(reg, w, start, body, tail, i - 1, t[i].key);
    }
    forall i | 0 <= i < |t| && Changes(t[i]) && t[i].key !in me ensures Inside(reg, w, t, i, ends) {
      InsideFramed(reg, w, start, body, tail, i - 1, inner, ends);
    }
  }

  lemma BegunFramed(reg: Registry, w: World, start: Step, body: seq<Step>, tail: seq<Step>, j: nat,
                    inner: set<nat>, ends: set<nat>)
    requires start.Began? && j < |body| && Begun(reg, w, body, j, inner) && Shifted(1, inner, ends)
    ensures Begun(reg, w, [start] + (body + tail), j + 1, ends)
  {
    assert Replay(w, [start]) == w;
    BegunLeft(reg, w, body, tail, j, inner, inner);
    BegunRight(reg, w, [start], body + tail, j, inner, ends);
  }

  lemma PurgeFramed(reg: Registry, w: World, start: Step, body: seq<Step>, tail: seq<Step>, i: nat, key: string)
    requires start.Began? && i < |body| && PurgeEndsAt(reg, w, body, i, key)
    ensures PurgeEndsAt(reg, w, [start] + (body + tail), i + 1, key)
  {
    assert Replay(w, [start]) == w;
    PurgeLeft(reg, w, body, tail, i, key);
    PurgeRight(reg, w, [start], body + tail, i, key);
  }

  lemma InsideFramed(reg: Registry, w: World, start: Step, body: seq<Step>, tail: seq<Step>, i: nat,
                     inner: set<nat>, ends: set<nat>)
    requires start.Began? && i < |body| && !body[i].Pass? && Inside(reg, w, body, i, inner) && Shifted(1, inner, ends)
    ensures Inside(reg, w, [start] + (body + tail), i + 1, ends)
  {
    assert Replay(w, [start]) == w;
    InsideLeft(reg, w, body, tail, i, inner, inner);
    InsideRight(reg, w, [start], body + tail, i, inner, ends);
  }

  lemma OpenedAccounted(reg: Registry, w: World, opening: seq<Step>, w1: World, v: Invocation)
    requires (forall s | s in opening :: Plain(s)) && Replay(w, opening) == w1
    requires v.Valid(reg) && BodyAccounted(reg, w1, v.ctx, v.Handler(reg), v.ErrorHandler(reg), v.fuel)
    ensures var o := After(opening, v.Begun(reg, w1)); Accounted(reg, w, o.trace, {}, Cut(o))
  {
    PlainAccounted(reg, w, opening, {}, {});
    InvocationAccounted(reg, w1, v);
    AccountedAfter(reg, w, opening, v.Begun(reg, w1), {});
  }

  lemma StartRuns(reg: Registry, w: World, v: Invocation)
    requires v.Valid(reg)
    ensures var t := v.Begun(reg, w).trace;
            && RunsAt(reg, w, t, 0, v) && EndOf(reg, w, t, 0, v) == |t|
            && Replay(w, t[..1]) == w
  {
    var t := v.Begun(reg, w).trace;
    assert t[..1] == [v.Start()] && t[1..] == v.Outcome(reg, w).trace;
    assert Replay(w, [v.Start()]) == Apply(w, v.Start()) == w;
  }

  // ----- Whole runs -----

  lemma FiringAccounted(reg: Registry, w: World, name: string, id: string, fuel: nat)
    requires name in reg
    ensures var o := FireInstance(reg, w, name, id, fuel); Accounted(reg, w, o.trace, {}, Cut(o))
  {
    var key, o := Key(name, id), FireInstance(reg, w, name, id, fuel);
    var opening, v := [Open(key), Fire(key)], Invocation(ContextFor(w, name, id), None, fuel);
    OpeningReplays(w, key);
    GuardedAccounted(reg, FireWorld(w, key), v.ctx, v.Handler(reg), v.ErrorHandler(reg), fuel);
    OpenedAccounted(reg, w, opening, FireWorld(w, key), v);
    var fired := After(opening, v.Begun(reg, FireWorld(w, key)));
    FiringIs(reg, w, name, id, fuel);
    PlainAccounted(reg, Replay(w, fired.trace), Settlement(key, o.result), {}, {});
    AccountedConcat(reg, w, fired.trace, Settlement(key, o.result), {}, Cut(fired), {}, Cut(o));
  }

  lemma OpeningReplays(w: World, key: string)
    ensures Replay(w, [Open(key), Fire(key)]) == FireWorld(w, key)
  {
    assert [Open(key), Fire(key)] == [Open(key)] + [Fire(key)];
    ReplayLast(w, [Open(key)], Fire(key));
  }

  lemma FiringIs(reg: Registry, w: World, name: string, id: string, fuel: nat)
    requires name in reg
    ensures var key, o := Key(name, id), FireInstance(reg, w, name, id, fuel);
            var v := Invocation(ContextFor(w, name, id), None, fuel);
            var fired := After([Open(key), Fire(key)], v.Begun(reg, FireWorld(w, key)));
            && o.trace == fired.trace + Settlement(key, o.result) && o.result == fired.result
            && (o.result.Value? || Cut(o) == Cut(fired)) && (o.result.Value? ==> Cut(o) == {} == Cut(fired))
  {
    var key := Key(name, id);
    var v := Invocation(ContextFor(w, name, id), None, fuel);
    assert AlarmBody(reg, FireWorld(w, key), name, id, fuel) == v.Begun(reg, FireWorld(w, key));
    var fired := After([Open(key), Fire(key)], v.Begun(reg, FireWorld(w, key)));
    assert fired.trace + [] == fired.trace;
  }

  lemma {:induction false} FireAllAccounted(reg: Registry, w: World, keys: seq<string>, fuel: nat)
    ensures var o := FireAll(reg, w, keys, fuel); Accounted(reg, w, o.trace, {}, Cut(o))
    decreases |keys|
  {
    if keys != [] {
      var (name, id) := Parse(keys[0]);
      if name !in reg {
        FireAllAccounted(reg, w, keys[1..], fuel);
      } else {
        var o := FireInstance(reg, w, name, id, fuel);
        FiringAccounted(reg, w, name, id, fuel);
        if o.result.Value? {
          FiringShape(reg, w, name, id, fuel);
          FireAllAccounted(reg, o.world, keys[1..], fuel);
          AccountedAfter(reg, w, o.trace, FireAll(reg, o.world, keys[1..], fuel), {});
        }
      }
    }
  }

  lemma CallAccounted(reg: Registry, w: World, call: Call, fuel: nat)
    ensures var o := Invoke(reg, w, call, fuel); Accounted(reg, w, o.trace, {}, Cut(o))
  {
    match call
    case Send(name, id, event) =>
      if name in reg {
        var o, body := Invoke(reg, w, call, fuel), HandleEvent(reg, w, name, id, event, fuel);
        SendShape(reg, w, name, id, event, fuel);
        HandleEventAccounted(reg, w, name, id, event, fuel);
        PlainAccounted(reg, Replay(w, body.trace), Settlement(Key(name, id), o.result), {}, {});
        AccountedConcat(reg, w, body.trace, Settlement(Key(name, id), o.result), {}, Cut(body), {}, Cut(o));
      }
    case FireAlarm(name, id) => if name in reg { FiringAccounted(reg, w, name, id, fuel); }
    case Tick(now) => FireAllAccounted(reg, w, Due(w, now), fuel);
    case _ => PlainAccounted(reg, w, Invoke(reg, w, call, fuel).trace, {}, {});
  }

  /** Where the calls of a run end in its trace. */
  function CallEnds(reg: Registry, w: World, calls: seq<Call>, fuel: nat): set<nat>
    decreases |calls|
  {
    if calls == [] then {}
    else
      var o := Invoke(reg, w, calls[0], fuel);
      {|o.trace|} + set e | e in CallEnds(reg, o.world, calls[1..], fuel) :: |o.trace| + e
  }

  /**
   * Over any run, every handler start begins the invocation it names, whose own steps follow it up to its end, or up to
   * the end of the call when it ran out of fuel; every wipe ends an invocation on the wiped instance that ended in a
   * purge; and storage and alarms change only inside such an invocation on their instance.
   */
  lemma {:induction false} EveryStepAccountedFor(reg: Registry, w: World, calls: seq<Call>, fuel: nat)
    ensures Accounted(reg, w, Serve(reg, w, calls, fuel).trace, {}, CallEnds(reg, w, calls, fuel))
    decreases |calls|
  {
    if calls != [] {
      var o := Invoke(reg, w, calls[0], fuel);
      InvokeFaithful(reg, w, calls[0], fuel);
      CallAccounted(reg, w, calls[0], fuel);
      EveryStepAccountedFor(reg, o.world, calls[1..], fuel);
      AccountedConcat(reg, w, o.trace, Serve(reg, o.world, calls[1..], fuel).trace, {},
                      Cut(o), CallEnds(reg, o.world, calls[1..], fuel), CallEnds(reg, w, calls, fuel));
    }
  }

  /** A start fixes the invocation it begins: any two that come to their end there have the same steps and outcome. */
  lemma StartFixesInvocation(reg: Registry, w: World, t: seq<Step>, j: nat, u: Invocation, v: Invocation)
    requires WholeAt(reg, w, t, j, u, {}) && WholeAt(reg, w, t, j, v, {})
    ensures u.Outcome(reg, Replay(w, t[..j + 1])) == v.Outcome(reg, Replay(w, t[..j + 1]))
  {
    var w1 := Replay(w, t[..j + 1]);
    assert u.ctx == v.ctx && u.event == v.event;
    if u.fuel <= v.fuel {
      GuardedStable(reg, w1, u.ctx, u.Handler(reg), u.ErrorHandler(reg), u.fuel, v.fuel);
    } else {
      GuardedStable(reg, w1, u.ctx, u.Handler(reg), u.ErrorHandler(reg), v.fuel, u.fuel);
    }
  }

  // ----- Purges -----

  lemma PurgeWipesLast(reg: Registry, w: World, t: seq<Step>, i: nat, key: string)
    requires PurgeEndsAt(reg, w, t, i, key)
    ensures i < |t| && t[i] == Wipe(key)
  {
    var j: nat, v: Invocation :|
      RunsAt(reg, w, t, j, v) && v.ctx.Instance() == key
      && v.Purges(reg, Replay(w, t[..j + 1])) && EndOf(reg, w, t, j, v) == i + 1;
    var w1 := Replay(w, t[..j + 1]);
    PurgeCleansUpLast(reg, w1, v.ctx, v.Handler(reg), v.ErrorHandler(reg), v.fuel);
    var own := v.Outcome(reg, w1).trace;
    assert t[j + 1..][|own| - 1] == own[|own| - 1] == Wipe(key);
  }

  lemma WipesEndPurges(reg: Registry, w: World, t: seq<Step>, me: set<string>, ends: set<nat>, key: string)
    requires Accounted(reg, w, t, me, ends)
    ensures forall i :: 0 <= i < |t| ==> (t[i] == Wipe(key) <==> PurgeEndsAt(reg, w, t, i, key))
  {
    forall i | 0 <= i < |t| ensures t[i] == Wipe(key) <==> PurgeEndsAt(reg, w, t, i, key) {
      if t[i] == Wipe(key) {
        assert t[i].Wipe?;
      }
      if PurgeEndsAt(reg, w, t, i, key) {
        PurgeWipesLast(reg, w, t, i, key);
      }
    }
  }

  /** At any moment of any run, an instance is wiped if and only if an invocation begun on it ends there in a purge. */
  lemma WipesArePurges(reg: Registry, w: World, calls: seq<Call>, fuel: nat, i: nat, key: string)
    ensures var t := Serve(reg, w, calls, fuel).trace;
            i < |t| && t[i] == Wipe(key) <==> PurgeEndsAt(reg, w, t, i, key)
  {
    EveryStepAccountedFor(reg, w, calls, fuel);
    WipesEndPurges(reg, w, Serve(reg, w, calls, fuel).trace, {}, CallEnds(reg, w, calls, fuel), key);
    if PurgeEndsAt(reg, w, Serve(reg, w, calls, fuel).trace, i, key) {
      PurgeWipesLast(reg, w, Serve(reg, w, calls, fuel).trace, i, key);
    }
  }

  /** The step puts something into the storage or alarm of `key`. */
  predicate Fills(s: Step, key: string) { On(s, key) && (s.PutState? || s.SetAlarm?) }

  lemma {:induction false} StaysEmpty(w: World, t: seq<Step>, key: string)
    requires At(w, key).storage == map[] && At(w, key).alarm == None && forall s | s in t :: !Fills(s, key)
    ensures At(Replay(w, t), key).storage == map[] && At(Replay(w, t), key).alarm == None
    decreases |t|
  {
    if t != [] {
      assert t[0] in t;
      StaysEmpty(Apply(w, t[0]), t[1..], key);
    }
  }

  /**
   * In any run, from the end of a purging invocation on an instance until a handler of it saves or schedules, it is
   * empty.
   */
  lemma PurgedUntilFilled(reg: Registry, w: World, calls: seq<Call>, fuel: nat, i: nat, m: nat, key: string)
    requires var t := Serve(reg, w, calls, fuel).trace;
             i < m <= |t| && PurgeEndsAt(reg, w, t, i, key) && forall s | s in t[i + 1..m] :: !Fills(s, key)
    ensures var x := At(Replay(w, Serve(reg, w, calls, fuel).trace[..m]), key); x.storage == map[] && x.alarm == None
  {
    var t := Serve(reg, w, calls, fuel).trace;
    PurgeWipesLast(reg, w, t, i, key);
    ReplaySplit(w, t, i, m);
    StaysEmpty(Apply(Replay(w, t[..i]), Wipe(key)), t[i + 1..m], key);
  }

  lemma ReplaySplit(w: World, t: seq<Step>, i: nat, m: nat)
    requires i < m <= |t|
    ensures Replay(w, t[..m]) == Replay(Apply(Replay(w, t[..i]), t[i]), t[i + 1..m])
  {
    assert t[..m] == t[..i] + [t[i]] + t[i + 1..m];
    ReplayLast(w, t[..i], t[i]);
    ReplayConcat(w, t[..i] + [t[i]], t[i + 1..m]);
  }

  // ----- What a handler's dispatches do to others, the handler's own instance included -----

  /** A handler is started on `key`. */
  predicate Starts(s: Step, key: string) { On(s, key) && s.Began? }

  lemma {:induction false} NothingChanges(w: World, t: seq<Step>, key: string)
    requires AllNested(t) && forall s | s in t && On(s, key) :: !Changes(s)
    ensures At(Replay(w, t), key) == At(w, key)
    decreases |t|
  {
    if t != [] {
      assert t[0] in t && Nested(t[0]);
      NothingChanges(Apply(w, t[0]), t[1..], key);
    }
  }

  lemma UnstartedUnchanged(reg: Registry, w: World, t: seq<Step>, me: set<string>, ends: set<nat>, key: string)
    requires Accounted(reg, w, t, me, ends) && AllNested(t) && key !in me && forall s | s in t :: !Starts(s, key)
    ensures At(Replay(w, t), key) == At(w, key)
  {
    forall s | s in t && On(s, key) ensures !Changes(s) {
      var i :| 0 <= i < |t| && t[i] == s;
      if Changes(s) {
        assert Inside(reg, w, t, i, ends);
        var j: nat, v: Invocation :| WholeAt(reg, w, t, j, v, ends) && v.ctx.Instance() == t[i].key
          && j < i < EndOf(reg, w, t, j, v);
        assert t[j] in t && Starts(t[j], key);
      }
    }
    NothingChanges(w, t, key);
  }

  /**
   * While a handler runs, another instance changes only if a handler was started on it, however often its context was
   * opened; and whatever instance is wiped meanwhile, the handler's own included, an invocation begun on it after the
   * handler started ended there in a purge.
   */
  lemma HandlersWipeOnlyByPurges(reg: Registry, w: World, ctx: Ctx, p: Prog, fuel: nat, key: string)
    requires ctx.name in reg
    ensures var o := Run(reg, w, ctx, p, fuel);
            && (key != ctx.Instance() && (forall s | s in o.trace :: !Starts(s, key))
               ==> At(o.world, key) == At(w, key))
            && (forall i :: 0 <= i < |o.trace| ==> (o.trace[i] == Wipe(key) <==> PurgeEndsAt(reg, w, o.trace, i, key)))
  {
    var o := Run(reg, w, ctx, p, fuel);
    RunSound(reg, w, ctx, p, fuel);
    RunAccounted(reg, w, ctx, p, fuel);
    if key != ctx.Instance() && forall s | s in o.trace :: !Starts(s, key) {
      UnstartedUnchanged(reg, w, o.trace, {ctx.Instance()}, Cut(o), key);
    }
    WipesEndPurges(reg, w, o.trace, {ctx.Instance()}, Cut(o), key);
  }

  /**
   * A send whose target ends in a purge succeeds for the sender and empties the target. The sender's own instance, or
   * any other, is not purged with it: it is wiped only where an invocation on it ended in a purge itself, and it is
   * wholly unchanged unless a handler was started on it, even if the target read its state.
   */
  lemma SenderSurvivesPurge(reg: Registry, w: World, ctx: Ctx, name: string, id: string, event: Json, fuel: nat,
                            other: string)
    requires ctx.name in reg && name in reg && other != Key(name, id)
    requires var v := Invocation(ContextFor(w, name, id), Some(event), fuel);
             v.Valid(reg) && v.Purges(reg, Apply(w, Open(Key(name, id))))
    ensures var o := Perform(reg, w, ctx, SendTo(name, id, event), fuel);
            && o.result == Value(JNull)
            && At(o.world, Key(name, id)).storage == map[] && At(o.world, Key(name, id)).alarm == None
            && (forall i :: 0 <= i < |o.trace| ==> (o.trace[i] == Wipe(other)
               <==> PurgeEndsAt(reg, w, o.trace, i, other)))
            && ((forall s | s in o.trace :: !Starts(s, other)) ==> At(o.world, other) == At(w, other))
  {
    var w1, v := Apply(w, Open(Key(name, id))), Invocation(ContextFor(w, name, id), Some(event), fuel);
    var o := Perform(reg, w, ctx, SendTo(name, id, event), fuel);
    PurgeContained(reg, w1, v.ctx, v.Handler(reg), v.ErrorHandler(reg), fuel, other);
    DeliveredIs(reg, w, name, id, event, fuel);
    DispatchIs(reg, w, ctx, name, id, event, fuel);
    DispatchSound(reg, w, name, id, event, fuel);
    PerformAccounted(reg, w, ctx, SendTo(name, id, event), fuel);
    WipesEndPurges(reg, w, o.trace, {}, Cut(o), other);
    if forall s | s in o.trace :: !Starts(s, other) {
      UnstartedUnchanged(reg, w, o.trace, {}, Cut(o), other);
    }
  }
}
