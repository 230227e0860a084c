/** The batching buffer: emit is an append, a read and perhaps a swap, and other fibers may run in between. */
module HttpBatch {
  type FiberId = nat

  /** What a fiber does next. A fiber that is done has no entry. */
  datatype Pending<E> = ToAppend(event: E) | ToRead | ToSwap(emitting: bool)

  /**
   * `emitted` lists the events in the order they were appended, `taken` the batches in the order they were swapped
   * out.
   */
  datatype State<E> = State(buffer: seq<E>, fibers: map<FiberId, Pending<E>>, emitted: seq<E>, taken: seq<seq<E>>)

  datatype Step<E> =
    | StartEmit(f: FiberId, event: E)
    | StartFlush(f: FiberId)
    | Append(f: FiberId)
    | Read(f: FiberId)
    | Swap(f: FiberId)

  predicate Enabled<E>(s: State<E>, step: Step<E>) {
    match step
    case StartEmit(f, _) => f !in s.fibers
    case StartFlush(f) => f !in s.fibers
    case Append(f) => f in s.fibers && s.fibers[f].ToAppend?
    case Read(f) => f in s.fibers && s.fibers[f].ToRead?
    case Swap(f) => f in s.fibers && s.fibers[f].ToSwap?
  }

  function Next<E>(batchSize: int, s: State<E>, step: Step<E>): State<E>
    requires Enabled(s, step)
  {
    match step
    case StartEmit(f, e) => s.(fibers := s.fibers[f := ToAppend(e)])
    case StartFlush(f) => s.(fibers := s.fibers[f := ToSwap(false)])
    case Append(f) =>
      var e := s.fibers[f].event;
      s.(buffer := s.buffer + [e], emitted := s.emitted + [e], fibers := s.fibers[f := ToRead])
    case Read(f) =>
      s.(fibers := if |s.buffer| >= batchSize then s.fibers[f := ToSwap(true)] else s.fibers - {f})
    case Swap(f) =>
      s.(taken := s.taken + [s.buffer], buffer := [], fibers := s.fibers - {f})
  }

  /** Any interleaving: each step is enabled when it is taken. */
  ghost predicate Runs<E>(batchSize: int, s: State<E>, steps: seq<Step<E>>)
    decreases |steps|
  {
    steps == [] || (Enabled(s, steps[0]) && Runs(batchSize, Next(batchSize, s, steps[0]), steps[1..]))
  }

  function Final<E>(batchSize: int, s: State<E>, steps: seq<Step<E>>): State<E>
    requires Runs(batchSize, s, steps)
    decreases |steps|
  {
    if steps == [] then s else Final(batchSize, Next(batchSize, s, steps[0]), steps[1..])
  }

  function Initial<E>(): State<E> { State([], map[], [], []) }

  // ----- Nothing is lost, repeated or reordered -----

  function Flat<E>(batches: seq<seq<E>>): seq<E> {
    if batches == [] then [] else Flat(batches[..|batches| - 1]) + batches[|batches| - 1]
  }

  ghost predicate Conserved<E>(s: State<E>) { Flat(s.taken) + s.buffer == s.emitted }

  lemma StepConserves<E>(batchSize: int, s: State<E>, step: Step<E>)
    requires Enabled(s, step) && Conserved(s)
    ensures Conserved(Next(batchSize, s, step))
  {
  }

  lemma {:induction false} RunConserves<E>(batchSize: int, s: State<E>, steps: seq<Step<E>>)
    requires Runs(batchSize, s, steps) && Conserved(s)
    ensures Conserved(Final(batchSize, s, steps))
    decreases |steps|
  {
    if steps != [] {
      StepConserves(batchSize, s, steps[0]);
      RunConserves(batchSize, Next(batchSize, s, steps[0]), steps[1..]);
    }
  }

  // ----- How full the buffer and the batches get -----

  /** Emits that have appended and not yet finished: they will look at the buffer or empty it. */
  function InFlight<E>(s: State<E>): set<FiberId> {
    set f | f in s.fibers && (s.fibers[f].ToRead? || s.fibers[f] == ToSwap(true))
  }

  function Limit(batchSize: int): nat { if batchSize >= 1 then batchSize else 1 }

  predicate Bounded<E>(batchSize: int, s: State<E>) {
    |s.buffer| < Limit(batchSize) + |InFlight(s)|
  }

  lemma StepBounded<E>(batchSize: int, s: State<E>, step: Step<E>)
    requires Enabled(s, step) && Bounded(batchSize, s)
    ensures Bounded(batchSize, Next(batchSize, s, step))
  {
    var n := Next(batchSize, s, step);
    match step
    case StartEmit(f, e) => assert InFlight(n) == InFlight(s);
    case StartFlush(f) => assert InFlight(n) == InFlight(s);
    case Append(f) =>
      assert f !in InFlight(s);
      assert InFlight(n) == InFlight(s) + {f};
    case Read(f) =>
      if |s.buffer| >= batchSize {
        assert InFlight(n) == InFlight(s);
      }
    case Swap(f) =>
  }

  lemma {:induction false} RunBounded<E>(batchSize: int, s: State<E>, steps: seq<Step<E>>)
    requires Runs(batchSize, s, steps) && Bounded(batchSize, s)
    ensures Bounded(batchSize, Final(batchSize, s, steps))
    decreases |steps|
  {
    if steps != [] {
      StepBounded(batchSize, s, steps[0]);
      RunBounded(batchSize, Next(batchSize, s, steps[0]), steps[1..]);
    }
  }

  /**
   * Under every interleaving of emits and flushes, the batches taken so far and the buffer are the emitted events in
   * order; the buffer exceeds the batch size by no more than the emits in flight, so with none in flight it is shorter
   * than the batch size (shorter than 1 when the batch size is not positive).
   */
  lemma EveryInterleaving<E>(batchSize: int, steps: seq<Step<E>>)
    requires Runs(batchSize, Initial<E>(), steps)
    ensures var s := Final(batchSize, Initial<E>(), steps);
            && Flat(s.taken) + s.buffer == s.emitted
            && |s.buffer| < Limit(batchSize) + |InFlight(s)|
            && (InFlight(s) == {} ==> |s.buffer| < Limit(batchSize))
  {
    RunConserves(batchSize, Initial<E>(), steps);
    RunBounded(batchSize, Initial<E>(), steps);
  }

  // ----- Batch sizes under concurrency -----

  /** No state of the run has more than `limit` emits in flight. */
  ghost predicate Narrow<E>(batchSize: int, s: State<E>, steps: seq<Step<E>>, limit: nat)
    requires Runs(batchSize, s, steps)
    decreases |steps|
  {
    |InFlight(s)| <= limit &&
    (steps == [] || Narrow(batchSize, Next(batchSize, s, steps[0]), steps[1..], limit))
  }

  /** With at most n emits in flight at a time, no batch holds more than n - 1 events over the batch size. */
  lemma {:induction false} BatchesBounded<E>(batchSize: int, s: State<E>, steps: seq<Step<E>>, limit: nat)
    requires Runs(batchSize, s, steps) && Bounded(batchSize, s) && Narrow(batchSize, s, steps, limit)
    requires forall b | b in s.taken :: |b| < Limit(batchSize) + limit
    ensures forall b | b in Final(batchSize, s, steps).taken :: |b| < Limit(batchSize) + limit
    decreases |steps|
  {
    if steps != [] {
      StepBounded(batchSize, s, steps[0]);
      BatchesBounded(batchSize, Next(batchSize, s, steps[0]), steps[1..], limit);
    }
  }

  /**
   * Between an emit's read that finds the batch full and its swap, the batch can shrink only if another fiber swaps:
   * without one, the batch the emit takes has at least batchSize events.
   */
  lemma {:induction false} FullUnlessOvertaken<E>(batchSize: int, s: State<E>, f: FiberId, between: seq<Step<E>>)
    requires Enabled(s, Read(f)) && |s.buffer| >= batchSize
    requires Runs(batchSize, Next(batchSize, s, Read(f)), between)
    requires forall step | step in between :: !step.Swap?
    ensures var s1 := Final(batchSize, Next(batchSize, s, Read(f)), between);
            && Enabled(s1, Swap(f))
            && s.buffer <= s1.buffer && |Next(batchSize, s1, Swap(f)).taken[|s1.taken|]| >= batchSize
  {
    BufferGrows(batchSize, Next(batchSize, s, Read(f)), f, between);
  }

  lemma {:induction false} BufferGrows<E>(batchSize: int, s: State<E>, f: FiberId, steps: seq<Step<E>>)
    requires Runs(batchSize, s, steps) && Enabled(s, Swap(f))
    requires forall step | step in steps :: !step.Swap?
    ensures Enabled(Final(batchSize, s, steps), Swap(f)) && s.buffer <= Final(batchSize, s, steps).buffer
    decreases |steps|
  {
    if steps != [] {
      assert !steps[0].Swap?;
      BufferGrows(batchSize, Next(batchSize, s, steps[0]), f, steps[1..]);
    }
  }

  // ----- What a flush delivers -----

  lemma {:induction false} RunKeepsFlush<E>(batchSize: int, s: State<E>, f: FiberId, steps: seq<Step<E>>)
    requires Runs(batchSize, s, steps) && f in s.fibers && s.fibers[f] == ToSwap(false)
    requires Swap(f) !in steps
    ensures var s1 := Final(batchSize, s, steps);
            f in s1.fibers && s1.fibers[f] == ToSwap(false) && s.emitted <= s1.emitted
    decreases |steps|
  {
    if steps != [] {
      assert steps[0] != Swap(f);
      RunKeepsFlush(batchSize, Next(batchSize, s, steps[0]), f, steps[1..]);
    }
  }

  /**
   * Whatever other fibers do between the start of a flush and its swap, the swap takes the whole buffer as one batch
   * and leaves it empty, so that every event appended before, and before the flush was started, is in some batch.
   */
  lemma FlushDelivers<E>(batchSize: int, s: State<E>, f: FiberId, between: seq<Step<E>>)
    requires Conserved(s) && f !in s.fibers && Swap(f) !in between
    requires Runs(batchSize, Next(batchSize, s, StartFlush(f)), between)
    ensures var s1 := Final(batchSize, Next(batchSize, s, StartFlush(f)), between);
            && Enabled(s1, Swap(f))
            && var n := Next(batchSize, s1, Swap(f));
               && n.buffer == [] && n.taken == s1.taken + [s1.buffer] && f !in n.fibers
               && s.emitted <= n.emitted == Flat(n.taken)
  {
    RunKeepsFlush(batchSize, Next(batchSize, s, StartFlush(f)), f, between);
    RunConserves(batchSize, Next(batchSize, s, StartFlush(f)), between);
    StepConserves(batchSize, Final(batchSize, Next(batchSize, s, StartFlush(f)), between), Swap(f));
  }

  // ----- The tracker object, used by one fiber at a time -----

  class Tracker<E> {
    const batchSize: int
    var buffer: seq<E>
    /** Batches given to sendBatch's request; an empty batch makes none. */
    var sent: seq<seq<E>>

    constructor (batchSize: int)
      ensures this.batchSize == batchSize && buffer == [] && sent == []
    {
      this.batchSize := batchSize;
      buffer, sent := [], [];
    }

    method SendBatch(events: seq<E>)
      modifies this`sent
      ensures sent == if events == [] then old(sent) else old(sent) + [events]
    {
      if |events| != 0 {
        sent := sent + [events];
      }
    }

    method Flush()
      modifies this
      ensures buffer == []
      ensures sent == if old(buffer) == [] then old(sent) else old(sent) + [old(buffer)]
      ensures Flat(sent) + buffer == Flat(old(sent)) + old(buffer)
    {
      var events := buffer;
      buffer := [];
      SendBatch(events);
      assert sent != old(sent) ==> sent[..|sent| - 1] == old(sent);
    }

    method Emit(event: E)
      modifies this
      ensures (buffer, sent) == Emitted(batchSize, old(buffer), old(sent), event)
      ensures Flat(sent) + buffer == Flat(old(sent)) + old(buffer) + [event]
    {
      buffer := buffer + [event];
      var current := buffer;
      if |current| >= batchSize {
        Flush();
      }
    }

    method PendingCount() returns (n: nat)
      ensures n == |buffer|
    {
      n := |buffer|;
    }
  }

  /** One emit on its own. */
  function Emitted<E>(batchSize: int, buffer: seq<E>, sent: seq<seq<E>>, event: E): (seq<E>, seq<seq<E>>) {
    if |buffer| + 1 >= batchSize then ([], sent + [buffer + [event]]) else (buffer + [event], sent)
  }

  function EmitAll<E>(batchSize: int, buffer: seq<E>, sent: seq<seq<E>>, events: seq<E>): (seq<E>, seq<seq<E>>)
    decreases |events|
  {
    if events == [] then (buffer, sent)
    else
      var (b, s) := Emitted(batchSize, buffer, sent, events[0]);
      EmitAll(batchSize, b, s, events[1..])
  }

  /** The uninterrupted emit of the protocol is the tracker's Emit. */
  lemma EmitIsUninterruptedRun<E>(batchSize: int, s: State<E>, f: FiberId, event: E)
    requires f !in s.fibers
    ensures var s1 := Next(batchSize, Next(batchSize, Next(batchSize, s, StartEmit(f, event)), Append(f)), Read(f));
            var s2 := if Enabled(s1, Swap(f)) then Next(batchSize, s1, Swap(f)) else s1;
            && (s2.buffer, s2.taken) == Emitted(batchSize, s.buffer, s.taken, event)
            && s2.emitted == s.emitted + [event]
            && s2.fibers == s.fibers
  {
  }

  /** Without interleaving, every batch sent has exactly the batch size and fewer than that many events stay behind. */
  lemma {:induction false} SequentialBatches<E>(batchSize: int, buffer: seq<E>, sent: seq<seq<E>>, events: seq<E>)
    requires |buffer| < Limit(batchSize) && forall b | b in sent :: |b| == Limit(batchSize)
    ensures var (b, s) := EmitAll(batchSize, buffer, sent, events);
            && |b| < Limit(batchSize)
            && (forall x | x in s :: |x| == Limit(batchSize))
            && Flat(s) + b == Flat(sent) + buffer + events
    decreases |events|
  {
    if events != [] {
      var (b, s) := Emitted(batchSize, buffer, sent, events[0]);
      OneEmit(batchSize, buffer, sent, events[0]);
      SequentialBatches(batchSize, b, s, events[1..]);
      assert Flat(sent) + buffer + [events[0]] + events[1..] == Flat(sent) + buffer + events;
    }
  }

  lemma OneEmit<E>(batchSize: int, buffer: seq<E>, sent: seq<seq<E>>, event: E)
    requires |buffer| < Limit(batchSize) && forall b | b in sent :: |b| == Limit(batchSize)
    ensures var (b, s) := Emitted(batchSize, buffer, sent, event);
            && |b| < Limit(batchSize)
            && (forall x | x in s :: |x| == Limit(batchSize))
            && Flat(s) + b == Flat(sent) + buffer + [event]
  {
  }
}
