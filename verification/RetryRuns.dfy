/** Whole retry sequences: what an in-memory loop would do, how long they last, and what crashes can leave behind. */
module RetryRuns {
  import opened Values
  import opened Backoff
  import opened RetryExecutor

  /** How often the effect ran and how the sequence ended; it has not ended when the wake-ups run out first. */
  datatype Outcome = Outcome(executions: nat, end: Option<Signal>)

  function Ran(b: bool): nat { if b then 1 else 0 }

  /** The durable loop: one call per wake-up, state carried in storage alone, until a call does not ask for another. */
  function Drive(cfg: Config, s: Store, turns: seq<Turn>): Outcome
    requires AttemptOf(s) >= 1
    decreases |turns|
  {
    if turns == [] then Outcome(0, None)
    else
      var p := PlanFor(cfg, s, turns[0]);
      if !p.signal.Scheduled? then Outcome(Ran(p.ran), Some(p.signal))
      else
        NextStore(cfg, s, turns[0]);
        var rest := Drive(cfg, Next(cfg, s, turns[0]), turns[1..]);
        Outcome(Ran(p.ran) + rest.executions, rest.end)
  }

  function Plus(n: nat, o: Outcome): Outcome { o.(executions := n + o.executions) }

  /** The same retries as a plain loop: an attempt counter and a start time in memory, and no storage. */
  function LoopFrom(cfg: Config, start: real, attempt: nat, turns: seq<Turn>): Outcome
    decreases |turns|
  {
    if turns == [] then Outcome(0, None)
    else
      var t := turns[0];
      if cfg.maxDuration.Some? && t.now - start >= cfg.maxDuration.value then
        Outcome(0, Some(Exhausted(attempt, None, t.now - start, MaxDuration)))
      else
        match t.answer
        case Success(v) => Outcome(1, Some(Returned(v)))
        case Terminate => Outcome(1, Some(Terminated))
        case Failure(e) =>
          if attempt >= cfg.maxAttempts then
            Outcome(1, Some(Exhausted(attempt, Some(e), t.now - start, MaxAttempts)))
          else Plus(1, LoopFrom(cfg, start, attempt + 1, turns[1..]))
  }

  /** Storage in the middle of a sequence: a later attempt always has its start time and last error. */
  predicate MidSequence(cfg: Config, s: Store, start: real) {
    s.attempt.Some? && 2 <= s.attempt.value <= cfg.maxAttempts && s.startedAt == Some(start) && s.lastError.Some?
  }

  lemma {:induction false} LaterTurnsLoop(cfg: Config, s: Store, start: real, turns: seq<Turn>)
    requires MidSequence(cfg, s, start)
    ensures Drive(cfg, s, turns) == LoopFrom(cfg, start, AttemptOf(s), turns)
    decreases |turns|
  {
    if turns != [] && PlanFor(cfg, s, turns[0]).signal.Scheduled? {
      NextStore(cfg, s, turns[0]);
      LaterTurnsLoop(cfg, Next(cfg, s, turns[0]), start, turns[1..]);
    }
  }

  /**
   * From any storage without a pending retry, fresh or left by an earlier sequence, the durable loop is the plain
   * one.
   */
  lemma FirstTurnsLoop(cfg: Config, s: Store, turns: seq<Turn>)
    requires AttemptOf(s) == 1 && turns != []
    ensures Drive(cfg, s, turns) == LoopFrom(cfg, turns[0].now, 1, turns)
  {
    if PlanFor(cfg, s, turns[0]).signal.Scheduled? {
      NextStore(cfg, s, turns[0]);
      LaterTurnsLoop(cfg, Next(cfg, s, turns[0]), turns[0].now, turns[1..]);
    }
  }

  lemma DriveIsLoop(cfg: Config, turns: seq<Turn>)
    requires turns != []
    ensures Drive(cfg, FRESH, turns) == LoopFrom(cfg, turns[0].now, 1, turns)
  {
    FirstTurnsLoop(cfg, FRESH, turns);
  }

  // ----- What the outcome of a sequence says -----

  function Max(a: int, b: int): int { if a >= b then a else b }

  predicate AllFail(turns: seq<Turn>, n: nat)
    requires n <= |turns|
  {
    forall i :: 0 <= i < n ==> turns[i].answer.Failure?
  }

  /**
   * The effect runs at most max(1, maxAttempts) times, once per wake-up. A result or a termination is the first answer
   * that is not a failure. Running out of attempts reports as many attempts as there were executions, all of them
   * failures and as many as allowed; running out of time reports one attempt more than there were executions. Both
   * report the time from the start to the call that found it.
   */
  ghost predicate Explained(cfg: Config, o: Outcome, start: real, attempt: nat, turns: seq<Turn>) {
    var n := o.executions;
    && n <= |turns| && n <= Max(1, cfg.maxAttempts - attempt + 1)
    && (|turns| >= Max(1, cfg.maxAttempts - attempt + 1) ==> o.end.Some?)
    && (o.end.None? ==> n == |turns| && AllFail(turns, n))
    && (o.end.Some? ==>
          match o.end.value
          case Returned(v) => n > 0 && turns[n - 1].answer == Success(v) && AllFail(turns, n - 1)
          case Terminated => n > 0 && turns[n - 1].answer == Terminate && AllFail(turns, n - 1)
          case Exhausted(attempts, error, total, MaxAttempts) =>
            && n == Max(1, cfg.maxAttempts - attempt + 1) && AllFail(turns, n)
            && attempts == attempt + n - 1 && error == Some(turns[n - 1].answer.error)
            && total == turns[n - 1].now - start
          case Exhausted(attempts, error, total, MaxDuration) =>
            && n < |turns| && AllFail(turns, n) && attempts == attempt + n && error == None
            && cfg.maxDuration.Some? && total == turns[n].now - start >= cfg.maxDuration.value
          case Scheduled(_, _) => false)
  }

  lemma {:induction false} LoopExplained(cfg: Config, start: real, attempt: nat, turns: seq<Turn>)
    requires attempt >= 1
    ensures Explained(cfg, LoopFrom(cfg, start, attempt, turns), start, attempt, turns)
    decreases |turns|
  {
    if turns != [] && turns[0].answer.Failure? && attempt < cfg.maxAttempts
       && !(cfg.maxDuration.Some? && turns[0].now - start >= cfg.maxDuration.value) {
      LoopExplained(cfg, start, attempt + 1, turns[1..]);
      var n := LoopFrom(cfg, start, attempt + 1, turns[1..]).executions;
      assert forall i :: 0 < i < |turns| ==> turns[i] == turns[1..][i - 1];
    }
  }

  lemma SequencesExplained(cfg: Config, turns: seq<Turn>)
    requires turns != []
    ensures Explained(cfg, Drive(cfg, FRESH, turns), turns[0].now, 1, turns)
  {
    DriveIsLoop(cfg, turns);
    LoopExplained(cfg, turns[0].now, 1, turns);
  }

  /** maxAttempts counts executions, not retries: an always failing effect runs maxAttempts + 1 times only for zero. */
  lemma MaxAttemptsCountsExecutions(cfg: Config, turns: seq<Turn>)
    requires cfg.maxDuration.None? && cfg.maxAttempts >= 0
    requires |turns| >= cfg.maxAttempts + 1 && AllFail(turns, |turns|)
    ensures Drive(cfg, FRESH, turns).executions == Max(1, cfg.maxAttempts)
    ensures Drive(cfg, FRESH, turns).executions == cfg.maxAttempts + 1 <==> cfg.maxAttempts == 0
  {
    SequencesExplained(cfg, turns);
    DriveIsLoop(cfg, turns);
    LoopWithoutDeadline(cfg, turns[0].now, 1, turns);
  }

  lemma {:induction false} LoopWithoutDeadline(cfg: Config, start: real, attempt: nat, turns: seq<Turn>)
    requires cfg.maxDuration.None?
    ensures var end := LoopFrom(cfg, start, attempt, turns).end;
            end.Some? && end.value.Exhausted? ==> end.value.reason == MaxAttempts
    decreases |turns|
  {
    if turns != [] {
      LoopWithoutDeadline(cfg, start, attempt + 1, turns[1..]);
    }
  }

  // ----- Independence of sequences -----

  /** Each scheduled retry uses up one attempt, and a finished sequence leaves none of the four keys behind. */
  lemma EveryCallProgresses(cfg: Config, s: Store, t: Turn)
    requires AttemptOf(s) >= 1
    ensures var p, n := PlanFor(cfg, s, t), Next(cfg, s, t);
            && (p.signal.Scheduled? ==> 0 <= cfg.maxAttempts - AttemptOf(n) < cfg.maxAttempts - AttemptOf(s))
            && (p.signal.Returned? || p.signal.Exhausted? ==> n == FRESH.(alarm := s.alarm))
            && (p.signal.Terminated? ==> n.attempt == s.attempt)
  {
    NextStore(cfg, s, t);
  }

  /**
   * Leftover storage is harmless exactly when it holds no number of a later attempt: otherwise some next sequence
   * differs from one started fresh.
   */
  lemma IndependentExactlyWithoutRetry(cfg: Config, s: Store)
    requires AttemptOf(s) >= 1
    ensures (forall turns :: Drive(cfg, s, turns) == Drive(cfg, FRESH, turns)) <==> AttemptOf(s) == 1
  {
    if AttemptOf(s) == 1 {
      forall turns ensures Drive(cfg, s, turns) == Drive(cfg, FRESH, turns) {
        if turns != [] {
          FirstTurnsLoop(cfg, s, turns);
          FirstTurnsLoop(cfg, FRESH, turns);
        }
      }
    } else {
      var shown := LeftoverShows(cfg, s);
    }
  }

  lemma LeftoverShows(cfg: Config, s: Store) returns (turns: seq<Turn>)
    requires AttemptOf(s) >= 2
    ensures Drive(cfg, s, turns) != Drive(cfg, FRESH, turns)
  {
    var failing := Turn(0.0, Failure(""), 0.5);
    if AttemptOf(s) <= cfg.maxAttempts {
      turns := seq(cfg.maxAttempts, i => failing);
      FirstTurnsLoop(cfg, FRESH, turns);
      LoopExplained(cfg, 0.0, 1, turns);
      LaterDrive(cfg, s, turns);
    } else {
      turns := [failing];
      FirstTurnsLoop(cfg, FRESH, turns);
      assert Drive(cfg, s, turns).end.value.Exhausted? && Drive(cfg, s, turns).end.value.attempts == AttemptOf(s);
    }
  }

  /** From a stored attempt on, fewer executions are left, and every report names a later attempt. */
  lemma {:induction false} LaterDrive(cfg: Config, s: Store, turns: seq<Turn>)
    requires s.attempt.Some? && 2 <= s.attempt.value <= cfg.maxAttempts
    ensures Drive(cfg, s, turns).executions <= cfg.maxAttempts - s.attempt.value + 1
    ensures var end := Drive(cfg, s, turns).end;
            end.Some? && end.value.Exhausted? && end.value.reason == MaxDuration ==>
              end.value.attempts == s.attempt.value + Drive(cfg, s, turns).executions
    decreases |turns|
  {
    if turns != [] && PlanFor(cfg, s, turns[0]).signal.Scheduled? {
      NextStore(cfg, s, turns[0]);
      LaterDrive(cfg, Next(cfg, s, turns[0]), turns[1..]);
    }
  }

  /** The storage that a driven sequence leaves. */
  function Leaves(cfg: Config, s: Store, turns: seq<Turn>): (left: Store)
    requires AttemptOf(s) >= 1
    ensures AttemptOf(left) >= 1
    decreases |turns|
  {
    if turns == [] then s
    else
      NextStore(cfg, s, turns[0]);
      var n := Next(cfg, s, turns[0]);
      if PlanFor(cfg, s, turns[0]).signal.Scheduled? then Leaves(cfg, n, turns[1..]) else n
  }

  lemma {:induction false} LaterLeaves(cfg: Config, s: Store, turns: seq<Turn>)
    requires AttemptOf(s) >= 2 && Drive(cfg, s, turns).end.Some?
    ensures Leaves(cfg, s, turns).attempt
            == if Drive(cfg, s, turns).end == Some(Terminated)
               then Some(AttemptOf(s) + Drive(cfg, s, turns).executions - 1)
               else None
    decreases |turns|
  {
    NextStore(cfg, s, turns[0]);
    if PlanFor(cfg, s, turns[0]).signal.Scheduled? {
      LaterLeaves(cfg, Next(cfg, s, turns[0]), turns[1..]);
    }
  }

  lemma {:induction false} TerminatedRan(cfg: Config, s: Store, turns: seq<Turn>)
    requires AttemptOf(s) >= 1 && Drive(cfg, s, turns).end == Some(Terminated)
    ensures Drive(cfg, s, turns).executions >= 1
    decreases |turns|
  {
  }

  /**
   * A sequence that has ended leaves the number of its last attempt behind exactly when that attempt was terminated and
   * was not the first; any other end, and a termination of the first attempt, leave none.
   */
  lemma EndedSequenceLeaves(cfg: Config, s: Store, turns: seq<Turn>)
    requires s.attempt.None? && Drive(cfg, s, turns).end.Some?
    ensures var o := Drive(cfg, s, turns);
            Leaves(cfg, s, turns).attempt
            == if o.end == Some(Terminated) && o.executions >= 2 then Some(o.executions) else None
  {
    NextStore(cfg, s, turns[0]);
    if PlanFor(cfg, s, turns[0]).signal.Scheduled? {
      LaterLeaves(cfg, Next(cfg, s, turns[0]), turns[1..]);
      if Drive(cfg, s, turns).end == Some(Terminated) {
        TerminatedRan(cfg, Next(cfg, s, turns[0]), turns[1..]);
      }
    }
  }

  /**
   * After a sequence from fresh storage has ended, every next sequence, under whatever config, behaves as from fresh
   * storage, if and only if the ended one was not terminated on its second or a later attempt.
   */
  lemma NextSequenceIndependent(cfg: Config, turns: seq<Turn>, later: Config)
    requires Drive(cfg, FRESH, turns).end.Some?
    ensures var o := Drive(cfg, FRESH, turns);
            (forall next :: Drive(later, Leaves(cfg, FRESH, turns), next) == Drive(later, FRESH, next))
            <==> !(o.end == Some(Terminated) && o.executions >= 2)
  {
    EndedSequenceLeaves(cfg, FRESH, turns);
    IndependentExactlyWithoutRetry(later, Leaves(cfg, FRESH, turns));
  }

  /**
   * Such a sequence exists: a failure and then a termination leave attempt 2 behind, and the next sequence starts
   * there.
   */
  lemma FailThenTerminate(cfg: Config, first: Turn, second: Turn)
    requires cfg.maxAttempts >= 2 && first.answer.Failure? && second.answer.Terminate?
    requires !OverTime(cfg, Some(first.now), first.now) && !OverTime(cfg, Some(first.now), second.now)
    ensures Drive(cfg, FRESH, [first, second]) == Outcome(2, Some(Terminated))
    ensures Leaves(cfg, FRESH, [first, second]).attempt == Some(2)
    ensures exists next :: Drive(cfg, Leaves(cfg, FRESH, [first, second]), next) != Drive(cfg, FRESH, next)
  {
    var turns := [first, second];
    assert turns[1..] == [second] && [second][1..] == [];
    NextStore(cfg, FRESH, first);
    NextStore(cfg, Next(cfg, FRESH, first), second);
    assert Drive(cfg, Next(cfg, FRESH, first), [second]) == Outcome(1, Some(Terminated));
    assert Drive(cfg, FRESH, turns) == Outcome(2, Some(Terminated));
    EndedSequenceLeaves(cfg, FRESH, turns);
    var next := LeftoverShows(cfg, Leaves(cfg, FRESH, turns));
  }

  // ----- Time -----

  /** The storage after the first n calls of a run. */
  function StoreAfter(cfg: Config, s: Store, turns: seq<Turn>, n: nat): (left: Store)
    requires AttemptOf(s) >= 1 && n <= |turns|
    ensures AttemptOf(left) >= 1
    decreases n
  {
    if n == 0 then s
    else
      NextStore(cfg, s, turns[0]);
      StoreAfter(cfg, Next(cfg, s, turns[0]), turns[1..], n - 1)
  }

  /** The calls up to the k-th come no earlier than the alarm that the call before has left. */
  ghost predicate NeverEarly(cfg: Config, turns: seq<Turn>, k: nat) {
    forall i :: 0 < i < k && i < |turns| ==>
      var alarm := StoreAfter(cfg, FRESH, turns, i).alarm;
      alarm.Some? ==> turns[i].now >= alarm.value
  }

  /** While more executions follow, each call leaves an alarm at its own time plus the delay for its attempt. */
  lemma {:induction false} AlarmLeft(cfg: Config, s: Store, turns: seq<Turn>, n: nat)
    requires AttemptOf(s) >= 1 && 1 <= n <= |turns| && n < Drive(cfg, s, turns).executions
    ensures StoreAfter(cfg, s, turns, n).alarm
            == Some(turns[n - 1].now + DelayMs(cfg, AttemptOf(s) + n - 1, turns[n - 1].random))
    decreases n
  {
    NextStore(cfg, s, turns[0]);
    if n > 1 {
      AlarmLeft(cfg, Next(cfg, s, turns[0]), turns[1..], n - 1);
    } else {
      assert StoreAfter(cfg, Next(cfg, s, turns[0]), turns[1..], 0) == Next(cfg, s, turns[0]);
    }
  }

  function Waited(cfg: Config, turns: seq<Turn>, n: nat): real
    requires n <= |turns|
  {
    if n == 0 then 0.0 else Waited(cfg, turns, n - 1) + DelayMs(cfg, n, turns[n - 1].random)
  }

  lemma {:induction false} WaitsAddUp(cfg: Config, turns: seq<Turn>, n: nat, k: nat)
    requires n < k <= |turns| && k <= Drive(cfg, FRESH, turns).executions && NeverEarly(cfg, turns, k)
    ensures turns[n].now - turns[0].now >= Waited(cfg, turns, n)
  {
    if n > 0 {
      WaitsAddUp(cfg, turns, n - 1, k);
      AlarmLeft(cfg, FRESH, turns, n);
    }
  }

  /** The k-th execution of a sequence happens before its deadline. */
  lemma {:induction false} ExecutionsBeforeDeadline(cfg: Config, start: real, attempt: nat, turns: seq<Turn>, k: nat)
    requires 1 <= k <= LoopFrom(cfg, start, attempt, turns).executions && cfg.maxDuration.Some?
    ensures k <= |turns| && turns[k - 1].now - start < cfg.maxDuration.value
    decreases |turns|
  {
    if k > 1 {
      ExecutionsBeforeDeadline(cfg, start, attempt + 1, turns[1..], k - 1);
    }
  }

  /** If the k-th execution happens, the delays of the k - 1 retries before it fit into the allowed duration. */
  lemma DelaysFitDuration(cfg: Config, turns: seq<Turn>, k: nat)
    requires turns != [] && NeverEarly(cfg, turns, k) && cfg.maxDuration.Some?
    requires 1 <= k <= Drive(cfg, FRESH, turns).executions
    ensures k <= |turns| && Waited(cfg, turns, k - 1) < cfg.maxDuration.value
  {
    DriveIsLoop(cfg, turns);
    ExecutionsBeforeDeadline(cfg, turns[0].now, 1, turns, k);
    WaitsAddUp(cfg, turns, k - 1, k);
  }

  /** Every call up to the k-th comes exactly at the alarm that the call before has left. */
  ghost predicate OnTime(cfg: Config, turns: seq<Turn>, k: nat) {
    forall i :: 0 < i < k && i < |turns| ==> StoreAfter(cfg, FRESH, turns, i).alarm == Some(turns[i].now)
  }

  /** A delay, n times over. */
  function Over(ms: real, n: nat): real { if n == 0 then 0.0 else Over(ms, n - 1) + ms }

  /** With calls on time and no jitter, a fixed delay of ms puts the k-th execution (k - 1) * ms after the first. */
  lemma {:induction false} FixedDelaysKeepTime(cfg: Config, ms: real, turns: seq<Turn>, k: nat)
    requires cfg.delay == Fixed(ms) && cfg.jitter == Some(false) && OnTime(cfg, turns, k)
    requires 1 <= k <= |turns| && k <= Drive(cfg, FRESH, turns).executions
    ensures turns[k - 1].now == turns[0].now + Over(ms, k - 1)
  {
    if k > 1 {
      FixedDelaysKeepTime(cfg, ms, turns, k - 1);
      AlarmLeft(cfg, FRESH, turns, k - 1);
      assert DelayMs(cfg, k - 1, turns[k - 2].random) == ms;
      assert StoreAfter(cfg, FRESH, turns, k - 1).alarm == Some(turns[k - 1].now);
    }
  }

  predicate Draws(turns: seq<Turn>) { forall t | t in turns :: 0.0 <= t.random < 1.0 }

  /** Jitter takes at most a tenth off what the strategy alone would wait. */
  lemma {:induction false} WaitedAtLeast(cfg: Config, s: Strategy, turns: seq<Turn>, n: nat)
    requires n <= |turns| && Draws(turns) && cfg.delay == ByStrategy(s)
    requires forall a: nat :: a >= 1 ==> DelayFor(s, a) >= 0.0
    ensures cfg.jitter == Some(false) ==> Waited(cfg, turns, n) == TotalDelay(s, n)
    ensures TotalDelay(s, n) >= 0.0 && Waited(cfg, turns, n) >= 0.9 * TotalDelay(s, n)
  {
    if n > 0 {
      WaitedAtLeast(cfg, s, turns, n - 1);
      assert turns[n - 1] in turns;
      JitterBand(DelayFor(s, n), JITTER_FACTOR, turns[n - 1].random);
    }
  }

  lemma {:induction false} PowPositive(m: real, n: nat)
    requires m > 0.0
    ensures Pow(m, n) > 0.0
  {
    if n > 0 {
      PowPositive(m, n - 1);
    }
  }

  lemma NonNegativeDelays(b: real, m: real)
    requires b >= 0.0 && m > 0.0
    ensures forall a: nat :: a >= 1 ==> DelayFor(Exponential(b, Some(m), None), a) >= 0.0
  {
    forall a: nat | a >= 1 ensures DelayFor(Exponential(b, Some(m), None), a) >= 0.0 {
      PowPositive(m, a - 1);
      ScaleMonotone(0.0, Pow(m, a - 1), b);
    }
  }

  /**
   * With uncapped exponential delays of base b and multiplier m, a k-th execution within a duration D needs
   * b * (m^(k-1) - 1) < D * (m - 1), with nine tenths of the left side when jitter is on.
   */
  lemma ExecutionCountFromTime(cfg: Config, b: real, m: real, turns: seq<Turn>, k: nat)
    requires b >= 0.0 && m > 1.0 && cfg.delay == ByStrategy(Exponential(b, Some(m), None))
    requires turns != [] && Draws(turns) && NeverEarly(cfg, turns, k) && cfg.maxDuration.Some?
    requires 1 <= k <= Drive(cfg, FRESH, turns).executions
    ensures cfg.jitter == Some(false) ==> Fits(1.0, b, m, k - 1, cfg.maxDuration.value)
    ensures Fits(0.9, b, m, k - 1, cfg.maxDuration.value)
  {
    NonNegativeDelays(b, m);
    StrategyFitsDuration(cfg, Exponential(b, Some(m), None), turns, k);
    FractionFits(0.9, b, m, k - 1, cfg.maxDuration.value);
    if cfg.jitter == Some(false) {
      FractionFits(1.0, b, m, k - 1, cfg.maxDuration.value);
    }
  }

  /** The fraction c of b * (m^n - 1) is less than limit * (m - 1). */
  predicate Fits(c: real, b: real, m: real, n: nat, limit: real) {
    c * (b * (Pow(m, n) - 1.0)) < limit * (m - 1.0)
  }

  lemma FractionFits(c: real, b: real, m: real, n: nat, limit: real)
    requires m > 1.0 && c * TotalDelay(Exponential(b, Some(m), None), n) < limit
    ensures Fits(c, b, m, n, limit)
  {
    TotalBelow(c, b, m, n, limit);
  }

  lemma StrategyFitsDuration(cfg: Config, s: Strategy, turns: seq<Turn>, k: nat)
    requires turns != [] && Draws(turns) && NeverEarly(cfg, turns, k) && cfg.maxDuration.Some?
    requires cfg.delay == ByStrategy(s) && forall a: nat :: a >= 1 ==> DelayFor(s, a) >= 0.0
    requires 1 <= k <= Drive(cfg, FRESH, turns).executions
    ensures 0.9 * TotalDelay(s, k - 1) < cfg.maxDuration.value
    ensures cfg.jitter == Some(false) ==> TotalDelay(s, k - 1) < cfg.maxDuration.value
  {
    DelaysFitDuration(cfg, turns, k);
    WaitedAtLeast(cfg, s, turns, k - 1);
  }

  // ----- Crashes -----

  /** A call that may be cut off after any number of its writes. */
  datatype Cut = Cut(turn: Turn, done: nat)

  function Survivor(cfg: Config, s: Store, c: Cut): Store
    requires AttemptOf(s) >= 1
  {
    var ws := PlanFor(cfg, s, c.turn).writes;
    AllWritten(s, if c.done < |ws| then ws[..c.done] else ws)
  }

  /** When the latest attempt 1 started. */
  function LatestStart(s: Store, c: Cut, before: real): real {
    if AttemptOf(s) == 1 then c.turn.now else before
  }

  /** A stored attempt is a retry that is allowed, and its start time and last error are there. */
  predicate CrashSafe(cfg: Config, s: Store, start: real) {
    s.attempt.Some? ==> MidSequence(cfg, s, start)
  }

  lemma CutKeepsSafe(cfg: Config, s: Store, c: Cut, start: real)
    requires CrashSafe(cfg, s, start)
    ensures CrashSafe(cfg, Survivor(cfg, s, c), LatestStart(s, c, start))
  {
    var ws := PlanFor(cfg, s, c.turn).writes;
    var n := if c.done < |ws| then c.done else |ws|;
    assert ws[..|ws|] == ws;
    PrefixesSafe(cfg, s, c.turn, n, start);
  }

  lemma PrefixesSafe(cfg: Config, s: Store, t: Turn, n: nat, start: real)
    requires CrashSafe(cfg, s, start) && n <= |PlanFor(cfg, s, t).writes|
    ensures CrashSafe(cfg, AllWritten(s, PlanFor(cfg, s, t).writes[..n]), if AttemptOf(s) == 1 then t.now else start)
  {
    var first, ws := Opening(s, t.now), PlanFor(cfg, s, t).writes;
    if n <= |first| {
      assert ws[..n] == first[..n];
      assert n == 1 ==> first[..n] == [PutStartedAt(t.now)];
    } else {
      assert ws[..n] == first + ws[|first|..][..n - |first|];
      OpeningThen(s, t.now, ws[|first|..][..n - |first|]);
      LaterPrefixesSafe(cfg, s, t, n - |first|, start);
    }
  }

  lemma LaterPrefixesSafe(cfg: Config, s: Store, t: Turn, n: nat, start: real)
    requires CrashSafe(cfg, s, start) && 1 <= n <= |PlanFor(cfg, s, t).writes| - |Opening(s, t.now)|
    ensures CrashSafe(cfg,
                      AllWritten(s.(startedAt := StartOf(s, t.now)),
                                 PlanFor(cfg, s, t).writes[|Opening(s, t.now)|..][..n]),
                      if AttemptOf(s) == 1 then t.now else start)
  {
    var p, tail := PlanFor(cfg, s, t), PlanFor(cfg, s, t).writes[|Opening(s, t.now)|..];
    var entered := s.(startedAt := StartOf(s, t.now));
    if p.signal.Scheduled? {
      FirstWrites(entered, t.answer.error, AttemptOf(s) + 1, p.signal.resumeAt, n);
    } else {
      assert tail == RESET;
      FirstDeletes(entered, n);
    }
  }

  lemma FirstDeletes(s: Store, n: nat)
    requires 1 <= n <= 4
    ensures AllWritten(s, RESET[..n]).attempt == None
  {
    if n > 1 {
      FirstDeletes(s, n - 1);
      assert RESET[..n] == RESET[..n - 1] + [RESET[n - 1]];
      WrittenConcat(s, RESET[..n - 1], [RESET[n - 1]]);
    } else {
      assert RESET[..1] == [DeleteAttempt];
    }
  }

  /** A run with crashes: every call may be cut off, and the next one starts from what was written. */
  function Survive(cfg: Config, s: Store, cuts: seq<Cut>, start: real): (Store, real)
    requires CrashSafe(cfg, s, start)
    decreases |cuts|
  {
    if cuts == [] then (s, start)
    else
      CutKeepsSafe(cfg, s, cuts[0], start);
      Survive(cfg, Survivor(cfg, s, cuts[0]), cuts[1..], LatestStart(s, cuts[0], start))
  }

  /**
   * However often and wherever calls are cut off and repeated, a stored attempt lies in 2..maxAttempts, comes with its
   * last error, and its start time is the time of the latest attempt 1.
   */
  lemma {:induction false} CrashesKeepSafe(cfg: Config, s: Store, cuts: seq<Cut>, start: real)
    requires CrashSafe(cfg, s, start)
    ensures var (end, latest) := Survive(cfg, s, cuts, start); CrashSafe(cfg, end, latest)
    decreases |cuts|
  {
    if cuts != [] {
      CutKeepsSafe(cfg, s, cuts[0], start);
      CrashesKeepSafe(cfg, Survivor(cfg, s, cuts[0]), cuts[1..], LatestStart(s, cuts[0], start));
    }
  }

  /** After any crashes from fresh storage, the rest of the run is again the plain loop, from the stored attempt on. */
  lemma CrashesThenLoop(cfg: Config, cuts: seq<Cut>, turns: seq<Turn>)
    requires turns != []
    ensures var (s, start) := Survive(cfg, FRESH, cuts, 0.0);
            && AttemptOf(s) >= 1
            && Drive(cfg, s, turns)
               == LoopFrom(cfg, if s.attempt.Some? then start else turns[0].now, AttemptOf(s), turns)
            && Drive(cfg, s, turns).executions <= Max(1, cfg.maxAttempts)
  {
    CrashesKeepSafe(cfg, FRESH, cuts, 0.0);
    var (s, start) := Survive(cfg, FRESH, cuts, 0.0);
    if s.attempt.Some? {
      LaterTurnsLoop(cfg, s, start, turns);
      LoopExplained(cfg, start, AttemptOf(s), turns);
    } else {
      FirstTurnsLoop(cfg, s, turns);
      LoopExplained(cfg, turns[0].now, 1, turns);
    }
  }

  /**
   * A crash leaves a retry recorded without its wake-up at exactly one point: after the attempt number is written and
   * before the alarm is set.
   */
  lemma OneCrashLosesWakeUp(cfg: Config, s: Store, t: Turn, n: nat)
    requires AttemptOf(s) >= 1 && PlanFor(cfg, s, t).signal.Scheduled? && n <= |PlanFor(cfg, s, t).writes|
    requires s.alarm != Some(PlanFor(cfg, s, t).signal.resumeAt)
    ensures var left := AllWritten(s, PlanFor(cfg, s, t).writes[..n]);
            (left.attempt == Some(AttemptOf(s) + 1) && left.alarm == s.alarm) <==> n == |Opening(s, t.now)| + 2
  {
    var o, e, a, at := |Opening(s, t.now)|, t.answer.error, AttemptOf(s) + 1, PlanFor(cfg, s, t).signal.resumeAt;
    var ws := [PutLastError(e), PutAttempt(a), SetAlarm(at), PutScheduledAt(at)];
    var s1 := s.(startedAt := StartOf(s, t.now));
    if n <= o {
      assert PlanFor(cfg, s, t).writes[..n] == Opening(s, t.now)[..n];
      assert n == 1 ==> Opening(s, t.now)[..n] == [PutStartedAt(t.now)];
    } else {
      assert PlanFor(cfg, s, t).writes[..n] == Opening(s, t.now) + ws[..n - o];
      OpeningThen(s, t.now, ws[..n - o]);
      FirstWrites(s1, e, a, at, n - o);
    }
  }

  lemma FirstWrites(s: Store, e: string, a: int, at: real, n: nat)
    requires 1 <= n <= 4
    ensures var left := AllWritten(s, [PutLastError(e), PutAttempt(a), SetAlarm(at), PutScheduledAt(at)][..n]);
            && left.startedAt == s.startedAt && left.lastError == Some(e)
            && left.attempt == (if n >= 2 then Some(a) else s.attempt)
            && left.alarm == (if n >= 3 then Some(at) else s.alarm)
  {
    var ws := [PutLastError(e), PutAttempt(a), SetAlarm(at), PutScheduledAt(at)];
    if n > 1 {
      FirstWrites(s, e, a, at, n - 1);
      assert ws[..n] == ws[..n - 1] + [ws[n - 1]];
      WrittenConcat(s, ws[..n - 1], [ws[n - 1]]);
    } else {
      assert ws[..1] == [PutLastError(e)];
    }
  }

  // ----- Executions in the presence of crashes -----

  /** A wake-up whose call comes to its end, or one whose call is cut off. */
  datatype Visit = Whole(turn: Turn) | Broken(cut: Cut)

  /** The effect runs after the start time is written; a call cut off right there is taken to have run it. */
  function MayHaveRun(cfg: Config, s: Store, c: Cut): nat
    requires AttemptOf(s) >= 1
  {
    Ran(PlanFor(cfg, s, c.turn).ran && c.done >= |Opening(s, c.turn.now)|)
  }

  /** The durable loop with crashes: a call that is cut off is simply made again at the next wake-up. */
  function DriveThrough(cfg: Config, s: Store, visits: seq<Visit>, start: real): Outcome
    requires CrashSafe(cfg, s, start)
    decreases |visits|
  {
    if visits == [] then Outcome(0, None)
    else
      match visits[0]
      case Broken(c) =>
        CutKeepsSafe(cfg, s, c, start);
        Plus(MayHaveRun(cfg, s, c), DriveThrough(cfg, Survivor(cfg, s, c), visits[1..], LatestStart(s, c, start)))
      case Whole(t) =>
        var p := PlanFor(cfg, s, t);
        if !p.signal.Scheduled? then Outcome(Ran(p.ran), Some(p.signal))
        else
          NextStore(cfg, s, t);
          Plus(Ran(p.ran), DriveThrough(cfg, Next(cfg, s, t), visits[1..], if AttemptOf(s) == 1 then t.now else start))
  }

  /**
   * A call cut off before its effect may start counts no execution; one cut off after its last write counts as a whole
   * one.
   */
  lemma CutCountsExecution(cfg: Config, s: Store, c: Cut, rest: seq<Visit>, start: real)
    requires CrashSafe(cfg, s, start)
    ensures c.done < |Opening(s, c.turn.now)| ==> MayHaveRun(cfg, s, c) == 0
    ensures var p := PlanFor(cfg, s, c.turn);
            c.done >= |p.writes| && p.signal.Scheduled? ==>
              DriveThrough(cfg, s, [Broken(c)] + rest, start) == DriveThrough(cfg, s, [Whole(c.turn)] + rest, start)
  {
    CutKeepsSafe(cfg, s, c, start);
    var p := PlanFor(cfg, s, c.turn);
    if c.done >= |p.writes| && p.signal.Scheduled? {
      NextStore(cfg, s, c.turn);
      assert ([Broken(c)] + rest)[1..] == rest && ([Whole(c.turn)] + rest)[1..] == rest;
    }
  }

  /** Executions still allowed without crashes. */
  function Budget(cfg: Config, s: Store): int { Max(1, cfg.maxAttempts - AttemptOf(s) + 1) }

  /**
   * What a cut can cost: a whole sequence when it deletes the number of a later attempt, and one execution otherwise.
   */
  function CutCost(cfg: Config, s: Store, c: Cut): nat
    requires AttemptOf(s) >= 1
  {
    if s.attempt.Some? && Survivor(cfg, s, c).attempt.None? then Max(1, cfg.maxAttempts) else 1
  }

  function Costs(cfg: Config, s: Store, visits: seq<Visit>, start: real): nat
    requires CrashSafe(cfg, s, start)
    decreases |visits|
  {
    if visits == [] then 0
    else
      match visits[0]
      case Broken(c) =>
        CutKeepsSafe(cfg, s, c, start);
        CutCost(cfg, s, c) + Costs(cfg, Survivor(cfg, s, c), visits[1..], LatestStart(s, c, start))
      case Whole(t) =>
        if !PlanFor(cfg, s, t).signal.Scheduled? then 0
        else
          NextStore(cfg, s, t);
          Costs(cfg, Next(cfg, s, t), visits[1..], if AttemptOf(s) == 1 then t.now else start)
  }

  function Crashes(visits: seq<Visit>): nat {
    if visits == [] then 0 else (if visits[0].Broken? then 1 else 0) + Crashes(visits[1..])
  }

  lemma {:induction false} AttemptFrom(s: Store, ws: seq<Write>, n: int)
    requires forall w | w in ws :: w.PutAttempt? ==> w.attempt == n
    ensures AllWritten(s, ws).attempt in {s.attempt, None, Some(n)}
    decreases |ws|
  {
    if ws != [] {
      assert ws[0] in ws;
      AttemptFrom(Written(s, ws[0]), ws[1..], n);
    }
  }

  /** A call that is cut off leaves the attempt number as it was, one higher or deleted. */
  lemma SurvivorAttempt(cfg: Config, s: Store, c: Cut)
    requires AttemptOf(s) >= 1
    ensures Survivor(cfg, s, c).attempt in {s.attempt, None, Some(AttemptOf(s) + 1)}
  {
    var ws := PlanFor(cfg, s, c.turn).writes;
    PlannedAttempt(cfg, s, c.turn);
    AttemptFrom(s, if c.done < |ws| then ws[..c.done] else ws, AttemptOf(s) + 1);
  }

  lemma PlannedAttempt(cfg: Config, s: Store, t: Turn)
    requires AttemptOf(s) >= 1
    ensures forall w | w in PlanFor(cfg, s, t).writes :: w.PutAttempt? ==> w.attempt == AttemptOf(s) + 1
  {
  }

  lemma CutPays(cfg: Config, s: Store, c: Cut, start: real)
    requires CrashSafe(cfg, s, start)
    ensures MayHaveRun(cfg, s, c) + Budget(cfg, Survivor(cfg, s, c)) <= Budget(cfg, s) + CutCost(cfg, s, c)
  {
    CutKeepsSafe(cfg, s, c, start);
    SurvivorAttempt(cfg, s, c);
    BudgetsCompare(cfg, s, Survivor(cfg, s, c), start, LatestStart(s, c, start));
  }

  lemma BudgetsCompare(cfg: Config, s: Store, left: Store, start: real, later: real)
    requires CrashSafe(cfg, s, start) && CrashSafe(cfg, left, later)
    requires left.attempt in {s.attempt, None, Some(AttemptOf(s) + 1)}
    ensures 1 + Budget(cfg, left)
            <= Budget(cfg, s) + if s.attempt.Some? && left.attempt.None? then Max(1, cfg.maxAttempts) else 1
  {
  }

  lemma {:induction false} CrashesPay(cfg: Config, s: Store, visits: seq<Visit>, start: real)
    requires CrashSafe(cfg, s, start)
    ensures DriveThrough(cfg, s, visits, start).executions <= Budget(cfg, s) + Costs(cfg, s, visits, start)
    ensures Costs(cfg, s, visits, start) <= Repeated(Max(1, cfg.maxAttempts), Crashes(visits))
    decreases |visits|
  {
    if visits != [] {
      match visits[0]
      case Broken(c) =>
        CutKeepsSafe(cfg, s, c, start);
        CutPays(cfg, s, c, start);
        CrashesPay(cfg, Survivor(cfg, s, c), visits[1..], LatestStart(s, c, start));
      case Whole(t) =>
        if PlanFor(cfg, s, t).signal.Scheduled? {
          NextStore(cfg, s, t);
          CrashesPay(cfg, Next(cfg, s, t), visits[1..], if AttemptOf(s) == 1 then t.now else start);
        }
        RepeatedNonNegative(Max(1, cfg.maxAttempts), Crashes(visits[1..]));
    }
  }

  /** m added up n times. */
  function Repeated(m: int, n: nat): int { if n == 0 then 0 else m + Repeated(m, n - 1) }

  lemma {:induction false} RepeatedNonNegative(m: int, n: nat)
    requires m >= 0
    ensures 0 <= Repeated(m, n) == m * n
  {
    if n > 0 {
      RepeatedNonNegative(m, n - 1);
    }
  }

  /**
   * With crashes anywhere between the writes, the effect runs at most max(1, maxAttempts) times, plus once per crash,
   * or plus a whole sequence for a crash that has already deleted the number of a later attempt; in any case at most
   * max(1, maxAttempts) * (crashes + 1) times.
   */
  lemma CrashesBoundExecutions(cfg: Config, visits: seq<Visit>)
    ensures var n, m := DriveThrough(cfg, FRESH, visits, 0.0).executions, Max(1, cfg.maxAttempts);
            n <= m + Costs(cfg, FRESH, visits, 0.0) <= m * (Crashes(visits) + 1)
  {
    var m, k := Max(1, cfg.maxAttempts), Crashes(visits);
    CrashesPay(cfg, FRESH, visits, 0.0);
    RepeatedNonNegative(m, k);
    assert m * (k + 1) == m * k + m;
  }
}
