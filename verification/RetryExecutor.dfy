/** The alarm-driven retry loop whose whole memory is four storage keys and one alarm. */
module RetryExecutor {
  import opened Values
  import opened Backoff

  datatype Config = Config(maxAttempts: int, delay: Delay, jitter: Option<bool>, maxDuration: Option<real>)

  datatype Answer = Success(value: int) | Failure(error: string) | Terminate

  datatype Reason = MaxAttempts | MaxDuration

  /** What the caller of executeWithRetry gets. The duration case reports its own error instead of the effect's. */
  datatype Signal =
    | Returned(value: int)
    | Terminated
    | Exhausted(attempts: int, lastError: Option<string>, totalMs: real, reason: Reason)
    | Scheduled(resumeAt: real, attempt: int)

  datatype Store = Store(
    attempt: Option<int>,
    startedAt: Option<real>,
    lastError: Option<string>,
    scheduledAt: Option<real>,
    alarm: Option<real>)

  const FRESH := Store(None, None, None, None, None)

  datatype Write =
    | PutAttempt(attempt: int)
    | PutStartedAt(t: real)
    | PutLastError(error: string)
    | PutScheduledAt(t: real)
    | SetAlarm(t: real)
    | DeleteAttempt
    | DeleteStartedAt
    | DeleteLastError
    | DeleteScheduledAt

  function Written(s: Store, w: Write): Store {
    match w
    case PutAttempt(n) => s.(attempt := Some(n))
    case PutStartedAt(t) => s.(startedAt := Some(t))
    case PutLastError(e) => s.(lastError := Some(e))
    case PutScheduledAt(t) => s.(scheduledAt := Some(t))
    case SetAlarm(t) => s.(alarm := Some(t))
    case DeleteAttempt => s.(attempt := None)
    case DeleteStartedAt => s.(startedAt := None)
    case DeleteLastError => s.(lastError := None)
    case DeleteScheduledAt => s.(scheduledAt := None)
  }

  function AllWritten(s: Store, ws: seq<Write>): Store
    decreases |ws|
  {
    if ws == [] then s else AllWritten(Written(s, ws[0]), ws[1..])
  }

  const RESET := [DeleteAttempt, DeleteStartedAt, DeleteLastError, DeleteScheduledAt]

  /** One wake-up: when it happens, what the effect would answer if it is run, and the random draw for jitter. */
  datatype Turn = Turn(now: real, answer: Answer, random: real)

  function AttemptOf(s: Store): int { if s.attempt.Some? then s.attempt.value else 1 }

  function DelayMs(cfg: Config, attempt: nat, random: real): real
    requires attempt >= 1
  {
    var base := ResolveDelay(cfg.delay, attempt);
    if cfg.jitter != Some(false) then AddJitter(base, JITTER_FACTOR, random) else base
  }

  /** The writes of one call in order, whether the effect ran, and what the caller gets. */
  datatype Plan = Plan(writes: seq<Write>, ran: bool, signal: Signal)

  predicate OverTime(cfg: Config, startedAt: Option<real>, now: real) {
    cfg.maxDuration.Some? && startedAt.Some? && now - startedAt.value >= cfg.maxDuration.value
  }

  function Opening(s: Store, now: real): seq<Write> {
    if AttemptOf(s) == 1 then [PutStartedAt(now)] else []
  }

  /** STARTED_AT as the call reads it: its own write on attempt 1. */
  function StartOf(s: Store, now: real): Option<real> {
    if AttemptOf(s) == 1 then Some(now) else s.startedAt
  }

  function PlanFor(cfg: Config, s: Store, t: Turn): Plan
    requires AttemptOf(s) >= 1
  {
    var attempt, first, start := AttemptOf(s), Opening(s, t.now), StartOf(s, t.now);
    if OverTime(cfg, start, t.now) then
      Plan(first + RESET, false, Exhausted(attempt, None, t.now - start.value, MaxDuration))
    else
      match t.answer
      case Success(v) => Plan(first + RESET, true, Returned(v))
      case Terminate => Plan(first, true, Terminated)
      case Failure(e) =>
        if attempt >= cfg.maxAttempts then
          var total := if start.Some? then t.now - start.value else 0.0;
          Plan(first + RESET, true, Exhausted(attempt, Some(e), total, MaxAttempts))
        else
          var resumeAt := t.now + DelayMs(cfg, attempt, t.random);
          Plan(first + [PutLastError(e), PutAttempt(attempt + 1), SetAlarm(resumeAt), PutScheduledAt(resumeAt)],
               true, Scheduled(resumeAt, attempt + 1))
  }

  /** What a configuration asks to wait after the n-th attempt, before jitter. */
  ghost predicate Asks(d: Delay, n: nat, ms: real)
    requires n >= 1
  {
    match d
    case Fixed(fixed) => ms == fixed
    case Custom(f) => ms == f(n)
    case ByStrategy(s) => ms == DelayFor(s, n)
    case Default => ms == if n >= 6 then 30000.0 else 1000.0 * Pow(2.0, n - 1)
  }

  /** Without jitter that wait; otherwise from nine tenths of it at draw 0 evenly up to eleven tenths at draw 1. */
  ghost predicate WakesAfter(cfg: Config, n: nat, t: Turn, at: real)
    requires n >= 1
  {
    exists ms: real :: Asks(cfg.delay, n, ms)
      && if cfg.jitter == Some(false) then at == t.now + ms
         else 10.0 * (at - t.now) == ms * (9.0 + 2.0 * t.random)
  }

  lemma DelayWakes(cfg: Config, n: nat, t: Turn)
    requires n >= 1
    ensures WakesAfter(cfg, n, t, t.now + DelayMs(cfg, n, t.random))
  {
    PresetLadders(n);
    assert Asks(cfg.delay, n, ResolveDelay(cfg.delay, n));
  }

  function Next(cfg: Config, s: Store, t: Turn): Store
    requires AttemptOf(s) >= 1
  {
    AllWritten(s, PlanFor(cfg, s, t).writes)
  }

  /** The executor as the program keeps it: storage keys and an alarm, updated one write at a time. */
  class Executor {
    var attempt: Option<int>
    var startedAt: Option<real>
    var lastError: Option<string>
    var scheduledAt: Option<real>
    var alarm: Option<real>
    /** Every write so far, in order: what a crash leaves is a prefix of it. */
    ghost var log: seq<Write>

    function State(): Store
      reads this
    {
      Store(attempt, startedAt, lastError, scheduledAt, alarm)
    }

    constructor ()
      ensures State() == FRESH && log == []
    {
      attempt, startedAt, lastError, scheduledAt, alarm := None, None, None, None, None;
      log := [];
    }

    method Put(w: Write)
      modifies this
      ensures State() == Written(old(State()), w) && log == old(log) + [w]
    {
      match w {
        case PutAttempt(n) => attempt := Some(n);
        case PutStartedAt(t) => startedAt := Some(t);
        case PutLastError(e) => lastError := Some(e);
        case PutScheduledAt(t) => scheduledAt := Some(t);
        case SetAlarm(t) => alarm := Some(t);
        case DeleteAttempt => attempt := None;
        case DeleteStartedAt => startedAt := None;
        case DeleteLastError => lastError := None;
        case DeleteScheduledAt => scheduledAt := None;
      }
      log := log + [w];
    }

    method GetAttempt() returns (n: int)
      ensures n == AttemptOf(State())
    {
      n := if attempt.Some? then attempt.value else 1;
    }

    method IsRetrying() returns (b: bool)
      ensures b <==> AttemptOf(State()) > 1
    {
      var n := GetAttempt();
      b := n > 1;
    }

    method Reset()
      modifies this
      ensures State() == Store(None, None, None, None, old(alarm)) && log == old(log) + RESET
    {
      Put(DeleteAttempt);
      Put(DeleteStartedAt);
      Put(DeleteLastError);
      Put(DeleteScheduledAt);
    }

    method ScheduleRetry(cfg: Config, n: nat, error: string, t: Turn) returns (resumeAt: real)
      requires n >= 1
      modifies this
      ensures resumeAt == t.now + DelayMs(cfg, n, t.random)
      ensures State() == Store(Some(n + 1), old(startedAt), Some(error), Some(resumeAt), Some(resumeAt))
      ensures log == old(log) + [PutLastError(error), PutAttempt(n + 1), SetAlarm(resumeAt), PutScheduledAt(resumeAt)]
    {
      Put(PutLastError(error));
      Put(PutAttempt(n + 1));
      resumeAt := t.now + DelayMs(cfg, n, t.random);
      Put(SetAlarm(resumeAt));
      Put(PutScheduledAt(resumeAt));
    }

    method ExecuteWithRetry(cfg: Config, t: Turn) returns (signal: Signal, ran: bool)
      requires AttemptOf(State()) >= 1
      modifies this
      ensures State() == Next(cfg, old(State()), t) && AttemptOf(State()) >= 1
      ensures log == old(log) + PlanFor(cfg, old(State()), t).writes
      ensures signal == PlanFor(cfg, old(State()), t).signal
      ensures ran == PlanFor(cfg, old(State()), t).ran
      ensures signal.Scheduled? ==>
                && WakesAfter(cfg, AttemptOf(old(State())), t, signal.resumeAt)
                && State().alarm == Some(signal.resumeAt)
                && signal.attempt == AttemptOf(State()) == AttemptOf(old(State())) + 1
    {
      NextStore(cfg, State(), t);
      var n := GetAttempt();
      if n == 1 {
        Put(PutStartedAt(t.now));
      }
      if cfg.maxDuration.Some? && startedAt.Some? {
        var elapsed := t.now - startedAt.value;
        if elapsed >= cfg.maxDuration.value {
          Reset();
          return Exhausted(n, None, elapsed, MaxDuration), false;
        }
      }
      ran := true;
      match t.answer
      case Success(v) =>
        Reset();
        signal := Returned(v);
      case Terminate =>
        signal := Terminated;
      case Failure(e) =>
        if n >= cfg.maxAttempts {
          var from := if startedAt.Some? then startedAt.value else t.now;
          Reset();
          signal := Exhausted(n, Some(e), t.now - from, MaxAttempts);
        } else {
          var resumeAt := ScheduleRetry(cfg, n, e, t);
          signal := Scheduled(resumeAt, n + 1);
        }
    }
  }

  lemma {:induction false} WrittenConcat(s: Store, a: seq<Write>, b: seq<Write>)
    ensures AllWritten(s, a + b) == AllWritten(AllWritten(s, a), b)
    decreases |a|
  {
    if a == [] {
      assert a + b == b;
    } else {
      assert (a + b)[1..] == a[1..] + b;
      WrittenConcat(Written(s, a[0]), a[1..], b);
    }
  }

  lemma OpeningThen(s: Store, now: real, ws: seq<Write>)
    ensures AllWritten(s, Opening(s, now) + ws)
            == AllWritten(if AttemptOf(s) == 1 then s.(startedAt := Some(now)) else s, ws)
  {
    WrittenConcat(s, Opening(s, now), ws);
    if AttemptOf(s) == 1 {
      assert AllWritten(s, [PutStartedAt(now)]) == s.(startedAt := Some(now));
    }
  }

  lemma ResetWrites(s: Store)
    ensures AllWritten(s, RESET) == Store(None, None, None, None, s.alarm)
  {
  }

  lemma ScheduleWrites(s: Store, e: string, n: int, at: real)
    ensures AllWritten(s, [PutLastError(e), PutAttempt(n), SetAlarm(at), PutScheduledAt(at)])
            == Store(Some(n), s.startedAt, Some(e), Some(at), Some(at))
  {
    var a, b, c, d := PutLastError(e), PutAttempt(n), SetAlarm(at), PutScheduledAt(at);
    assert [a, b, c, d] == [a] + ([b] + ([c] + [d]));
    WrittenConcat(s, [a], [b] + ([c] + [d]));
    WrittenConcat(Written(s, a), [b], [c] + [d]);
    WrittenConcat(Written(Written(s, a), b), [c], [d]);
  }

  /** Each call in closed form. */
  lemma NextStore(cfg: Config, s: Store, t: Turn)
    requires AttemptOf(s) >= 1
    ensures var p, n := PlanFor(cfg, s, t), Next(cfg, s, t);
            && (p.signal.Returned? || p.signal.Exhausted? ==> n == Store(None, None, None, None, s.alarm))
            && (p.signal.Terminated? ==> n == s.(startedAt := StartOf(s, t.now)))
            && (p.signal.Scheduled? ==>
                  && t.answer.Failure?
                  && p.signal.attempt == AttemptOf(s) + 1
                  && WakesAfter(cfg, AttemptOf(s), t, p.signal.resumeAt)
                  && n == Store(Some(AttemptOf(s) + 1), StartOf(s, t.now), Some(t.answer.error),
                                Some(p.signal.resumeAt), Some(p.signal.resumeAt)))
  {
    var entered := s.(startedAt := StartOf(s, t.now));
    var p := PlanFor(cfg, s, t);
    OpeningThen(s, t.now, RESET);
    ResetWrites(entered);
    OpeningThen(s, t.now, []);
    assert Opening(s, t.now) + [] == Opening(s, t.now);
    if p.signal.Scheduled? {
      DelayWakes(cfg, AttemptOf(s), t);
      var e, at := t.answer.error, p.signal.resumeAt;
      OpeningThen(s, t.now, [PutLastError(e), PutAttempt(AttemptOf(s) + 1), SetAlarm(at), PutScheduledAt(at)]);
      ScheduleWrites(entered, e, AttemptOf(s) + 1, at);
    }
  }
}
