/** Retry delays in milliseconds, without rounding. */
module Backoff {
  import opened Values

  datatype Strategy =
    | Constant(delayMs: real)
    | Linear(initialMs: real, incrementMs: real, capMs: Option<real>)
    | Exponential(initialMs: real, multiplier: Option<real>, capMs: Option<real>)

  function Pow(base: real, n: nat): real {
    if n == 0 then 1.0 else base * Pow(base, n - 1)
  }

  function Cap(delay: real, cap: Option<real>): real {
    if cap.Some? && cap.value < delay then cap.value else delay
  }

  function Multiplier(s: Strategy): real
    requires s.Exponential?
  {
    if s.multiplier.Some? then s.multiplier.value else 2.0
  }

  /** calculateBackoffDelay; attempts count from 1. */
  function DelayFor(s: Strategy, attempt: nat): real
    requires attempt >= 1
  {
    match s
    case Constant(d) => d
    case Linear(initial, increment, cap) => Cap(initial + increment * (attempt - 1) as real, cap)
    case Exponential(initial, _, cap) => Cap(initial * Pow(Multiplier(s), attempt - 1), cap)
  }

  /** addJitter with the random draw as an input. */
  function AddJitter(delay: real, factor: real, random: real): real {
    delay + (random * 2.0 - 1.0) * (delay * factor)
  }

  const JITTER_FACTOR := 0.1

  datatype Delay = Default | Custom(f: nat -> real) | ByStrategy(s: Strategy) | Fixed(ms: real)

  const STANDARD := Exponential(1000.0, None, Some(30000.0))
  const AGGRESSIVE := Exponential(100.0, None, Some(5000.0))
  const PATIENT := Exponential(5000.0, None, Some(120000.0))

  function ResolveDelay(d: Delay, attempt: nat): real
    requires attempt >= 1
  {
    match d
    case Default => DelayFor(STANDARD, attempt)
    case Custom(f) => f(attempt)
    case ByStrategy(s) => DelayFor(s, attempt)
    case Fixed(ms) => ms
  }

  // ----- Shape -----

  /** Nothing negative, and exponential growth does not shrink. */
  predicate Growing(s: Strategy) {
    match s
    case Constant(_) => true
    case Linear(_, increment, _) => increment >= 0.0
    case Exponential(initial, _, _) => initial >= 0.0 && Multiplier(s) >= 1.0
  }

  lemma ScaleMonotone(x: real, y: real, z: real)
    requires x <= y && z >= 0.0
    ensures x * z <= y * z
    ensures x < y && z > 0.0 ==> x * z < y * z
  {
  }

  lemma {:induction false} PowGrows(base: real, m: nat, n: nat)
    requires base >= 1.0 && m <= n
    ensures 1.0 <= Pow(base, m) <= Pow(base, n)
    decreases n
  {
    if m < n {
      PowGrows(base, m, n - 1);
      assert base * Pow(base, n - 1) >= Pow(base, n - 1);
    } else if n > 0 {
      PowGrows(base, n - 1, n - 1);
      assert base * Pow(base, n - 1) >= Pow(base, n - 1);
    }
  }

  /** What the strategy computes before its cap. */
  function Uncapped(s: Strategy, attempt: nat): real
    requires attempt >= 1
  {
    match s
    case Constant(d) => d
    case Linear(initial, increment, _) => initial + increment * (attempt - 1) as real
    case Exponential(initial, _, _) => initial * Pow(Multiplier(s), attempt - 1)
  }

  lemma UncappedGrows(s: Strategy, a: nat, b: nat)
    requires Growing(s) && 1 <= a <= b
    ensures Uncapped(s, a) <= Uncapped(s, b)
  {
    match s
    case Constant(_) =>
    case Linear(_, increment, _) =>
      ScaleMonotone((a - 1) as real, (b - 1) as real, increment);
    case Exponential(initial, _, _) =>
      PowGrows(Multiplier(s), a - 1, b - 1);
      ScaleMonotone(Pow(Multiplier(s), a - 1), Pow(Multiplier(s), b - 1), initial);
  }

  /** The smaller of an uncapped delay and the cap, if there is one. */
  predicate Smaller(delay: real, uncapped: real, cap: Option<real>) {
    delay <= uncapped && (cap.Some? ==> delay <= cap.value) && (delay == uncapped || cap == Some(delay))
  }

  /**
   * Linear delays start at the initial delay and grow by the increment with each attempt; with a cap, the delay is the
   * smaller of the cap and that recurrence.
   */
  lemma LinearRecurs(initial: real, step: real, cap: Option<real>, a: nat)
    requires a >= 1
    ensures DelayFor(Linear(initial, step, None), 1) == initial
    ensures DelayFor(Linear(initial, step, None), a + 1) == DelayFor(Linear(initial, step, None), a) + step
    ensures Smaller(DelayFor(Linear(initial, step, cap), a), DelayFor(Linear(initial, step, None), a), cap)
  {
    assert step * a as real == step * (a - 1) as real + step;
  }

  /**
   * Exponential delays start at the initial delay and are multiplied by the factor, 2 unless given, with each attempt;
   * with a cap, the delay is the smaller of the cap and that recurrence.
   */
  lemma ExponentialRecurs(initial: real, factor: Option<real>, cap: Option<real>, a: nat)
    requires a >= 1
    ensures var s := Exponential(initial, factor, None);
            && DelayFor(s, 1) == initial
            && DelayFor(s, a + 1) == Times(DelayFor(s, a), if factor.Some? then factor.value else 2.0)
            && Smaller(DelayFor(Exponential(initial, factor, cap), a), DelayFor(s, a), cap)
  {
    var m := Multiplier(Exponential(initial, factor, None));
    var p := Pow(m, a - 1);
    assert Pow(m, a) == m * p;
    TimesAssociate(initial, p, m);
    assert Times(p, m) == Pow(m, a);
  }

  /**
   * Later attempts never wait less, no attempt waits longer than the cap, and the cap once reached is kept; a constant
   * strategy waits its delay every time.
   */
  lemma DelaysGrowUpToCap(s: Strategy, a: nat, b: nat)
    requires Growing(s) && 1 <= a <= b
    ensures DelayFor(s, a) <= DelayFor(s, b)
    ensures s.Constant? ==> DelayFor(s, a) == s.delayMs
    ensures !s.Constant? && s.capMs.Some? ==> DelayFor(s, b) <= s.capMs.value
    ensures !s.Constant? && s.capMs.Some? && DelayFor(s, a) == s.capMs.value ==> DelayFor(s, b) == s.capMs.value
  {
    UncappedGrows(s, a, b);
  }

  /** Each preset doubles from its base and reaches its cap at one exact attempt, for good. */
  lemma PresetLadders(attempt: nat)
    requires attempt >= 1
    ensures DelayFor(STANDARD, attempt) == 30000.0 <==> attempt >= 6
    ensures DelayFor(AGGRESSIVE, attempt) == 5000.0 <==> attempt >= 7
    ensures DelayFor(PATIENT, attempt) == 120000.0 <==> attempt >= 6
    ensures attempt < 6 ==> DelayFor(STANDARD, attempt) == 1000.0 * Pow(2.0, attempt - 1)
    ensures attempt < 7 ==> DelayFor(AGGRESSIVE, attempt) == 100.0 * Pow(2.0, attempt - 1)
    ensures attempt < 6 ==> DelayFor(PATIENT, attempt) == 5000.0 * Pow(2.0, attempt - 1)
  {
    PowersOfTwo();
    if attempt <= 6 {
      PowGrows(2.0, attempt - 1, if attempt <= 5 then 4 else 5);
    }
    if attempt >= 6 {
      PowGrows(2.0, 5, attempt - 1);
    }
    if attempt >= 7 {
      PowGrows(2.0, 6, attempt - 1);
    }
  }

  lemma PowersOfTwo()
    ensures Pow(2.0, 4) == 16.0 && Pow(2.0, 5) == 32.0 && Pow(2.0, 6) == 64.0
  {
  }

  /** A draw from [0, 1) moves a delay by at most the jitter factor, attaining the lower end and the delay itself. */
  lemma JitterBand(delay: real, factor: real, random: real)
    requires delay >= 0.0 && factor >= 0.0 && 0.0 <= random < 1.0
    ensures delay * (1.0 - factor) <= AddJitter(delay, factor, random) <= delay * (1.0 + factor)
    ensures delay * factor > 0.0 ==> AddJitter(delay, factor, random) < delay * (1.0 + factor)
    ensures AddJitter(delay, factor, 0.0) == delay * (1.0 - factor) && AddJitter(delay, factor, 0.5) == delay
  {
  }

  // ----- Sums -----

  /** Total of the delays after attempts 1..n. */
  function TotalDelay(s: Strategy, n: nat): real {
    if n == 0 then 0.0 else TotalDelay(s, n - 1) + DelayFor(s, n)
  }

  /** 1 + m + ... + m^(n-1). */
  function Geometric(m: real, n: nat): real {
    if n == 0 then 0.0 else Geometric(m, n - 1) + Pow(m, n - 1)
  }

  /** Multiplication by name, so that products can be compared factor by factor. */
  function Times(x: real, y: real): real { x * y }

  lemma TimesAssociate(x: real, y: real, z: real)
    ensures Times(Times(x, y), z) == Times(x, Times(y, z))
  {
  }

  lemma TimesMonotone(x: real, y: real, z: real)
    requires x < y && z > 0.0
    ensures Times(x, z) < Times(y, z)
  {
  }

  lemma {:induction false} GeometricClosed(m: real, n: nat)
    ensures Times(Geometric(m, n), m - 1.0) == Pow(m, n) - 1.0
  {
    if n > 0 {
      GeometricClosed(m, n - 1);
    }
  }

  lemma {:induction false} TotalIsGeometric(b: real, m: real, n: nat)
    ensures TotalDelay(Exponential(b, Some(m), None), n) == Times(b, Geometric(m, n))
  {
    if n > 0 {
      TotalIsGeometric(b, m, n - 1);
    }
  }

  /** The total of exponential delays in closed form. */
  lemma GeometricTotal(b: real, m: real, n: nat)
    ensures Times(TotalDelay(Exponential(b, Some(m), None), n), m - 1.0) == Times(b, Pow(m, n) - 1.0)
  {
    TotalIsGeometric(b, m, n);
    GeometricClosed(m, n);
    TimesAssociate(b, Geometric(m, n), m - 1.0);
  }

  /** What bounds a fraction c of the total bounds the same fraction of its closed form. */
  lemma TotalBelow(c: real, b: real, m: real, n: nat, limit: real)
    requires m > 1.0 && Times(c, TotalDelay(Exponential(b, Some(m), None), n)) < limit
    ensures Times(c, Times(b, Pow(m, n) - 1.0)) < Times(limit, m - 1.0)
  {
    var total := TotalDelay(Exponential(b, Some(m), None), n);
    GeometricTotal(b, m, n);
    TimesAssociate(c, total, m - 1.0);
    TimesMonotone(Times(c, total), limit, m - 1.0);
  }
}
