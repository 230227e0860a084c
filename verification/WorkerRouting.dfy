/** How the worker-pool client picks an instance: a 32-bit string hash, or round robin. */
module WorkerRouting {
  import opened Values

  /** A UTF-16 code unit, as charCodeAt gives it. */
  type CodeUnit = c: int | 0 <= c < 0x1_0000

  /** ToInt32, section 7.1.6 of ECMA-262: the value in [-2^31, 2^31) that is congruent modulo 2^32. */
  function ToInt32(x: int): (r: int)
    ensures -0x8000_0000 <= r < 0x8000_0000
    ensures exists q :: r == x + q * 0x1_0000_0000
  {
    var m := x % 0x1_0000_0000;
    assert m == x + (-(x / 0x1_0000_0000)) * 0x1_0000_0000;
    assert m - 0x1_0000_0000 == x + (-(x / 0x1_0000_0000) - 1) * 0x1_0000_0000;
    if m >= 0x8000_0000 then m - 0x1_0000_0000 else m
  }

  lemma ToInt32Congruent(x: int, q: int)
    ensures ToInt32(x + q * 0x1_0000_0000) == ToInt32(x)
  {
  }

  /** One round of the loop: the shift wraps, and so does the sum when it is masked. */
  function Round(hash: int, c: CodeUnit): int {
    ToInt32(ToInt32(hash * 32) - hash + c)
  }

  /** The polynomial in 31 with the code units as coefficients, without wrapping, by Horner's rule. */
  function Poly(key: seq<CodeUnit>): int {
    if key == [] then 0 else Poly(key[..|key| - 1]) * 31 + key[|key| - 1]
  }

  function Hash(key: seq<CodeUnit>): int { ToInt32(Poly(key)) }

  function Pow31(n: nat): int { if n == 0 then 1 else 31 * Pow31(n - 1) }

  /** The sum of key[i] * 31^(e-1-i) over the first n code units. */
  function Sum(key: seq<CodeUnit>, n: nat, e: nat): int
    requires n <= |key| && n <= e
  {
    if n == 0 then 0 else Sum(key, n - 1, e) + key[n - 1] * Pow31(e - n)
  }

  /** The sum of key[i] * 31^(|key|-1-i) over the whole key. */
  function PowerSum(key: seq<CodeUnit>): int { Sum(key, |key|, |key|) }

  lemma {:induction false} SumShifts(key: seq<CodeUnit>, n: nat, e: nat)
    requires n <= |key| && n <= e
    ensures Sum(key, n, e + 1) == 31 * Sum(key, n, e)
  {
    if n > 0 {
      SumShifts(key, n - 1, e);
      var c, p := key[n - 1], Pow31(e - n);
      assert Pow31(e + 1 - n) == 31 * p;
      assert c * (31 * p) == 31 * (c * p);
    }
  }

  lemma {:induction false} SumOfPrefix(key: seq<CodeUnit>, m: nat, n: nat, e: nat)
    requires n <= m <= |key| && n <= e
    ensures Sum(key[..m], n, e) == Sum(key, n, e)
  {
    if n > 0 {
      SumOfPrefix(key, m, n - 1, e);
    }
  }

  /** Horner's rule computes the sum of powers. */
  lemma {:induction false} PolyIsPowerSum(key: seq<CodeUnit>)
    ensures Poly(key) == PowerSum(key)
  {
    if key != [] {
      var m := |key| - 1;
      PolyIsPowerSum(key[..m]);
      SumOfPrefix(key, m, m, m);
      SumShifts(key, m, m);
      assert Pow31(0) == 1;
    }
  }

  lemma RoundIsHorner(x: int, c: CodeUnit)
    ensures Round(ToInt32(x), c) == ToInt32(x * 31 + c)
  {
    var q :| ToInt32(x) == x + q * 0x1_0000_0000;
    var h := ToInt32(x);
    var p :| ToInt32(h * 32) == h * 32 + p * 0x1_0000_0000;
    assert ToInt32(h * 32) - h + c == x * 31 + c + (31 * q + p) * 0x1_0000_0000;
    ToInt32Congruent(x * 31 + c, 31 * q + p);
  }

  /** Math.abs(hash) % buckets. Modulo zero is NaN, and the sign of a negative divisor does not matter. */
  function Index(hash: int, buckets: int): Option<int> {
    var a := if hash < 0 then -hash else hash;
    if buckets == 0 then None else Some(a % (if buckets < 0 then -buckets else buckets))
  }

  /** The index is what remains of the magnitude of the hash after whole rounds of the buckets. */
  ghost predicate HashesTo(key: seq<CodeUnit>, buckets: int, index: int) {
    var h, n := ToInt32(PowerSum(key)), if buckets < 0 then -buckets else buckets;
    Remains(if h < 0 then -h else h, n, index)
  }

  ghost predicate Remains(a: nat, n: nat, index: int) {
    0 <= index < n && exists rounds: nat :: Rounds(rounds, n) + index == a
  }

  function Rounds(rounds: nat, n: nat): nat { rounds * n }

  lemma RemainderRemains(a: nat, n: nat)
    requires n > 0
    ensures Remains(a, n, a % n)
  {
    assert Rounds(a / n, n) + a % n == a;
  }

  lemma IndexRemains(key: seq<CodeUnit>, buckets: int)
    requires buckets != 0
    ensures Index(Hash(key), buckets).Some? && HashesTo(key, buckets, Index(Hash(key), buckets).value)
  {
    PolyIsPowerSum(key);
    var h := Hash(key);
    RemainderRemains(if h < 0 then -h else h, if buckets < 0 then -buckets else buckets);
  }

  method ConsistentHash(key: seq<CodeUnit>, buckets: int) returns (r: Option<int>)
    ensures r == Index(Hash(key), buckets)
    ensures buckets != 0 ==> r.Some? && HashesTo(key, buckets, r.value)
    ensures buckets == 0 ==> r == None
  {
    var hash := 0;
    for i := 0 to |key|
      invariant hash == Hash(key[..i])
    {
      RoundIsHorner(Poly(key[..i]), key[i]);
      assert key[..i + 1][..i] == key[..i];
      hash := ToInt32(hash * 32) - hash + key[i];
      hash := ToInt32(hash);
    }
    assert key[..|key|] == key;
    if buckets != 0 {
      IndexRemains(key, buckets);
    }
    r := Index(hash, buckets);
  }

  /** x times 31^n, one factor at a time. */
  function Shifted(x: int, n: nat): int { if n == 0 then x else Shifted(x, n - 1) * 31 }

  lemma {:induction false} ShiftedIsProduct(x: int, n: nat)
    ensures Shifted(x, n) == x * Pow31(n)
  {
    if n > 0 {
      ShiftedIsProduct(x, n - 1);
    }
  }

  lemma {:induction false} PolyConcat(a: seq<CodeUnit>, b: seq<CodeUnit>)
    ensures Poly(a + b) == Shifted(Poly(a), |b|) + Poly(b)
    decreases |b|
  {
    if b == [] {
      assert a + b == a;
    } else {
      assert (a + b)[..|a + b| - 1] == a + b[..|b| - 1];
      PolyConcat(a, b[..|b| - 1]);
    }
  }

  lemma {:induction false} ShiftedWraps(x: int, q: int, n: nat) returns (k: int)
    ensures Shifted(x + q * 0x1_0000_0000, n) == Shifted(x, n) + k * 0x1_0000_0000
  {
    if n == 0 {
      k := q;
    } else {
      var j := ShiftedWraps(x, q, n - 1);
      k := 31 * j;
    }
  }

  lemma WrappedParts(x: int, y: int, n: nat, z: int, hx: int, hy: int, h: int)
    requires z == Shifted(x, n) + y && hx == ToInt32(x) && hy == ToInt32(y) && h == ToInt32(z)
    ensures h == ToInt32(hx * Pow31(n) + hy)
  {
    ShiftedIsProduct(hx, n);
    var p :| hx == x + p * 0x1_0000_0000;
    var q :| hy == y + q * 0x1_0000_0000;
    var k := ShiftedWraps(x, p, n);
    ToInt32Congruent(z, k + q);
  }

  /** The hash made of the hashes of two parts, the second of n code units. */
  function Joined(first: int, second: int, n: nat): int { ToInt32(first * Pow31(n) + second) }

  lemma JoinedParts(x: int, y: int, n: nat, z: int)
    requires z == Shifted(x, n) + y
    ensures ToInt32(z) == Joined(ToInt32(x), ToInt32(y), n)
  {
    WrappedParts(x, y, n, z, ToInt32(x), ToInt32(y), ToInt32(z));
  }

  /** The hash of a concatenation depends only on the two hashes and the second length. */
  lemma HashConcat(a: seq<CodeUnit>, b: seq<CodeUnit>)
    ensures Hash(a + b) == Joined(Hash(a), Hash(b), |b|)
  {
    PolyConcat(a, b);
    JoinedParts(Poly(a), Poly(b), |b|, Poly(a + b));
  }

  /** Two keys collide exactly when their sums of powers agree modulo 2^32. */
  lemma HashCollides(a: seq<CodeUnit>, b: seq<CodeUnit>)
    ensures Hash(a) == Hash(b) <==> (PowerSum(a) - PowerSum(b)) % 0x1_0000_0000 == 0
  {
    PolyIsPowerSum(a);
    PolyIsPowerSum(b);
    SameWrapped(Poly(a), Poly(b));
  }

  lemma SameWrapped(x: int, y: int)
    ensures ToInt32(x) == ToInt32(y) <==> (x - y) % 0x1_0000_0000 == 0
  {
  }

  // ----- The client -----

  datatype Request = Request(id: string, partitionKey: Option<seq<CodeUnit>>)

  /** An empty partition key counts as none. */
  predicate Keyed(r: Request) { r.partitionKey.Some? && r.partitionKey.value != [] }

  /** Where a request goes and how often the counter has been used after it. */
  function Route(concurrency: int, counter: nat, r: Request): (Option<int>, nat) {
    if Keyed(r) then (Index(Hash(r.partitionKey.value), concurrency), counter)
    else (Index(counter, concurrency), counter + 1)
  }

  class WorkerPoolClient {
    const concurrency: int
    var roundRobinCounter: nat

    constructor (concurrency: int)
      ensures this.concurrency == concurrency && roundRobinCounter == 0
    {
      this.concurrency := concurrency;
      roundRobinCounter := 0;
    }

    method Enqueue(r: Request) returns (index: Option<int>)
      modifies this
      ensures (index, roundRobinCounter) == Route(concurrency, old(roundRobinCounter), r)
      ensures concurrency != 0 ==> index.Some?
      ensures r.partitionKey.Some? && r.partitionKey.value != [] ==>
                && roundRobinCounter == old(roundRobinCounter)
                && (concurrency != 0 ==> HashesTo(r.partitionKey.value, concurrency, index.value))
      ensures r.partitionKey == None || r.partitionKey == Some([]) ==>
                && roundRobinCounter == old(roundRobinCounter) + 1
                && (concurrency > 0 ==> index.value == old(roundRobinCounter) % concurrency)
    {
      if Keyed(r) {
        index := ConsistentHash(r.partitionKey.value, concurrency);
      } else {
        index := Index(roundRobinCounter, concurrency);
        roundRobinCounter := roundRobinCounter + 1;
      }
    }
  }

  /** The instances a run of requests goes to. */
  function Routes(concurrency: int, counter: nat, rs: seq<Request>): (r: seq<Option<int>>)
    ensures |r| == |rs|
    decreases |rs|
  {
    if rs == [] then []
    else
      var (index, next) := Route(concurrency, counter, rs[0]);
      [index] + Routes(concurrency, next, rs[1..])
  }

  /** How many of the first n requests have no partition key. */
  function Unkeyed(rs: seq<Request>, n: nat): nat
    requires n <= |rs|
  {
    if n == 0 then 0 else Unkeyed(rs, n - 1) + (if Keyed(rs[n - 1]) then 0 else 1)
  }

  lemma {:induction false} UnkeyedTail(rs: seq<Request>, n: nat)
    requires 1 <= n <= |rs|
    ensures Unkeyed(rs, n) == (if Keyed(rs[0]) then 0 else 1) + Unkeyed(rs[1..], n - 1)
  {
    if n > 1 {
      UnkeyedTail(rs, n - 1);
      assert rs[1..][n - 2] == rs[n - 1];
    } else {
      assert Unkeyed(rs, 1) == Unkeyed(rs, 0) + (if Keyed(rs[0]) then 0 else 1);
    }
  }

  /** The instance whose turn it is after k more unkeyed requests. */
  function InTurn(counter: nat, k: nat, concurrency: int): Option<int>
    requires concurrency > 0
  {
    Some((counter + k) % concurrency)
  }

  /**
   * A keyed request always goes where its key hashes, whatever came before; an unkeyed one goes to the next instance in
   * turn, counting unkeyed requests only.
   */
  lemma {:induction false} RouteOf(concurrency: int, counter: nat, rs: seq<Request>, n: nat)
    requires concurrency > 0 && n < |rs|
    ensures Routes(concurrency, counter, rs)[n]
            == if Keyed(rs[n]) then Index(Hash(rs[n].partitionKey.value), concurrency)
               else InTurn(counter, Unkeyed(rs, n), concurrency)
    ensures Keyed(rs[n]) ==>
              && Routes(concurrency, counter, rs)[n].Some?
              && HashesTo(rs[n].partitionKey.value, concurrency, Routes(concurrency, counter, rs)[n].value)
    decreases |rs|
  {
    var (index, next) := Route(concurrency, counter, rs[0]);
    if n > 0 {
      RouteOf(concurrency, next, rs[1..], n - 1);
      UnkeyedTail(rs, n);
    } else if Keyed(rs[0]) {
      IndexRemains(rs[0].partitionKey.value, concurrency);
    }
  }

  /**
   * Two unkeyed requests of a run, with any other requests between them, go to the same instance exactly when the
   * unkeyed requests from one to the other make whole rounds; m and n count the unkeyed requests before each.
   */
  lemma TurnsRotate(concurrency: int, counter: nat, rs: seq<Request>, i: nat, j: nat, m: nat, n: nat)
    requires concurrency > 0 && i < |rs| && j < |rs| && !Keyed(rs[i]) && !Keyed(rs[j])
    requires m == Unkeyed(rs, i) && n == Unkeyed(rs, j)
    ensures Routes(concurrency, counter, rs)[i] == Routes(concurrency, counter, rs)[j] <==> (n - m) % concurrency == 0
  {
    UnkeyedInTurn(concurrency, counter, rs, i, m);
    UnkeyedInTurn(concurrency, counter, rs, j, n);
    TurnsMeet(counter, m, n, concurrency);
  }

  lemma TurnsMeet(counter: nat, j: nat, k: nat, concurrency: int)
    requires concurrency > 0
    ensures InTurn(counter, j, concurrency) == InTurn(counter, k, concurrency) <==> (k - j) % concurrency == 0
  {
    SameRemainder(counter, j, k, concurrency);
  }

  lemma UnkeyedInTurn(concurrency: int, counter: nat, rs: seq<Request>, n: nat, k: nat)
    requires concurrency > 0 && n < |rs| && !Keyed(rs[n]) && k == Unkeyed(rs, n)
    ensures Routes(concurrency, counter, rs)[n] == InTurn(counter, k, concurrency)
  {
    RouteOf(concurrency, counter, rs, n);
  }

  lemma SameRemainder(c: int, m: int, n: int, d: int)
    requires d > 0
    ensures (c + m) % d == (c + n) % d <==> (n - m) % d == 0
  {
    var a, b := c + m, c + n;
    var x, y := a / d, b / d;
    assert a == x * d + a % d && b == y * d + b % d;
    assert b - a == (y - x) * d + (b % d - a % d);
    if a % d == b % d {
      assert (b - a) == (y - x) * d;
      MultipleRemainder(y - x, d);
    } else if (b - a) % d == 0 {
      var z := (b - a) / d;
      assert (z - (y - x)) * d == b % d - a % d;
      SmallMultiple(z - (y - x), d, b % d - a % d);
    }
  }

  lemma MultipleRemainder(k: int, d: int)
    requires d > 0
    ensures (k * d) % d == 0
  {
    var r := (k * d) % d;
    assert r == (k - k * d / d) * d;
    SmallMultiple(k - k * d / d, d, r);
  }

  lemma SmallMultiple(k: int, d: int, r: int)
    requires d > 0 && k * d == r && -d < r < d
    ensures r == 0
  {
  }
}
