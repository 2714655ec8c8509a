/** The classical factoring fallback, and decryption through the recovered factors. */
module Factoring {
  import opened Wrappers
  import opened Basics
  import opened NumberTheory
  import Rsa

  // ---------- Trial division ----------

  /** math.isqrt. */
  function Isqrt(n: nat): (r: nat)
    ensures r * r <= n < (r + 1) * (r + 1)
  {
    if n == 0 then 0
    else
      var r := Isqrt(n - 1);
      if (r + 1) * (r + 1) <= n then
        assert (r + 2) * (r + 2) == (r + 1) * (r + 1) + 2 * r + 3;
        r + 1
      else r
  }

  ghost predicate NoDivisorBelow(n: int, k: int) {
    forall d :: 2 <= d < k ==> n % d != 0
  }

  /** A number with no divisor up to its integer square root is prime. */
  lemma NoSmallDivisorPrime(n: int, limit: nat)
    requires n > 1 && limit * limit <= n < (limit + 1) * (limit + 1)
    requires NoDivisorBelow(n, limit + 1)
    ensures IsPrime(n)
  {
    forall d | 2 <= d < n
      ensures n % d != 0
    {
      if n % d == 0 {
        var k := n / d;
        assert n == d * k;
        CofactorBounds(n, d, k);
        if k <= limit {
          MultipleModZero(k, d);
        } else {
          ProductAbove(d, k, limit + 1);
        }
      }
    }
  }

  lemma CofactorBounds(n: int, d: int, k: int)
    requires n == d * k && 2 <= d < n
    ensures 2 <= k < n
  {
    if k < 1 {
      MulAtLeast(d, 1 - k);
    } else {
      assert d * k >= 2 * k;
    }
  }

  lemma ProductAbove(d: int, k: int, l: int)
    requires d >= l && k >= l && l > 0
    ensures d * k >= l * l
  {
    assert d * k == l * k + (d - l) * k;
    assert l * k == l * l + l * (k - l);
  }

  lemma LeastDivisorIsPrime(n: int, f: int)
    requires n > 1 && 2 <= f && n % f == 0 && NoDivisorBelow(n, f)
    ensures IsPrime(f)
  {
    forall d | 2 <= d < f
      ensures f % d != 0
    {
      if f % d == 0 {
        assert n == (d * (f / d)) * (n / f);
        assert n == d * ((f / d) * (n / f));
        MultipleModZero(d, (f / d) * (n / f));
      }
    }
  }

  lemma EvenDivisorEvenNumber(n: int, d: int)
    requires d > 0 && d % 2 == 0 && n % d == 0
    ensures n % 2 == 0
  {
    var h, k := d / 2, n / d;
    assert n == (2 * h) * k;
    assert n == 2 * (h * k);
  }

  datatype Trial = Split(p: int, q: int) | NoDivisor | NegativeRoot

  /**
   _trial_division, for all integers: the least divisor above 1, which is prime, and its
   cofactor; or NoDivisor, which on odd input above 1 means that n is prime. NegativeRoot
   is the ValueError of math.isqrt.
   */
  method TrialDivision(n: int) returns (r: Trial)
    ensures r.Split? ==> r.p >= 2 && r.p * r.q == n && IsPrime(r.p) && NoDivisorBelow(n, r.p)
    ensures r.Split? && n % 2 != 0 ==> r.p <= r.q < n
    ensures n % 2 == 0 ==> r == Split(2, n / 2)
    ensures n % 2 != 0 && n > 1 ==> (r.NoDivisor? <==> IsPrime(n))
    ensures n == 1 ==> r.NoDivisor?
    ensures n % 2 != 0 && n < 0 <==> r.NegativeRoot?
  {
    hide IsPrime, NoDivisorBelow;
    if n % 2 == 0 {
      EvenHalves(n);
      return Split(2, n / 2);
    }
    if n < 0 {
      return NegativeRoot;
    }
    var limit: int := Isqrt(n);
    var f: int := 3;
    OddStart(n);
    while f <= limit
      invariant f >= 3 && f % 2 == 1 && NoDivisorBelow(n, f)
      decreases limit - f
    {
      if n % f == 0 {
        FirstDivisor(n, f, limit);
        return Split(f, n / f);
      }
      SkipEven(n, f);
      NextOdd(f);
      f := f + 2;
    }
    NoDivisorUpTo(n, limit + 1, f);
    if n > 1 {
      NoSmallDivisorPrime(n, limit);
    }
    return NoDivisor;
  }

  lemma EvenHalves(n: int)
    requires n % 2 == 0
    ensures 2 * (n / 2) == n && IsPrime(2) && NoDivisorBelow(n, 2)
  {
  }

  lemma OddStart(n: int)
    requires n % 2 != 0
    ensures NoDivisorBelow(n, 3)
  {
  }

  lemma NoDivisorUpTo(n: int, k: int, l: int)
    requires k <= l && NoDivisorBelow(n, l)
    ensures NoDivisorBelow(n, k)
  {
  }

  lemma NextOdd(f: int)
    requires f % 2 == 1
    ensures (f + 2) % 2 == 1
  {
  }

  /** An odd number has no even divisor, so the loop may step over f + 1. */
  lemma SkipEven(n: int, f: int)
    requires n % 2 != 0 && f >= 3 && f % 2 == 1 && n % f != 0 && NoDivisorBelow(n, f)
    ensures NoDivisorBelow(n, f + 2)
  {
    if n % (f + 1) == 0 {
      EvenDivisorEvenNumber(n, f + 1);
    }
  }

  /** What the loop has in hand when it meets its first divisor. */
  lemma FirstDivisor(n: int, f: int, limit: nat)
    requires 3 <= f <= limit && limit * limit <= n && n % f == 0 && NoDivisorBelow(n, f)
    ensures f * (n / f) == n && f <= n / f < n && IsPrime(f) && !IsPrime(n)
  {
    var k := n / f;
    ProductAbove(limit, limit, f);
    ProductAbove(f, f, 3);
    assert f * f == f + f * (f - 1);
    MulAtLeast(f, f - 1);
    assert f < n;
    CofactorBounds(n, f, k);
    if k < f {
      MultipleModZero(k, f);
    }
    LeastDivisorIsPrime(n, f);
  }

  // ---------- Pollard's rho with Floyd's cycle detection ----------

  /** One step of the pseudo-random map. */
  function RhoStep(n: int, c: int, v: int): (r: int)
    requires n > 0
    ensures 0 <= r < n
  {
    (ModPow(v, 2, n) + c) % n
  }

  function Orbit(n: int, c: int, x: int, i: nat): int
    requires n > 0
  {
    if i == 0 then x else RhoStep(n, c, Orbit(n, c, x, i - 1))
  }

  lemma {:induction false} OrbitInRange(n: int, c: int, x: int, i: nat)
    requires n > 0 && 0 <= x < n
    ensures 0 <= Orbit(n, c, x, i) < n
  {
  }

  /** Once two positions agree, the orbit is periodic from the first of them on. */
  lemma {:induction false} OrbitShift(n: int, c: int, x: int, i: nat, j: nat, k: nat)
    requires n > 0 && Orbit(n, c, x, i) == Orbit(n, c, x, j)
    ensures Orbit(n, c, x, i + k) == Orbit(n, c, x, j + k)
  {
    if k > 0 {
      OrbitShift(n, c, x, i, j, k - 1);
    }
  }

  lemma {:induction false} OrbitPeriodic(n: int, c: int, x: int, i: nat, l: nat, t: nat, k: nat)
    requires n > 0 && Orbit(n, c, x, i) == Orbit(n, c, x, i + l) && t >= i
    ensures k * l >= 0 && Orbit(n, c, x, t + k * l) == Orbit(n, c, x, t)
  {
    if k > 0 {
      OrbitPeriodic(n, c, x, i, l, t, k - 1);
      var u := t + (k - 1) * l;
      assert t + k * l == u + l;
      OrbitShift(n, c, x, i, i + l, u - i);
    }
  }

  /** Pigeonhole: more than n values below n repeat. */
  lemma {:induction false} Pigeonhole(s: seq<int>, n: nat) returns (i: nat, j: nat)
    requires |s| > n && forall k :: 0 <= k < |s| ==> 0 <= s[k] < n
    ensures i < j < |s| && s[i] == s[j]
    decreases n
  {
    assert 0 <= s[0] < n;
    if exists k :: 0 <= k < |s| - 1 && s[k] == s[|s| - 1] {
      i :| 0 <= i < |s| - 1 && s[i] == s[|s| - 1];
      j := |s| - 1;
    } else {
      // No earlier occurrence of the last value: drop it and rename n - 1 to it.
      var last := s[|s| - 1];
      var t := seq(|s| - 1, k requires 0 <= k < |s| - 1 => if s[k] == n - 1 then last else s[k]);
      assert forall k :: 0 <= k < |t| ==> 0 <= t[k] < n - 1;
      i, j := Pigeonhole(t, n - 1);
    }
  }

  /** The tortoise and the hare stand on the same value within the first n steps. */
  lemma FloydMeets(n: int, c: int, x: int) returns (t: nat)
    requires n > 0 && 0 <= x < n
    ensures 1 <= t <= n && Orbit(n, c, x, t) == Orbit(n, c, x, 2 * t)
  {
    var s := seq(n + 1, k requires 0 <= k => Orbit(n, c, x, k));
    forall k | 0 <= k < |s|
      ensures 0 <= s[k] < n
    {
      OrbitInRange(n, c, x, k);
    }
    var i, j := Pigeonhole(s, n);
    var l := j - i;
    // The least positive multiple of the period at or beyond i.
    var k := if i == 0 then 1 else (i + l - 1) / l;
    t := k * l;
    CeilingBounds(i, l, k);
    OrbitPeriodic(n, c, x, i, l, t, k);
    assert t + k * l == 2 * t;
  }

  lemma CeilingBounds(i: nat, l: nat, k: int)
    requires l > 0 && k == (if i == 0 then 1 else (i + l - 1) / l)
    ensures k >= 1 && i <= k * l && 1 <= k * l && (k * l <= i + l - 1 || k * l == l)
  {
    if i > 0 {
      var r := (i + l - 1) % l;
      assert i + l - 1 == l * k + r;
      assert l * k == k * l;
      if k < 1 {
        MulAtLeast(l, 1 - k);
      }
    }
  }

  /** What the inner loop computes at step t. */
  function StepGcd(n: int, c: int, x: int, t: nat): nat
    requires n > 0
  {
    Gcd(Abs(Orbit(n, c, x, t) - Orbit(n, c, x, 2 * t)), n)
  }

  lemma SquareIsPow(v: int)
    ensures Pow(v, 2) == v * v
  {
    assert Pow(v, 1) == v * Pow(v, 0);
  }

  /** The orbit that the walk follows: it starts at x, and each value squared plus c gives the next, modulo n. */
  lemma OrbitMeaning(n: int, c: int, x: int, i: nat)
    requires n > 0
    ensures Orbit(n, c, x, 0) == x
    ensures Orbit(n, c, x, i + 1) == (Orbit(n, c, x, i) * Orbit(n, c, x, i) + c) % n
  {
    var v := Orbit(n, c, x, i);
    SquareIsPow(v);
    DivModUnique((v * v) % n, n, 0, (v * v) % n);
    CongAdd((v * v) % n, v * v, c, c, n);
  }

  /**
   The gcd of step t: the greatest common divisor of n and of the distance between the
   tortoise at t and the hare at 2t.
   */
  lemma StepGcdMeaning(n: int, c: int, x: int, t: nat)
    requires n > 0
    ensures var g, distance := StepGcd(n, c, x, t), Orbit(n, c, x, t) - Orbit(n, c, x, 2 * t);
            && 1 <= g <= n && Divides(g, n) && Divides(g, distance)
            && forall d :: Divides(d, n) && Divides(d, distance) ==> Divides(d, g)
  {
    var distance := Orbit(n, c, x, t) - Orbit(n, c, x, 2 * t);
    EgcdIsGreatestCommonDivisor(Abs(distance), n);
    GcdFacts(Abs(distance), n);
    DividesAbs(distance);
  }

  lemma DividesAbs(a: int)
    ensures forall d :: Divides(d, Abs(a)) <==> Divides(d, a)
  {
    forall d
      ensures Divides(d, Abs(a)) <==> Divides(d, a)
    {
      if Divides(d, Abs(a)) {
        var k :| Abs(a) == d * k;
        assert a == d * (if a < 0 then -k else k);
      }
      if Divides(d, a) {
        var k :| a == d * k;
        assert Abs(a) == d * (if a < 0 then -k else k);
      }
    }
  }

  /** gcd(0, n) = n, so the meeting point always leaves the loop. */
  lemma MeetingGcd(n: int)
    requires n > 0
    ensures Gcd(0, n) == n
  {
    assert FloorMod(0, n) == 0 by { DivModUnique(0, n, 0, 0); }
    assert Egcd(n, 0).0 == n;
  }

  /**
   The inner loop. It ends after at most n steps, at the first step whose gcd is not 1,
   for every c and every start below n.
   */
  method RhoWalk(n: int, c: int, start: int) returns (d: int, ghost steps: nat)
    requires n > 1 && 0 <= start < n
    ensures 1 <= steps <= n && d == StepGcd(n, c, start, steps) != 1
    ensures forall t :: 1 <= t < steps ==> StepGcd(n, c, start, t) == 1
    ensures 1 < d <= n && n % d == 0
  {
    ghost var meet := FloydMeets(n, c, start);
    MeetingGcd(n);
    var x, y := start, start;
    d := 1;
    steps := 0;
    while d == 1
      invariant x == Orbit(n, c, start, steps) && y == Orbit(n, c, start, 2 * steps)
      invariant steps == 0 ==> d == 1
      invariant steps > 0 ==> d == StepGcd(n, c, start, steps)
      invariant forall t :: 1 <= t < steps ==> StepGcd(n, c, start, t) == 1
      invariant steps <= meet
      invariant steps == meet ==> d == n
      decreases meet - steps
    {
      x := RhoStep(n, c, x);
      y := RhoStep(n, c, RhoStep(n, c, y));
      assert y == Orbit(n, c, start, 2 * steps + 2);
      d := Gcd(Abs(x - y), n);
      steps := steps + 1;
      GcdFacts(Abs(x - y), n);
    }
    GcdFacts(Abs(x - y), n);
  }

  /**
   _pollards_rho with its random (c, x) draws as input. None means that every draw so
   far ended in a trivial gcd, where the original draws again.
   */
  method PollardsRho(n: int, draws: seq<(int, int)>) returns (r: Option<int>)
    requires n > 1 && forall i :: 0 <= i < |draws| ==> 1 <= draws[i].0 < n && 0 <= draws[i].1 < n
    ensures r.Some? ==> 1 < r.value <= n && n % r.value == 0
    ensures r.Some? && n > 3 ==> r.value < n
    ensures IsPrime(n) && n > 3 ==> r == None
    ensures n == 3 ==> r == Some(3)
    ensures n % 2 == 0 ==> r == Some(2)
    ensures n % 2 != 0 && n % 3 == 0 ==> r == Some(3)
    ensures n % 2 != 0 && n % 3 != 0 ==>
              (r.None? <==> forall i :: 0 <= i < |draws| ==> WalkEnds(n, draws[i].0, draws[i].1, n))
    ensures r.Some? && n % 2 != 0 && n % 3 != 0 ==>
              exists i :: 0 <= i < |draws| && WalkEnds(n, draws[i].0, draws[i].1, r.value)
                          && forall j :: 0 <= j < i ==> WalkEnds(n, draws[j].0, draws[j].1, n)
  {
    hide IsPrime, StepGcd, WalkEnds;
    if n % 2 == 0 {
      EvenIsProper(n);
      return Some(2);
    }
    if n % 3 == 0 {
      ThreeIsProper(n);
      return Some(3);
    }
    for i := 0 to |draws|
      invariant forall j :: 0 <= j < i ==> WalkEnds(n, draws[j].0, draws[j].1, n)
    {
      var d, steps := RhoWalk(n, draws[i].0, draws[i].1);
      EndsThere(n, draws[i].0, draws[i].1, d, steps);
      if d != n {
        WalkEndsOnce(n, draws[i].0, draws[i].1, d);
        ProperMeansComposite(n, d);
        return Some(d);
      }
    }
    return None;
  }

  /** The walk from x with constant c leaves its loop at step t with the gcd d. */
  ghost predicate WalkEndsAt(n: int, c: int, x: int, d: int, t: nat)
    requires n > 0
  {
    t >= 1 && StepGcd(n, c, x, t) == d != 1 && forall u: nat :: 1 <= u < t ==> StepGcd(n, c, x, u) == 1
  }

  ghost predicate WalkEnds(n: int, c: int, x: int, d: int)
    requires n > 0
  {
    exists t: nat :: WalkEndsAt(n, c, x, d, t)
  }

  lemma EndsThere(n: int, c: int, x: int, d: int, t: nat)
    requires n > 0 && WalkEndsAt(n, c, x, d, t)
    ensures WalkEnds(n, c, x, d)
  {
  }

  lemma EvenIsProper(n: int)
    requires n > 1 && n % 2 == 0
    ensures IsPrime(n) ==> n == 2
  {
  }

  lemma ThreeIsProper(n: int)
    requires n > 1 && n % 3 == 0
    ensures IsPrime(n) ==> n == 3
  {
  }

  lemma ProperMeansComposite(n: int, d: int)
    requires 1 < d < n && n % d == 0
    ensures !IsPrime(n)
  {
  }

  lemma WalkEndsOnce(n: int, c: int, x: int, d: int)
    requires n > 0 && WalkEnds(n, c, x, d) && d != n
    ensures !WalkEnds(n, c, x, n)
  {
    var t: nat :| WalkEndsAt(n, c, x, d, t);
    if WalkEnds(n, c, x, n) {
      var u: nat :| WalkEndsAt(n, c, x, n, u);
    }
  }

  // ---------- factor_semiprime and factor_N ----------

  datatype FactorError = TooSmall | TooLarge | StillSearching

  ghost predicate Composite(n: int) {
    n > 1 && !IsPrime(n)
  }

  /**
   factor_semiprime. Every composite input is split by trial division alone into its
   least prime and the cofactor, in order; 2 and 3 give a factor 1; a larger prime is
   the one input on which no number of draws ends the search.
   */
  method FactorSemiprime(N: int, draws: seq<(int, int)>) returns (r: Result<(int, int), FactorError>)
    requires N > 1 ==> forall i :: 0 <= i < |draws| ==> 1 <= draws[i].0 < N && 0 <= draws[i].1 < N
    ensures N <= 1 <==> r == Err(TooSmall)
    ensures r.Ok? ==> r.value.0 * r.value.1 == N
    ensures Composite(N) ==> r.Ok? && 1 < r.value.0 <= r.value.1 < N
                             && IsPrime(r.value.0) && NoDivisorBelow(N, r.value.0)
    ensures IsPrime(N) && N > 3 <==> r == Err(StillSearching)
    ensures N == 2 ==> r == Ok((2, 1))
    ensures N == 3 ==> r == Ok((1, 3))
  {
    if N <= 1 {
      return Err(TooSmall);
    }
    if N % 2 == 0 {
      EvenSplit(N);
      return Ok((2, N / 2));
    }
    var td := TrialDivision(N);
    if td.Split? {
      var p, q := td.p, td.q;
      assert N % p == 0 by { MultipleModZero(p, q); }
      return Ok((if p <= q then p else q, if p <= q then q else p));
    }
    var rho := PollardsRho(N, draws);
    if rho.None? {
      return Err(StillSearching);
    }
    var p := rho.value;
    var q := N / p;
    return Ok((if p <= q then p else q, if p <= q then q else p));
  }

  lemma EvenSplit(N: int)
    requires N > 1 && N % 2 == 0
    ensures IsPrime(2) && 2 * (N / 2) == N && (IsPrime(N) <==> N == 2)
    ensures N > 2 ==> 2 <= N / 2 < N
  {
  }

  function BitLength(n: nat): nat {
    if n == 0 then 0 else 1 + BitLength(n / 2)
  }

  /** The bit length of a positive number is the power of two just above it. */
  lemma {:induction false} BitLengthExact(n: nat)
    requires n > 0
    ensures BitLength(0) == 0 && BitLength(n) >= 1
    ensures Pow2(BitLength(n) - 1) <= n < Pow2(BitLength(n))
  {
    if n > 1 {
      BitLengthExact(n / 2);
    } else {
      assert BitLength(1) == 1 + BitLength(0);
      assert Pow2(1) == 2 * Pow2(0);
    }
  }

  /** The classical route of factor_N behind its size checks. */
  method FactorClassical(N: int, maxBits: int, draws: seq<(int, int)>) returns (r: Result<(int, int), FactorError>)
    requires N > 1 ==> forall i :: 0 <= i < |draws| ==> 1 <= draws[i].0 < N && 0 <= draws[i].1 < N
    ensures N <= 3 <==> r == Err(TooSmall)
    ensures N > 3 && BitLength(N) > maxBits <==> r == Err(TooLarge)
    ensures r == Err(StillSearching) <==> N > 3 && BitLength(N) <= maxBits && IsPrime(N)
    ensures r.Ok? ==> r.value.0 * r.value.1 == N && 1 < r.value.0 <= r.value.1 < N
                      && IsPrime(r.value.0) && NoDivisorBelow(N, r.value.0)
  {
    if N <= 3 {
      return Err(TooSmall);
    }
    if BitLength(N) > maxBits {
      return Err(TooLarge);
    }
    r := FactorSemiprime(N, draws);
  }

  /** A split of p*q into a prime and a cofactor is {p, q} itself. */
  lemma SemiprimeSplitUnique(p: int, q: int, a: int, b: int)
    requires IsPrime(p) && IsPrime(q) && IsPrime(a) && a * b == p * q
    ensures (a == p && b == q) || (a == q && b == p)
  {
    MultipleModZero(a, b);
    if p % a == 0 {
      PrimeDividesPrime(a, p);
      CancelFactor(p, b, q);
    } else {
      EuclidLemma(a, p, q);
      PrimeDividesPrime(a, q);
      CancelFactor(q, b, p);
    }
  }

  lemma PrimeDividesPrime(a: int, p: int)
    requires IsPrime(a) && IsPrime(p) && p % a == 0
    ensures a == p
  {
    if a > p {
      DivModUnique(p, a, 0, p);
    }
  }

  lemma CancelFactor(a: int, b: int, c: int)
    requires a > 0 && a * b == a * c
    ensures b == c
  {
    assert a * (b - c) == 0;
  }

  // ---------- Factor, then decrypt ----------

  datatype DecryptError = FactorFailed(factorError: FactorError) | RsaFailed(rsaError: Rsa.RsaError)

  /** c encrypts m under e for the modulus N = p*q, and N is within the size cap. */
  ghost predicate Ciphertext(N: int, e: int, c: int, maxBits: int, p: int, q: int, m: int) {
    && IsPrime(p) && IsPrime(q) && p != q && p * q == N
    && N > 0 && BitLength(N) <= maxBits
    && e >= 1 && Gcd(e, (p - 1) * (q - 1)) == 1
    && 0 <= m < N && Rsa.Encrypt(m, N, e) == Ok(c)
  }

  /** The arithmetic of the /rsa/decrypt route on the classical method. */
  method DecryptByFactoring(N: int, e: int, c: int, maxBits: int, draws: seq<(int, int)>)
    returns (r: Result<int, DecryptError>)
    requires N > 1 ==> forall i :: 0 <= i < |draws| ==> 1 <= draws[i].0 < N && 0 <= draws[i].1 < N
    ensures forall p, q, m :: Ciphertext(N, e, c, maxBits, p, q, m) ==> r == Ok(m)
    ensures N <= 3 <==> r == Err(FactorFailed(TooSmall))
    ensures N > 3 && BitLength(N) > maxBits <==> r == Err(FactorFailed(TooLarge))
    ensures N > 3 && BitLength(N) <= maxBits && IsPrime(N) <==> r == Err(FactorFailed(StillSearching))
    ensures r.Err? && r.error.RsaFailed? && r.error.rsaError == Rsa.InputTooLarge ==> c >= N
    ensures r.Ok? ==> 0 <= c < N
  {
    var f := FactorClassical(N, maxBits, draws);
    r := if f.Ok? then DecryptWith(N, e, c, f.value.0, f.value.1) else Err(FactorFailed(f.error));
    assert f.Err? ==> f.error.TooSmall? || f.error.TooLarge? || f.error.StillSearching?;
    forall p, q, m | Ciphertext(N, e, c, maxBits, p, q, m)
      ensures r == Ok(m)
    {
      SemiprimeIsComposite(p, q);
      assert f != Err(TooSmall) && f != Err(TooLarge) && f != Err(StillSearching);
      DecryptWithFactors(p, q, f.value.0, f.value.1, e, c, m);
    }
  }

  /** phi, d and m from a recovered pair of factors. */
  function DecryptWith(N: int, e: int, c: int, a: int, b: int): Result<int, DecryptError> {
    match Rsa.Modinv(e, (a - 1) * (b - 1))
    case Err(err) => Err(RsaFailed(err))
    case Ok(d) =>
      match Rsa.Decrypt(c, N, d)
      case Err(err) => Err(RsaFailed(err))
      case Ok(m) => Ok(m)
  }

  /** Any prime-first split of N rebuilds the same phi and d, and so the plaintext. */
  lemma DecryptWithFactors(p: int, q: int, a: int, b: int, e: int, c: int, m: int)
    requires IsPrime(p) && IsPrime(q) && p != q && IsPrime(a) && a * b == p * q
    requires e >= 1 && Gcd(e, (p - 1) * (q - 1)) == 1
    requires 0 <= m < p * q && Rsa.Encrypt(m, p * q, e) == Ok(c)
    ensures DecryptWith(p * q, e, c, a, b) == Ok(m)
  {
    SemiprimeSplitUnique(p, q, a, b);
    assert (a - 1) * (b - 1) == (p - 1) * (q - 1);
    Rsa.RoundTrip(p, q, e, m);
  }

  lemma SemiprimeIsComposite(p: int, q: int)
    requires IsPrime(p) && IsPrime(q)
    ensures p * q > 3 && Composite(p * q)
  {
    ProductAbove(p, q, 2);
    MultipleModZero(p, q);
    assert p < p * q by { assert p * q == p + p * (q - 1); MulAtLeast(p, q - 1); }
    assert (p * q) % p == 0;
  }
}
