/** The Miller-Rabin test is_probable_prime, with the random witnesses as input. */
module MillerRabin {
  import opened Basics
  import opened NumberTheory

  const SMALL_PRIMES: seq<int> := [2, 3, 5, 7, 11, 13, 17, 19, 23, 29, 31, 37]

  ghost predicate Screened(n: int) {
    n in SMALL_PRIMES || forall p :: p in SMALL_PRIMES ==> n % p != 0
  }

  lemma SmallPrimesIndependent(i: nat, j: nat)
    requires i < j < |SMALL_PRIMES|
    ensures SMALL_PRIMES[j] % SMALL_PRIMES[i] != 0 && SMALL_PRIMES[i] % SMALL_PRIMES[j] != 0
  {
  }

  method TrySmallPrimes(n: int) returns (b: bool)
    ensures b <==> Screened(n)
    ensures b <==> n in SMALL_PRIMES || forall i :: 0 <= i < |SMALL_PRIMES| ==> n % SMALL_PRIMES[i] != 0
  {
    for i := 0 to |SMALL_PRIMES|
      invariant forall j :: 0 <= j < i ==> n % SMALL_PRIMES[j] != 0
    {
      var p := SMALL_PRIMES[i];
      if n == p {
        return true;
      }
      if n % p == 0 {
        assert p in SMALL_PRIMES;
        if n in SMALL_PRIMES {
          ghost var j :| 0 <= j < |SMALL_PRIMES| && SMALL_PRIMES[j] == n;
          if i < j { SmallPrimesIndependent(i, j); } else { SmallPrimesIndependent(j, i); }
        }
        return false;
      }
    }
    return true;
  }

  /** w^(d * 2^r) mod n. */
  function Tower(w: int, d: nat, r: nat, n: int): int
    requires n > 0
  {
    Pow(w, d * Pow2(r)) % n
  }

  lemma TowerSquares(w: int, d: nat, r: nat, n: int)
    requires n > 0
    ensures Tower(w, d, r + 1, n) == ModPow(Tower(w, d, r, n), 2, n)
  {
    var e := d * Pow2(r);
    assert d * Pow2(r + 1) == e * 2;
    PowMul(w, e, 2);
    var x := Pow(w, e);
    DivModUnique(x % n, n, 0, x % n);
    ModPowCong(x % n, x, 2, n);
  }

  /** n - 1 = d * 2^s with d odd. */
  ghost predicate OddDecomposition(n: int, d: nat, s: nat) {
    d % 2 == 1 && n - 1 == d * Pow2(s)
  }

  /** What it means for w to be no witness against n, for the given decomposition of n - 1. */
  ghost predicate StrongLiar(n: int, d: nat, s: nat, w: int)
    requires n > 0
  {
    || Tower(w, d, 0, n) == 1
    || exists r: nat :: r < s && Tower(w, d, r, n) == n - 1
  }

  ghost predicate Passes(n: int, d: nat, s: nat, witnesses: seq<int>)
    requires n > 0
  {
    forall i :: 0 <= i < |witnesses| ==> StrongLiar(n, d, s, witnesses[i])
  }

  lemma Pow2Even(d: nat, s: nat)
    requires s > 0
    ensures d * Pow2(s) == 2 * (d * Pow2(s - 1))
  {
    assert Pow2(s) == 2 * Pow2(s - 1);
    var t := Pow2(s - 1);
    assert d * (2 * t) == 2 * (d * t);
  }

  lemma {:induction false} DecompositionUnique(n: int, d: nat, s: nat, d': nat, s': nat)
    requires OddDecomposition(n, d, s) && OddDecomposition(n, d', s')
    ensures d == d' && s == s'
    decreases s
  {
    if s > 0 {
      Pow2Even(d, s);
    }
    if s' > 0 {
      Pow2Even(d', s');
    }
    if s > 0 && s' > 0 {
      DecompositionUnique(d * Pow2(s - 1) + 1, d, s - 1, d', s' - 1);
    }
  }

  // ---------- No prime is ever rejected ----------

  /** Modulo a prime, 1 has no square roots besides 1 and p - 1. */
  lemma SquareRootsOfOne(p: int, x: int)
    requires IsPrime(p) && 0 <= x < p && ModPow(x, 2, p) == 1
    ensures x == 1 || x == p - 1
  {
    assert Pow(x, 2) == x * x by { assert Pow(x, 1) == x * Pow(x, 0); }
    DivModUnique(1, p, 0, 1);
    CongIffDivides(x * x, 1, p);
    assert x * x - 1 == (x - 1) * (x + 1);
    if (x - 1) % p == 0 {
      if x != 1 {
        if x == 0 {
          DivModUnique(-1, p, -1, p - 1);
        } else {
          DivModUnique(x - 1, p, 0, x - 1);
        }
      }
    } else {
      EuclidLemma(p, x - 1, x + 1);
      if x + 1 < p {
        DivModUnique(x + 1, p, 0, x + 1);
      }
    }
  }

  /** Going down from a 1 at level r, the tower starts at 1 or hits p - 1 below r. */
  lemma {:induction false} DescendTower(p: int, w: int, d: nat, r: nat)
    requires IsPrime(p) && Tower(w, d, r, p) == 1
    ensures Tower(w, d, 0, p) == 1 || exists i: nat :: i < r && Tower(w, d, i, p) == p - 1
  {
    if r > 0 {
      TowerSquares(w, d, r - 1, p);
      SquareRootsOfOne(p, Tower(w, d, r - 1, p));
      if Tower(w, d, r - 1, p) == 1 {
        DescendTower(p, w, d, r - 1);
      }
    }
  }

  lemma PrimeHasOnlyStrongLiars(p: int, d: nat, s: nat, w: int)
    requires IsPrime(p) && OddDecomposition(p, d, s) && 2 <= w <= p - 2
    ensures StrongLiar(p, d, s, w)
  {
    DivModUnique(w, p, 0, w);
    DivModUnique(1, p, 0, 1);
    Fermat(p, w);
    DescendTower(p, w, d, s);
  }

  // ---------- What passing means, without the tower ----------

  /** h is e halved some number of times, without a remainder. */
  ghost predicate Halving(e: int, h: int) {
    exists j: nat :: e == h * Pow2(j)
  }

  /** On the way down from w^(n-1) by halving the exponent, 1 has no roots but 1 and n - 1. */
  ghost predicate TrivialRoots(n: int, w: int)
    requires n > 0
  {
    forall k: nat, h: nat :: h == 2 * k && Halving(n - 1, h) && ModPow(w, h, n) == 1
                             ==> ModPow(w, k, n) == 1 || ModPow(w, k, n) == n - 1
  }

  lemma TowerTop(n: int, d: nat, s: nat, w: int)
    requires n > 0 && OddDecomposition(n, d, s)
    ensures n >= 1 && Tower(w, d, s, n) == ModPow(w, n - 1, n)
  {
  }

  /** From a value that squares to 1 upwards, the tower is 1. */
  lemma {:induction false} TowerStaysOne(n: int, w: int, d: nat, r: nat, k: nat)
    requires n > 1 && (Tower(w, d, r, n) == 1 || (Tower(w, d, r, n) == n - 1 && k > 0))
    ensures Tower(w, d, r + k, n) == 1
    decreases k
  {
    if k > 0 {
      TowerSquares(w, d, r, n);
      SquareOfUnit(n, Tower(w, d, r, n));
      TowerStaysOne(n, w, d, r + 1, k - 1);
    }
  }

  lemma SquareOfUnit(n: int, x: int)
    requires n > 1 && (x == 1 || x == n - 1)
    ensures ModPow(x, 2, n) == 1
  {
    assert Pow(x, 2) == x * x by { assert Pow(x, 1) == x * Pow(x, 0); }
    if x == n - 1 {
      assert (n - 1) * (n - 1) == n * (n - 2) + 1;
      DivModUnique(x * x, n, n - 2, 1);
    } else {
      DivModUnique(1, n, 0, 1);
    }
  }

  /** Halving n - 1 stays on the tower: 2k = (n - 1) / 2^j means k = d * 2^i with i + 1 + j = s. */
  lemma {:induction false} HalvesOnTower(n: int, d: nat, s: nat, k: nat, j: nat) returns (i: nat)
    requires OddDecomposition(n, d, s) && n > 1 && n - 1 == (2 * k) * Pow2(j)
    ensures i + 1 + j == s && k == d * Pow2(i) && 2 * k == d * Pow2(i + 1)
    decreases j
  {
    if s > 0 {
      Pow2Even(d, s);
    }
    if j == 0 {
      i := s - 1;
      Pow2Even(d, s);
    } else {
      Pow2Even(2 * k, j);
      i := HalvesOnTower(d * Pow2(s - 1) + 1, d, s - 1, k, j - 1);
    }
  }

  /** Both halves of a strong liar: Fermat's condition, and only trivial square roots of 1 on the way down. */
  lemma LiarHasTrivialRoots(n: int, d: nat, s: nat, w: int)
    requires n > 3 && OddDecomposition(n, d, s) && StrongLiar(n, d, s, w) && n % 2 != 0
    ensures ModPow(w, n - 1, n) == 1
    ensures TrivialRoots(n, w)
  {
    var r: nat := if Tower(w, d, 0, n) == 1 then 0 else (var i: nat :| i < s && Tower(w, d, i, n) == n - 1; i);
    EvenSplits(n, d, s);
    TowerStaysOne(n, w, d, r, s - r);
    TowerTop(n, d, s, w);
    forall k: nat, h: nat | h == 2 * k && Halving(n - 1, h) && ModPow(w, h, n) == 1
      ensures ModPow(w, k, n) == 1 || ModPow(w, k, n) == n - 1
    {
      var j: nat :| n - 1 == h * Pow2(j);
      var i := HalvesOnTower(n, d, s, k, j);
      if i > r {
        TowerStaysOne(n, w, d, r, i - r);
      } else if i < r {
        TowerStaysOne(n, w, d, i + 1, r - i - 1);
      }
    }
  }

  lemma EvenSplits(n: int, d: nat, s: nat)
    requires n > 3 && n % 2 != 0 && OddDecomposition(n, d, s)
    ensures s >= 1
  {
    assert Pow2(0) == 1;
  }

  lemma {:induction false} RootsMakeLiar(n: int, d: nat, s: nat, w: int, r: nat)
    requires n > 3 && OddDecomposition(n, d, s) && r <= s && Tower(w, d, r, n) == 1
    requires TrivialRoots(n, w)
    ensures StrongLiar(n, d, s, w)
  {
    if r > 0 {
      hide TrivialRoots, OddDecomposition, Tower;
      TowerDown(n, d, s, w, r);
      if Tower(w, d, r - 1, n) == 1 {
        RootsMakeLiar(n, d, s, w, r - 1);
      }
    }
  }

  lemma TowerDown(n: int, d: nat, s: nat, w: int, r: nat)
    requires n > 3 && OddDecomposition(n, d, s) && TrivialRoots(n, w) && 0 < r <= s && Tower(w, d, r, n) == 1
    ensures Tower(w, d, r - 1, n) == 1 || Tower(w, d, r - 1, n) == n - 1
  {
    TowerStep(n, d, s, r);
    TowerIsPower(n, d, w, r);
    TowerIsPower(n, d, w, r - 1);
    hide Tower, OddDecomposition, TrivialRoots, ModPow;
    RootAt(n, w, d * Pow2(r - 1), s - r);
  }

  lemma TowerIsPower(n: int, d: nat, w: int, r: nat)
    requires n > 0
    ensures d * Pow2(r) >= 0 && Tower(w, d, r, n) == ModPow(w, d * Pow2(r), n)
  {
  }

  lemma RootAt(n: int, w: int, k: nat, j: nat)
    requires n > 0 && TrivialRoots(n, w) && n - 1 == (2 * k) * Pow2(j) && ModPow(w, 2 * k, n) == 1
    ensures ModPow(w, k, n) == 1 || ModPow(w, k, n) == n - 1
  {
    assert Halving(n - 1, 2 * k);
    hide ModPow, Halving;
  }

  lemma TowerStep(n: int, d: nat, s: nat, r: nat)
    requires OddDecomposition(n, d, s) && 0 < r <= s
    ensures n - 1 == (2 * (d * Pow2(r - 1))) * Pow2(s - r) && 2 * (d * Pow2(r - 1)) == d * Pow2(r)
  {
    Pow2Even(d, r);
    Pow2Sum(r, s - r);
    Regroup(d, Pow2(r), Pow2(s - r));
    assert r + (s - r) == s;
  }

  lemma Regroup(a: int, b: int, c: int)
    ensures (a * b) * c == a * (b * c)
  {
  }

  lemma {:induction false} Pow2Sum(a: nat, b: nat)
    ensures Pow2(a + b) == Pow2(a) * Pow2(b)
  {
    if a > 0 {
      Pow2Sum(a - 1, b);
      Regroup(2, Pow2(a - 1), Pow2(b));
    }
  }

  /** Fermat's condition alone already excludes every witness that shares a factor with n. */
  lemma FermatMeansCoprime(n: int, w: int)
    requires n > 1 && ModPow(w, n - 1, n) == 1
    ensures Gcd(w, n) == 1
  {
    GcdFacts(w, n);
    var g := Gcd(w, n);
    var x := Pow(w, n - 1);
    assert Pow(w, n - 1) == w * Pow(w, n - 2);
    DivisorOfOne(g, w / g, n / g, Pow(w, n - 2), x / n, w, n);
  }

  lemma DivisorOfOne(g: int, a: int, b: int, y: int, q: int, w: int, n: int)
    requires g > 0 && w == g * a && n == g * b && w * y == n * q + 1
    ensures g == 1
  {
    assert w * y == g * (a * y) && n * q == g * (b * q);
    assert g * (a * y - b * q) == 1;
    DivModUnique(1, g, a * y - b * q, 0);
    if g > 1 {
      DivModUnique(1, g, 0, 1);
    }
  }

  /** The twelve small primes are all the primes up to 37. */
  lemma SmallPrimesExact(p: int)
    ensures p in SMALL_PRIMES <==> IsPrime(p) && p <= 37
  {
    if 2 <= p <= 37 && p !in SMALL_PRIMES {
      assert p % 2 == 0 || p % 3 == 0 || p % 5 == 0;
    }
  }

  // ---------- The loop ----------

  /** The exact set of inputs on which the test answers True. */
  ghost predicate Accepts(n: int, witnesses: seq<int>) {
    || n == 2 || n == 3
    || (n > 3 && n % 2 != 0 && Screened(n)
        && exists d: nat, s: nat :: OddDecomposition(n, d, s) && Passes(n, d, s, witnesses))
  }

  /** Behind the screening, a True answer means Fermat's condition and trivial roots only, for every witness. */
  lemma AcceptsMeaning(n: int, witnesses: seq<int>)
    requires n > 3
    ensures Accepts(n, witnesses) <==>
            && n % 2 != 0 && Screened(n)
            && forall i :: 0 <= i < |witnesses| ==> ModPow(witnesses[i], n - 1, n) == 1 && TrivialRoots(n, witnesses[i])
    ensures Accepts(n, witnesses) ==> forall i :: 0 <= i < |witnesses| ==> Gcd(witnesses[i], n) == 1
  {
    if n % 2 != 0 {
      hide StrongLiar, TrivialRoots, Screened, OddDecomposition, ModPow;
      var d, s := Decomposition(n);
      forall i | 0 <= i < |witnesses|
        ensures StrongLiar(n, d, s, witnesses[i])
                <==> ModPow(witnesses[i], n - 1, n) == 1 && TrivialRoots(n, witnesses[i])
        ensures StrongLiar(n, d, s, witnesses[i]) ==> Gcd(witnesses[i], n) == 1
      {
        LiarExactly(n, d, s, witnesses[i]);
      }
      forall d': nat, s': nat | OddDecomposition(n, d', s')
        ensures d' == d && s' == s
      {
        DecompositionUnique(n, d, s, d', s');
      }
      assert Passes(n, d, s, witnesses) <==> forall i :: 0 <= i < |witnesses| ==> StrongLiar(n, d, s, witnesses[i]);
    }
  }

  lemma LiarExactly(n: int, d: nat, s: nat, w: int)
    requires n > 3 && n % 2 != 0 && OddDecomposition(n, d, s)
    ensures StrongLiar(n, d, s, w) <==> ModPow(w, n - 1, n) == 1 && TrivialRoots(n, w)
    ensures StrongLiar(n, d, s, w) ==> Gcd(w, n) == 1
  {
    TowerTop(n, d, s, w);
    hide StrongLiar, TrivialRoots;
    if StrongLiar(n, d, s, w) {
      LiarHasTrivialRoots(n, d, s, w);
      FermatMeansCoprime(n, w);
    } else if ModPow(w, n - 1, n) == 1 && TrivialRoots(n, w) {
      RootsMakeLiar(n, d, s, w, s);
    }
  }

  /** A prime passes every stage, whatever the witnesses drawn. */
  lemma PrimeAccepted(p: int, witnesses: seq<int>)
    requires IsPrime(p)
    requires p > 3 ==> forall i :: 0 <= i < |witnesses| ==> 2 <= witnesses[i] <= p - 2
    ensures Accepts(p, witnesses)
  {
    if p > 3 {
      forall q | q in SMALL_PRIMES && p !in SMALL_PRIMES
        ensures p % q != 0
      {
        if p < q {
          DivModUnique(p, q, 0, p);
        }
      }
      var d, s := Decomposition(p);
      forall i | 0 <= i < |witnesses|
        ensures StrongLiar(p, d, s, witnesses[i])
      {
        PrimeHasOnlyStrongLiars(p, d, s, witnesses[i]);
      }
      assert Passes(p, d, s, witnesses);
    }
  }

  lemma Decomposition(n: int) returns (d: nat, s: nat)
    requires n > 1
    ensures OddDecomposition(n, d, s)
    decreases n
  {
    if n % 2 == 0 {
      d, s := n - 1, 0;
    } else {
      d, s := Decomposition((n - 1) / 2 + 1);
      s := s + 1;
      Pow2Even(d, s);
    }
  }

  /** The loop that writes n - 1 as d * 2^s. */
  method Decompose(n: int) returns (d: nat, s: nat)
    requires n > 1
    ensures OddDecomposition(n, d, s)
  {
    d, s := n - 1, 0;
    while d % 2 == 0
      invariant d > 0 && d * Pow2(s) == n - 1
      decreases d
    {
      Pow2Even(d / 2, s + 1);
      assert 2 * ((d / 2) * Pow2(s)) == d * Pow2(s) by { assert d == 2 * (d / 2); }
      d := d / 2;
      s := s + 1;
    }
  }

  /**
   is_probable_prime(n, k) with its k draws from [2, n-2]. The answer is True exactly
   on Accepts, and so a prime is never rejected.
   */
  method IsProbablePrime(n: int, witnesses: seq<int>) returns (b: bool)
    requires n > 3 ==> forall i :: 0 <= i < |witnesses| ==> 2 <= witnesses[i] <= n - 2
    ensures IsPrime(n) ==> b
    ensures n < 2 ==> !b
    ensures n == 2 || n == 3 ==> b
    ensures n > 3 ==>
              (b <==>
               && n % 2 != 0
               && (n in SMALL_PRIMES || forall p :: p in SMALL_PRIMES ==> n % p != 0)
               && (forall i :: 0 <= i < |witnesses| ==>
                    && ModPow(witnesses[i], n - 1, n) == 1
                    && forall k: nat, h: nat :: h == 2 * k && Halving(n - 1, h) && ModPow(witnesses[i], h, n) == 1
                         ==> ModPow(witnesses[i], k, n) == 1 || ModPow(witnesses[i], k, n) == n - 1))
    ensures n > 3 && b ==> forall i :: 0 <= i < |witnesses| ==> Gcd(witnesses[i], n) == 1
  {
    b := RunTest(n, witnesses);
    if IsPrime(n) {
      PrimeAccepted(n, witnesses);
    }
    if n > 3 {
      AcceptsMeaning(n, witnesses);
      RootsSpelledOut(n, witnesses);
    }
  }

  lemma RootsSpelledOut(n: int, witnesses: seq<int>)
    requires n > 0
    ensures (forall i :: 0 <= i < |witnesses| ==> ModPow(witnesses[i], n - 1, n) == 1 && TrivialRoots(n, witnesses[i]))
            <==> (forall i :: 0 <= i < |witnesses| ==>
                    && ModPow(witnesses[i], n - 1, n) == 1
                    && forall k: nat, h: nat :: h == 2 * k && Halving(n - 1, h) && ModPow(witnesses[i], h, n) == 1
                         ==> ModPow(witnesses[i], k, n) == 1 || ModPow(witnesses[i], k, n) == n - 1)
  {
    hide ModPow, Halving;
    forall i | 0 <= i < |witnesses|
      ensures TrivialRoots(n, witnesses[i])
              <==> forall k: nat, h: nat :: h == 2 * k && Halving(n - 1, h) && ModPow(witnesses[i], h, n) == 1
                     ==> ModPow(witnesses[i], k, n) == 1 || ModPow(witnesses[i], k, n) == n - 1
    {
      RootsUnfold(n, witnesses[i]);
    }
    hide TrivialRoots;
  }

  lemma RootsUnfold(n: int, w: int)
    requires n > 0
    ensures TrivialRoots(n, w)
            <==> forall k: nat, h: nat :: h == 2 * k && Halving(n - 1, h) && ModPow(w, h, n) == 1
                   ==> ModPow(w, k, n) == 1 || ModPow(w, k, n) == n - 1
  {
    hide ModPow, Halving;
  }

  method RunTest(n: int, witnesses: seq<int>) returns (b: bool)
    requires n > 3 ==> forall i :: 0 <= i < |witnesses| ==> 2 <= witnesses[i] <= n - 2
    ensures b <==> Accepts(n, witnesses)
  {
    if n < 2 {
      return false;
    }
    if n == 2 || n == 3 {
      return true;
    }
    if n % 2 == 0 {
      return false;
    }
    var small := TrySmallPrimes(n);
    if !small {
      return false;
    }
    var d, s := Decompose(n);
    for i := 0 to |witnesses|
      invariant forall j :: 0 <= j < i ==> StrongLiar(n, d, s, witnesses[j])
    {
      var ok := PassesOne(n, d, s, witnesses[i]);
      if !ok {
        forall d': nat, s': nat | OddDecomposition(n, d', s')
          ensures !Passes(n, d', s', witnesses)
        {
          DecompositionUnique(n, d, s, d', s');
        }
        return false;
      }
    }
    assert Passes(n, d, s, witnesses);
    return true;
  }

  /** One round of the witness loop: the power, then at most s - 1 squarings. */
  method PassesOne(n: int, d: nat, s: nat, a: int) returns (ok: bool)
    requires n > 3 && n % 2 != 0 && OddDecomposition(n, d, s)
    ensures ok <==> StrongLiar(n, d, s, a)
  {
    assert s >= 1 by { if s == 0 { assert Pow2(s) == 1; } }
    var x := ModPow(a, d, n);
    assert d * Pow2(0) == d;
    assert x == Tower(a, d, 0, n);
    if x == 1 || x == n - 1 {
      return true;
    }
    for r := 0 to s - 1
      invariant x == Tower(a, d, r, n)
      invariant forall i: nat :: i <= r ==> Tower(a, d, i, n) != n - 1
    {
      TowerSquares(a, d, r, n);
      x := ModPow(x, 2, n);
      if x == n - 1 {
        assert Tower(a, d, r + 1, n) == n - 1;
        return true;
      }
    }
    return false;
  }
}
