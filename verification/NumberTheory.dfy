/**
 Integer arithmetic behind the RSA add-on: Python's floor division, the extended
 Euclidean algorithm, congruences, powers, primes and Fermat's little theorem.
 */
module NumberTheory {

  // ---------- Python's // and % ----------

  function Abs(a: int): nat {
    if a < 0 then -a else a
  }

  function FloorDiv(a: int, b: int): int
    requires b != 0
  {
    if b > 0 then a / b else (-a) / (-b)
  }

  function FloorMod(a: int, b: int): (r: int)
    requires b != 0
    ensures b > 0 ==> 0 <= r < b
    ensures b < 0 ==> b < r <= 0
    ensures a == FloorDiv(a, b) * b + r
  {
    a - FloorDiv(a, b) * b
  }

  // ---------- Congruence for a positive modulus ----------

  lemma MulAtLeast(n: int, k: int)
    requires n > 0 && k >= 1
    ensures n * k >= n
  {
    assert n * k == n * (k - 1) + n;
  }

  lemma DivModUnique(a: int, n: int, q: int, r: int)
    requires n > 0 && 0 <= r < n && a == n * q + r
    ensures a / n == q && a % n == r
  {
    var d := q - a / n;
    assert n * d == a % n - r;
    if d > 0 {
      MulAtLeast(n, d);
    } else if d < 0 {
      MulAtLeast(n, -d);
    }
  }

  lemma MultipleModZero(n: int, k: int)
    requires n > 0
    ensures (n * k) % n == 0 && (k * n) % n == 0
  {
    DivModUnique(n * k, n, k, 0);
  }

  predicate Cong(a: int, b: int, n: int)
    requires n > 0
  {
    a % n == b % n
  }

  lemma CongIffDivides(a: int, b: int, n: int)
    requires n > 0
    ensures Cong(a, b, n) <==> (a - b) % n == 0
  {
    var qa, qb := a / n, b / n;
    if a % n == b % n {
      assert a - b == n * (qa - qb);
      MultipleModZero(n, qa - qb);
    }
    if (a - b) % n == 0 {
      var k := (a - b) / n;
      assert a == n * (k + qb) + b % n;
      DivModUnique(a, n, k + qb, b % n);
    }
  }

  lemma CongOffset(a: int, n: int, k: int)
    requires n > 0
    ensures Cong(a + n * k, a, n)
  {
    MultipleModZero(n, k);
    CongIffDivides(a + n * k, a, n);
  }

  lemma CongMul(a: int, b: int, c: int, d: int, n: int)
    requires n > 0 && Cong(a, b, n) && Cong(c, d, n)
    ensures Cong(a * c, b * d, n)
  {
    CongIffDivides(a, b, n);
    CongIffDivides(c, d, n);
    var k, l := (a - b) / n, (c - d) / n;
    assert a == b + n * k && c == d + n * l;
    ProductOffset(b, d, n, k, l);
    CongOffset(b * d, n, b * l + k * d + k * (n * l));
  }

  lemma ProductOffset(b: int, d: int, n: int, k: int, l: int)
    ensures (b + n * k) * (d + n * l) == b * d + n * (b * l + k * d + k * (n * l))
  {
    var x, y := n * k, n * l;
    assert (b + x) * (d + y) == b * d + b * y + x * d + x * y;
    assert b * y == n * (b * l) && x * d == n * (k * d) && x * y == n * (k * y);
  }

  lemma CongAdd(a: int, b: int, c: int, d: int, n: int)
    requires n > 0 && Cong(a, b, n) && Cong(c, d, n)
    ensures Cong(a + c, b + d, n)
  {
    CongIffDivides(a, b, n);
    CongIffDivides(c, d, n);
    var k, l := (a - b) / n, (c - d) / n;
    assert a + c == (b + d) + n * (k + l);
    CongOffset(b + d, n, k + l);
  }

  // ---------- Powers ----------

  function Pow(b: int, e: nat): int {
    if e == 0 then 1 else b * Pow(b, e - 1)
  }

  lemma {:induction false} PowAdd(b: int, e: nat, f: nat)
    ensures Pow(b, e + f) == Pow(b, e) * Pow(b, f)
  {
    if e > 0 {
      PowAdd(b, e - 1, f);
      assert b * (Pow(b, e - 1) * Pow(b, f)) == (b * Pow(b, e - 1)) * Pow(b, f);
    }
  }

  lemma {:induction false} PowMul(b: int, e: nat, f: nat)
    ensures e * f >= 0
    ensures Pow(b, e * f) == Pow(Pow(b, e), f)
  {
    if f > 0 {
      PowMul(b, e, f - 1);
      assert e * f == e + e * (f - 1);
      PowAdd(b, e, e * (f - 1));
    }
  }

  lemma {:induction false} PowOfOne(e: nat)
    ensures Pow(1, e) == 1
  {
    if e > 0 {
      PowOfOne(e - 1);
    }
  }

  lemma {:induction false} CongPow(a: int, b: int, e: nat, n: int)
    requires n > 0 && Cong(a, b, n)
    ensures Cong(Pow(a, e), Pow(b, e), n)
  {
    if e > 0 {
      CongPow(a, b, e - 1, n);
      CongMul(a, b, Pow(a, e - 1), Pow(b, e - 1), n);
    }
  }

  /** Python's three-argument pow for a positive modulus. */
  function ModPow(b: int, e: nat, n: int): (r: int)
    requires n > 0
    ensures 0 <= r < n
  {
    Pow(b, e) % n
  }

  /** Reducing the base first does not change a modular power. */
  lemma ModPowCong(a: int, b: int, e: nat, n: int)
    requires n > 0 && Cong(a, b, n)
    ensures ModPow(a, e, n) == ModPow(b, e, n)
  {
    CongPow(a, b, e, n);
  }

  // ---------- Extended Euclid ----------

  /**
   egcd over all integers. Bezout's identity and the two divisibilities together
   say that the first component is the greatest common divisor.
   */
  function Egcd(a: int, b: int): (r: (int, int, int))
    decreases Abs(b)
  {
    if b == 0 then
      (Abs(a), if a >= 0 then 1 else -1, 0)
    else
      var (g, x1, y1) := Egcd(b, FloorMod(a, b));
      (g, y1, x1 - FloorDiv(a, b) * y1)
  }

  ghost predicate Divides(d: int, a: int) {
    exists k :: a == d * k
  }

  lemma DividesCombination(d: int, a: int, b: int, s: int, t: int)
    requires Divides(d, a) && Divides(d, b)
    ensures Divides(d, a * s + b * t)
  {
    var k :| a == d * k;
    var l :| b == d * l;
    assert a * s + b * t == d * (k * s + l * t) by {
      assert (d * k) * s == d * (k * s);
      assert (d * l) * t == d * (l * t);
    }
  }

  lemma BezoutStep(a: int, b: int, q: int, m: int, x: int, y: int)
    requires a == q * b + m
    ensures a * y + b * (x - q * y) == b * x + m * y
  {
    assert (q * b + m) * y == (q * b) * y + m * y;
    assert b * (x - q * y) == b * x - b * (q * y);
    assert b * (q * y) == (q * b) * y;
  }

  lemma {:induction false} EgcdBezout(a: int, b: int)
    ensures var (g, x, y) := Egcd(a, b); g == a * x + b * y && g >= 0
    decreases Abs(b)
  {
    if b != 0 {
      var q, m := FloorDiv(a, b), FloorMod(a, b);
      EgcdBezout(b, m);
      BezoutStep(a, b, q, m, Egcd(b, m).1, Egcd(b, m).2);
    }
  }

  lemma {:induction false} EgcdDivides(a: int, b: int)
    ensures Divides(Egcd(a, b).0, a) && Divides(Egcd(a, b).0, b)
    decreases Abs(b)
  {
    if b == 0 {
      assert a == Egcd(a, b).0 * (if a >= 0 then 1 else -1);
      assert b == Egcd(a, b).0 * 0;
    } else {
      var q, m := FloorDiv(a, b), FloorMod(a, b);
      EgcdDivides(b, m);
      DividesCombination(Egcd(b, m).0, b, m, q, 1);
      assert b * q + m * 1 == a;
    }
  }

  /** egcd returns a Bezout combination that is divisible by every common divisor and divides both arguments. */
  lemma EgcdIsGreatestCommonDivisor(a: int, b: int)
    ensures var (g, x, y) := Egcd(a, b);
            && g >= 0 && a * x + b * y == g
            && Divides(g, a) && Divides(g, b)
            && (forall d :: Divides(d, a) && Divides(d, b) ==> Divides(d, g))
  {
    EgcdBezout(a, b);
    EgcdDivides(a, b);
    var (g, x, y) := Egcd(a, b);
    forall d | Divides(d, a) && Divides(d, b)
      ensures Divides(d, g)
    {
      DividesCombination(d, a, b, x, y);
    }
  }

  /** math.gcd. */
  function Gcd(a: int, b: int): (g: nat)
  {
    EgcdBezout(a, b);
    Egcd(a, b).0
  }

  lemma DividesModZero(d: int, a: int)
    requires d > 0
    ensures Divides(d, a) <==> a % d == 0
  {
    if Divides(d, a) {
      var k :| a == d * k;
      MultipleModZero(d, k);
    }
    if a % d == 0 {
      assert a == d * (a / d);
    }
  }

  lemma PositiveFactors(g: int, k: int)
    requires g >= 0 && g * k > 0
    ensures g > 0 && k >= 1
  {
    if k <= 0 {
      NonPositiveProduct(g, k);
    }
  }

  lemma NonPositiveProduct(g: int, k: int)
    requires g >= 0 && k <= 0
    ensures g * k <= 0
  {
  }

  /** For b > 0 the gcd is positive, at most b, and divides both. */
  lemma GcdFacts(a: int, b: int)
    requires b > 0
    ensures 1 <= Gcd(a, b) <= b && a % Gcd(a, b) == 0 && b % Gcd(a, b) == 0
  {
    EgcdDivides(a, b);
    var g := Gcd(a, b);
    DivisorRange(g, b);
    DividesModZero(g, a);
    DividesModZero(g, b);
  }

  lemma DivisorRange(g: int, b: int)
    requires g >= 0 && b > 0 && Divides(g, b)
    ensures 1 <= g <= b
  {
    var k :| b == g * k;
    PositiveFactors(g, k);
    MulAtLeast(g, k);
  }

  // ---------- Primes ----------

  ghost predicate IsPrime(p: int) {
    p >= 2 && forall d :: 2 <= d < p ==> p % d != 0
  }

  lemma PrimeCoprime(p: int, a: int)
    requires IsPrime(p) && a % p != 0
    ensures Gcd(a, p) == 1
  {
    GcdFacts(a, p);
  }

  /** Euclid's lemma. */
  lemma EuclidLemma(p: int, a: int, b: int)
    requires IsPrime(p) && (a * b) % p == 0 && a % p != 0
    ensures b % p == 0
  {
    PrimeCoprime(p, a);
    EgcdBezout(a, p);
    var (g, x, y) := Egcd(a, p);
    assert a * x + p * y == 1;
    var k := (a * b) / p;
    EuclidFactor(p, a, b, x, y, k);
    MultipleModZero(p, k * x + y * b);
  }

  lemma EuclidFactor(p: int, a: int, b: int, x: int, y: int, k: int)
    requires a * x + p * y == 1 && a * b == p * k
    ensures b == p * (k * x + y * b)
  {
    assert b == (a * x + p * y) * b;
    assert (a * x) * b == (a * b) * x;
    assert (p * k) * x == p * (k * x);
    assert (p * y) * b == p * (y * b);
  }

  // ---------- Fermat's little theorem ----------

  function Choose(n: nat, k: nat): nat {
    if k == 0 then 1
    else if n == 0 then 0
    else Choose(n - 1, k - 1) + Choose(n - 1, k)
  }

  lemma {:induction false} ChooseBeyond(n: nat, k: nat)
    requires k > n
    ensures Choose(n, k) == 0
  {
    if n > 0 {
      ChooseBeyond(n - 1, k - 1);
      ChooseBeyond(n - 1, k);
    }
  }

  lemma AbsorbStep(n: int, k: int, c: int, d: int, e: int, f: int)
    requires (k - 1) * c == (n - 1) * e && k * d == (n - 1) * f && c == e + f
    ensures k * (c + d) == n * c
  {
    assert k * (c + d) == (k - 1) * c + c + k * d;
    assert (n - 1) * c == (n - 1) * e + (n - 1) * f;
    assert n * c == (n - 1) * c + c;
  }

  lemma {:induction false} ChooseAbsorb(n: nat, k: nat)
    requires n > 0 && k > 0
    ensures k * Choose(n, k) == n * Choose(n - 1, k - 1)
  {
    if n == 1 {
      if k > 1 {
        ChooseBeyond(n, k);
      }
    } else if k == 1 {
      ChooseAbsorb(n - 1, 1);
    } else {
      ChooseAbsorb(n - 1, k - 1);
      ChooseAbsorb(n - 1, k);
      AbsorbStep(n, k, Choose(n - 1, k - 1), Choose(n - 1, k), Choose(n - 2, k - 2), Choose(n - 2, k - 1));
    }
  }

  lemma PrimeDividesCofactor(p: int, k: int, c: int, m: int)
    requires IsPrime(p) && 0 < k < p && k * c == p * m
    ensures c % p == 0
  {
    MultipleModZero(p, m);
    DivModUnique(k, p, 0, k);
    EuclidLemma(p, k, c);
  }

  lemma PrimeDividesChoose(p: int, k: nat)
    requires IsPrime(p) && 0 < k < p
    ensures Choose(p, k) % p == 0
  {
    ChooseAbsorb(p, k);
    PrimeDividesCofactor(p, k, Choose(p, k), Choose(p - 1, k - 1));
  }

  /** Sum of Choose(n, i) * a^i for i < k. */
  function BinomialSum(n: nat, a: int, k: nat): int {
    if k == 0 then 0 else BinomialSum(n, a, k - 1) + Choose(n, k - 1) * Pow(a, k - 1)
  }

  lemma {:induction false} BinomialSumStep(n: nat, a: int, k: nat)
    requires k > 0
    ensures BinomialSum(n + 1, a, k) == BinomialSum(n, a, k) + a * BinomialSum(n, a, k - 1)
  {
    if k > 1 {
      BinomialSumStep(n, a, k - 1);
      var i := k - 1;
      BinomialTerm(a, Choose(n, i - 1), Choose(n, i), Pow(a, i - 1), BinomialSum(n, a, k - 2));
    } else {
      BinomialSumOne(n, a);
      BinomialSumOne(n + 1, a);
    }
  }

  lemma BinomialTerm(a: int, c0: int, c1: int, t: int, s: int)
    ensures (c0 + c1) * (a * t) + a * s == c1 * (a * t) + a * (s + c0 * t)
  {
    assert (c0 + c1) * (a * t) == c0 * (a * t) + c1 * (a * t);
    assert c0 * (a * t) == a * (c0 * t);
    assert a * (s + c0 * t) == a * s + a * (c0 * t);
  }

  lemma BinomialSumOne(n: nat, a: int)
    ensures BinomialSum(n, a, 1) == 1
  {
    assert BinomialSum(n, a, 0) == 0 && Pow(a, 0) == 1 && Choose(n, 0) == 1;
  }

  lemma {:induction false} BinomialTheorem(n: nat, a: int)
    ensures BinomialSum(n, a, n + 1) == Pow(a + 1, n)
  {
    if n == 0 {
      BinomialSumOne(0, a);
    } else {
      BinomialTheorem(n - 1, a);
      BinomialSumStep(n - 1, a, n + 1);
      ChooseBeyond(n - 1, n);
      var b := BinomialSum(n - 1, a, n);
      assert BinomialSum(n - 1, a, n + 1) == b;
      assert b + a * b == (a + 1) * b;
    }
  }

  lemma {:induction false} BinomialSumModPrime(p: int, a: int, k: nat)
    requires IsPrime(p) && 1 <= k <= p
    ensures Cong(BinomialSum(p, a, k), 1, p)
  {
    if k == 1 {
      BinomialSumOne(p, a);
    } else {
      BinomialSumModPrime(p, a, k - 1);
      PrimeDividesChoose(p, k - 1);
      var c := Choose(p, k - 1);
      CongMul(c, 0, Pow(a, k - 1), Pow(a, k - 1), p);
      CongAdd(BinomialSum(p, a, k - 1), 1, c * Pow(a, k - 1), 0, p);
    }
  }

  /** (a + 1)^p = a^p + 1 modulo p. */
  lemma FreshmansDream(p: int, a: int)
    requires IsPrime(p)
    ensures Cong(Pow(a + 1, p), Pow(a, p) + 1, p)
  {
    BinomialTheorem(p, a);
    BinomialSumModPrime(p, a, p);
    ChooseDiagonal(p);
    assert BinomialSum(p, a, p + 1) == BinomialSum(p, a, p) + Pow(a, p);
    CongAdd(BinomialSum(p, a, p), 1, Pow(a, p), Pow(a, p), p);
  }

  lemma {:induction false} ChooseDiagonal(n: nat)
    ensures Choose(n, n) == 1
  {
    if n > 0 {
      ChooseDiagonal(n - 1);
      ChooseBeyond(n - 1, n);
    }
  }

  lemma {:induction false} FermatPower(p: int, a: nat)
    requires IsPrime(p)
    ensures Cong(Pow(a, p), a, p)
  {
    if a == 0 {
      assert Pow(0, p) == 0 * Pow(0, p - 1);
    } else {
      FermatPower(p, a - 1);
      FreshmansDream(p, a - 1);
      CongAdd(Pow(a - 1, p), a - 1, 1, 1, p);
    }
  }

  /** Fermat's little theorem: a^(p-1) = 1 modulo a prime p that does not divide a. */
  lemma Fermat(p: int, a: nat)
    requires IsPrime(p) && a % p != 0
    ensures Cong(Pow(a, p - 1), 1, p)
  {
    FermatPower(p, a);
    CongIffDivides(Pow(a, p), a, p);
    var u := Pow(a, p - 1) - 1;
    assert Pow(a, p) == a * (u + 1);
    assert Pow(a, p) - a == a * u;
    EuclidLemma(p, a, u);
    CongIffDivides(Pow(a, p - 1), 1, p);
  }
}
