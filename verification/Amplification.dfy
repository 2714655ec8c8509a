/**
 What the amplitudes of Grover's iteration do over the iterations: they turn by a fixed
 angle, and the weight on the marked strings grows exactly under a stated condition.
 */
module Amplification {
  import opened Basics
  import opened Circuit
  import opened Grover

  /** An unscaled iteration with m marked strings among big, on the two amplitudes. */
  function Turned(big: int, m: int, a: int, u: int): (int, int) {
    TurnedBy(2 * m - big, big - m, m, a, u)
  }

  function TurnedBy(c: int, k: int, m: int, a: int, u: int): (int, int) {
    (c * a - 2 * (k * u), 2 * (m * a) + c * u)
  }

  /** The oracle and the diffuser on amplitudes x and y that already carry the oracle's scale. */
  lemma TurnedForm(big: int, m: int, x: int, y: int)
    ensures var s := m * -x + (big - m) * y;
            Turned(big, m, x, y) == (big * -x - 2 * s, big * y - 2 * s)
  {
    assert (2 * m - big) * x == 2 * (m * x) - big * x;
    assert (2 * m - big) * y == 2 * (m * y) - big * y;
    assert (big - m) * y == big * y - m * y;
  }

  lemma TurnedScaled(big: int, m: int, p: int, a: int, u: int)
    ensures Turned(big, m, p * a, p * u) == (p * Turned(big, m, a, u).0, p * Turned(big, m, a, u).1)
  {
    var c, k := 2 * m - big, big - m;
    assert c * (p * a) == p * (c * a) && c * (p * u) == p * (c * u);
    assert k * (p * u) == p * (k * u) && m * (p * a) == p * (m * a);
    assert p * (c * a - 2 * (k * u)) == p * (c * a) - 2 * (p * (k * u));
    assert p * (2 * (m * a) + c * u) == 2 * (p * (m * a)) + p * (c * u);
  }

  /** An iteration turns the pair of amplitudes, and scales it by twice the oracle's factor. */
  lemma IterationTurns(n: nat, m: nat, t: nat)
    ensures var (a, u) := Amplitudes(n, m, t);
            var (a1, u1) := Turned(Pow2(n), m, a, u);
            Amplitudes(n, m, t + 1) == (2 * (Pow2(m) * a1), 2 * (Pow2(m) * u1))
  {
    var (a, u) := Amplitudes(n, m, t);
    TurnedForm(Pow2(n), m, Pow2(m) * a, Pow2(m) * u);
    TurnedScaled(Pow2(n), m, Pow2(m), a, u);
  }

  /** (2m - big)^2 + 4m(big - m) = big^2: the determinant of the turn. */
  lemma TurnDeterminant(big: int, m: int)
    ensures (2 * m - big) * (2 * m - big) + 4 * (m * (big - m)) == big * big
  {
    assert (2 * m - big) * (2 * m - big) == 4 * (m * m) - 4 * (m * big) + big * big;
    assert m * (big - m) == m * big - m * m;
  }

  /** Two turns obey the three-term recurrence of a rotation. */
  lemma TurnedTwice(big: int, m: int, a: int, u: int)
    ensures var (a1, u1) := Turned(big, m, a, u);
            Turned(big, m, a1, u1) == (2 * ((2 * m - big) * a1) - (big * big) * a,
                                       2 * ((2 * m - big) * u1) - (big * big) * u)
  {
    TurnDeterminant(big, m);
    hide TurnedBy;
    TwiceForm(2 * m - big, big - m, m, big * big, a, u);
  }

  lemma TwiceForm(c: int, k: int, m: int, d: int, a: int, u: int)
    requires c * c + 4 * (m * k) == d
    ensures var (a1, u1) := TurnedBy(c, k, m, a, u);
            TurnedBy(c, k, m, a1, u1) == (2 * (c * a1) - d * a, 2 * (c * u1) - d * u)
  {
    TwiceFirst(c, k, m, d, a, u);
    TwiceSecond(c, k, m, d, a, u);
  }

  lemma Distribute(x: int, e: int, a: int)
    ensures (x + 4 * e) * a == x * a + 4 * (e * a)
  {
  }

  lemma MinusTwice(c: int, x: int, y: int)
    ensures c * (x - 2 * y) == c * x - 2 * (c * y) && c * (2 * y + x) == 2 * (c * y) + c * x
  {
  }

  lemma Swap(x: int, y: int, z: int)
    ensures x * (y * z) == y * (x * z) && x * (y * z) == (x * y) * z
  {
  }

  lemma TwiceFirst(c: int, k: int, m: int, d: int, a: int, u: int)
    requires c * c + 4 * (m * k) == d
    ensures c * (c * a - 2 * (k * u)) + 2 * (k * (2 * (m * a) + c * u)) == d * a
  {
    Distribute(c * c, m * k, a);
    MinusTwice(c, c * a, k * u);
    MinusTwice(k, c * u, m * a);
    Swap(c, c, a);
    Swap(c, k, u);
    Swap(k, m, a);
    Swap(m, k, a);
  }

  lemma TwiceSecond(c: int, k: int, m: int, d: int, a: int, u: int)
    requires c * c + 4 * (m * k) == d
    ensures c * (2 * (m * a) + c * u) - 2 * (m * (c * a - 2 * (k * u))) == d * u
  {
    Distribute(c * c, m * k, u);
    MinusTwice(c, c * u, m * a);
    MinusTwice(m, c * a, k * u);
    Swap(c, c, u);
    Swap(c, m, a);
    Swap(m, k, u);
  }

  /**
   The amplitudes of every run obey the recurrence of a rotation whose half trace over the
   root of the determinant is (2m - 2^n) / 2^n, at any iteration.
   */
  lemma {:induction false} RotationRecurrence(n: nat, m: nat, t: nat)
    ensures var big, p := Pow2(n), 2 * Pow2(m);
            var (a, u) := Amplitudes(n, m, t);
            var (a1, u1) := Amplitudes(n, m, t + 1);
            Amplitudes(n, m, t + 2) == (2 * (p * ((2 * m - big) * a1)) - p * (p * ((big * big) * a)),
                                        2 * (p * ((2 * m - big) * u1)) - p * (p * ((big * big) * u)))
  {
    hide Amplitudes, Turned;
    var big, p := Pow2(n), 2 * Pow2(m);
    var (a, u) := Amplitudes(n, m, t);
    var (b, v) := Turned(big, m, a, u);
    TwoIterations(n, m, t);
    IterationTurns(n, m, t);
    Doubled(Pow2(m), b);
    Doubled(Pow2(m), v);
    TurnedTwice(big, m, a, u);
    Rescale(p, 2 * m - big, b, (big * big) * a);
    Rescale(p, 2 * m - big, v, (big * big) * u);
  }

  lemma TwoIterations(n: nat, m: nat, t: nat)
    ensures var big, p := Pow2(n), 2 * Pow2(m);
            var (a, u) := Amplitudes(n, m, t);
            var (b, v) := Turned(big, m, a, u);
            var (c, w) := Turned(big, m, b, v);
            Amplitudes(n, m, t + 2) == (p * (p * c), p * (p * w))
  {
    hide Amplitudes, Turned;
    var big, p := Pow2(n), 2 * Pow2(m);
    var (a, u) := Amplitudes(n, m, t);
    var (b, v) := Turned(big, m, a, u);
    var (c, w) := Turned(big, m, b, v);
    IterationTurns(n, m, t);
    IterationTurns(n, m, t + 1);
    Doubled(Pow2(m), b);
    Doubled(Pow2(m), v);
    TurnedScaled(big, m, p, b, v);
    Doubled(Pow2(m), p * c);
    Doubled(Pow2(m), p * w);
  }

  lemma Rescale(p: int, c: int, b: int, x: int)
    ensures p * (p * (2 * (c * b) - x)) == 2 * (p * (c * (p * b))) - p * (p * x)
  {
    assert p * (2 * (c * b) - x) == 2 * (p * (c * b)) - p * x;
    assert p * (c * b) == c * (p * b);
    assert p * (2 * (c * (p * b)) - p * x) == 2 * (p * (c * (p * b))) - p * (p * x);
  }

  // ---------- Growth of the marked weight ----------

  /** The squared amplitudes on the m marked strings, and on all of big. */
  function MarkedWeight(m: int, a: int): int {
    m * (a * a)
  }

  function FullWeight(big: int, m: int, a: int, u: int): int {
    m * (a * a) + (big - m) * (u * u)
  }

  lemma SquareForm(m: int, x: int, y: int)
    ensures m * ((x + 2 * y) * (x + 2 * y)) == m * (x * x) + 4 * (m * (x * y)) + 4 * (m * (y * y))
  {
    assert (x + 2 * y) * (x + 2 * y) == x * x + 4 * (x * y) + 4 * (y * y);
  }

  lemma WeightForm(c: int, k: int, m: int, d: int, a: int, u: int)
    requires c * c + 4 * (m * k) == d
    ensures var x, y := c * a - 2 * (k * u), 2 * (m * a) + c * u;
            m * (x * x) + k * (y * y) == d * (m * (a * a) + k * (u * u))
  {
    var p, q, r, s := c * a, k * u, m * a, c * u;
    SquareForm(m, p, -q);
    SquareForm(k, s, r);
    Monomial(m, c, a, k, u);
    Squares(m, c, a);
    Squares(k, c, u);
    CrossSquares(m, k, u);
    CrossSquares(k, m, a);
    SquareSigns(m, p, q);
    WeightSum(c * c, m * k, d, m * (a * a), k * (u * u), m * (p * q));
  }

  lemma SquareSigns(m: int, p: int, q: int)
    ensures m * (p * -q) == -(m * (p * q)) && m * (-q * -q) == m * (q * q)
  {
  }

  lemma WeightSum(x: int, e: int, d: int, v: int, w: int, t: int)
    requires x + 4 * e == d
    ensures (x * v - 4 * t + 4 * (e * w)) + (x * w + 4 * t + 4 * (e * v)) == d * (v + w)
  {
  }

  lemma Monomial(m: int, c: int, a: int, k: int, u: int)
    ensures m * ((c * a) * (k * u)) == k * ((c * u) * (m * a))
  {
  }

  lemma Squares(m: int, c: int, a: int)
    ensures m * ((c * a) * (c * a)) == (c * c) * (m * (a * a))
  {
  }

  lemma CrossSquares(m: int, k: int, u: int)
    ensures m * ((k * u) * (k * u)) == (m * k) * (k * (u * u)) == (k * m) * (k * (u * u))
  {
  }

  /** A turn scales the full weight by big^2. */
  lemma TurnedWeight(big: int, m: int, a: int, u: int)
    ensures var (a1, u1) := Turned(big, m, a, u);
            FullWeight(big, m, a1, u1) == (big * big) * FullWeight(big, m, a, u)
  {
    TurnDeterminant(big, m);
    WeightForm(2 * m - big, big - m, m, big * big, a, u);
  }

  lemma ScaledWeight(big: int, m: int, p: int, a: int, u: int)
    ensures MarkedWeight(m, p * a) == (p * p) * MarkedWeight(m, a)
    ensures FullWeight(big, m, p * a, p * u) == (p * p) * FullWeight(big, m, a, u)
  {
    Squares(m, p, a);
    Squares(big - m, p, u);
  }

  /** The marked amplitude grows against the turn's scale by a product of two linear forms. */
  lemma TurnedGrowth(big: int, m: int, a: int, u: int)
    ensures var (a1, _) := Turned(big, m, a, u);
            a1 * a1 - (big * big) * (a * a) == 4 * ((big - m) * ((a + u) * ((big - m) * u - m * a)))
  {
    var k, b := big - m, big * a;
    var a1 := Turned(big, m, a, u).0;
    assert a1 - b == -2 * (k * (a + u)) by { assert (2 * m - big) * a == 2 * (m * a) - b; assert k * a == b - m * a; }
    assert a1 + b == -2 * (k * u - m * a) by { assert (2 * m - big) * a == 2 * (m * a) - b; }
    Difference(a1, b, k * (a + u), k * u - m * a);
    assert b * b == (big * big) * (a * a);
    assert (k * (a + u)) * (k * u - m * a) == k * ((a + u) * (k * u - m * a));
  }

  lemma Difference(x: int, y: int, s: int, t: int)
    requires x - y == -2 * s && x + y == -2 * t
    ensures x * x - y * y == 4 * (s * t)
  {
    assert x == -s - t && y == s - t;
  }

  /** The full weight never vanishes. */
  lemma {:induction false} WeightPositive(n: nat, m: nat, t: nat)
    requires m <= Pow2(n)
    ensures var (a, u) := Amplitudes(n, m, t); FullWeight(Pow2(n), m, a, u) > 0
  {
    if t > 0 {
      WeightPositive(n, m, t - 1);
      WeightStep(n, m, t - 1);
      var (a, u) := Amplitudes(n, m, t - 1);
      hide Amplitudes;
      var big, p := Pow2(n), 2 * Pow2(m);
      ProductPositive(big, big);
      ProductPositive(p, p);
      ProductPositive(big * big, FullWeight(big, m, a, u));
      ProductPositive(p * p, (big * big) * FullWeight(big, m, a, u));
    }
  }

  /** Every iteration scales the full weight by the same factor. */
  lemma {:induction false} WeightStep(n: nat, m: nat, t: nat)
    ensures var (a, u) := Amplitudes(n, m, t);
            var (a1, u1) := Amplitudes(n, m, t + 1);
            var big, p := Pow2(n), 2 * Pow2(m);
            FullWeight(big, m, a1, u1) == (p * p) * ((big * big) * FullWeight(big, m, a, u))
  {
    hide Amplitudes, Turned, FullWeight;
    var (a, u) := Amplitudes(n, m, t);
    var (a1, u1) := Turned(Pow2(n), m, a, u);
    IterationTurns(n, m, t);
    TurnedWeight(Pow2(n), m, a, u);
    ScaledWeight(Pow2(n), m, 2 * Pow2(m), a1, u1);
    Doubled(Pow2(m), a1);
    Doubled(Pow2(m), u1);
  }

  lemma Doubled(p: int, x: int)
    ensures 2 * (p * x) == (2 * p) * x
  {
  }

  lemma ProductPositive(x: int, y: int)
    requires x > 0 && y > 0
    ensures x * y > 0
  {
  }

  /** Iteration t + 1 strictly raises the marked share of the weight. */
  predicate Grows(n: nat, m: nat, t: nat) {
    var (a, u) := Amplitudes(n, m, t);
    var (a1, u1) := Amplitudes(n, m, t + 1);
    MarkedWeight(m, a1) * FullWeight(Pow2(n), m, a, u) > MarkedWeight(m, a) * FullWeight(Pow2(n), m, a1, u1)
  }

  lemma ShareCompare(q: int, d: int, m: int, x: int, y: int, f: int)
    requires q > 0 && f > 0 && m >= 0
    ensures (q * (m * x)) * f > (m * y) * (q * (d * f)) <==> m > 0 && x > d * y
  {
    var z := x - d * y;
    ShareDifference(q, d, m, x, y, f);
    ProductPositive(q, f);
    PositiveFactor(q * f, m * z);
    if m > 0 {
      PositiveFactor(m, z);
    }
  }

  lemma ShareDifference(q: int, d: int, m: int, x: int, y: int, f: int)
    ensures (q * (m * x)) * f - (m * y) * (q * (d * f)) == (q * f) * (m * (x - d * y))
  {
    assert (q * (m * x)) * f == (q * f) * (m * x);
    assert (m * y) * (q * (d * f)) == (q * f) * (m * (d * y));
    assert m * (x - d * y) == m * x - m * (d * y);
    assert (q * f) * (m * x - m * (d * y)) == (q * f) * (m * x) - (q * f) * (m * (d * y));
  }

  lemma PositiveFactor(x: int, y: int)
    requires x > 0
    ensures x * y > 0 <==> y > 0
  {
    if y < 0 {
      assert x * -y > 0 by { ProductPositive(x, -y); }
      assert x * y == -(x * -y);
    } else if y > 0 {
      ProductPositive(x, y);
    }
  }

  /**
   Amplification, for every iteration of every run: it raises the marked share exactly when
   some but not all strings are marked and the two forms a + u and (2^n - m)u - ma of the
   amplitudes have the same sign.
   */
  lemma {:induction false} GrowthExact(n: nat, m: nat, t: nat)
    requires m <= Pow2(n)
    ensures var (a, u) := Amplitudes(n, m, t);
            Grows(n, m, t) <==> 0 < m < Pow2(n) && (a + u) * ((Pow2(n) - m) * u - m * a) > 0
  {
    hide Amplitudes, Turned;
    var big, p := Pow2(n), 2 * Pow2(m);
    var (a, u) := Amplitudes(n, m, t);
    var (a1, u1) := Turned(big, m, a, u);
    IterationTurns(n, m, t);
    WeightPositive(n, m, t);
    WeightStep(n, m, t);
    Doubled(Pow2(m), a1);
    Squares(m, p, a1);
    ProductPositive(p, p);
    var f := FullWeight(big, m, a, u);
    hide FullWeight;
    ShareCompare(p * p, big * big, m, a1 * a1, a * a, f);
    TurnedGrowth(big, m, a, u);
    if m < big {
      PositiveFactor(big - m, (a + u) * ((big - m) * u - m * a));
    }
  }

  /** The first iteration raises the marked share exactly when fewer than half of all strings are marked. */
  lemma {:induction false} FirstIterationGrows(n: nat, m: nat)
    requires m <= Pow2(n)
    ensures Grows(n, m, 0) <==> 0 < m && 2 * m < Pow2(n)
  {
    GrowthExact(n, m, 0);
    assert Amplitudes(n, m, 0) == (1, 1);
  }

  // ---------- Growth on the circuit's state ----------

  /** The squared amplitudes of a state on the marked strings, summed over all basis states. */
  ghost function MarkedNorm(n: nat, marked: seq<string>, v: State): int {
    Total(n, b => if StringOf(b) in marked then v(b) * v(b) else 0)
  }

  lemma NormsOfTwoValued(n: nat, marked: seq<string>, a: int, u: int, v: State)
    requires Distinct(marked) && AllWellFormed(n, marked) && Same(n, v, TwoValued(marked, a, u))
    ensures MarkedNorm(n, marked, v) == MarkedWeight(|marked|, a)
    ensures Norm(n, v) == FullWeight(Pow2(n), |marked|, a, u)
  {
    TotalCongruent(n, b => if StringOf(b) in marked then v(b) * v(b) else 0, TwoValued(marked, a * a, 0));
    TotalTwoValued(n, marked, a * a, 0);
    TwoValuedSquares(n, marked, a, u, v);
    TotalTwoValued(n, marked, a * a, u * u);
  }

  lemma {:induction false} SumOverMonotone(k: nat, v: State, w: State, tail: Basis)
    requires forall b :: v(b) <= w(b)
    ensures SumOver(k, v, tail) <= SumOver(k, w, tail)
  {
    if k > 0 {
      SumOverMonotone(k - 1, v, w, [false] + tail);
      SumOverMonotone(k - 1, v, w, [true] + tail);
    }
  }

  /** Distinct strings of n bits are at most 2^n. */
  lemma MarkedFit(n: nat, marked: seq<string>)
    requires Distinct(marked) && AllWellFormed(n, marked)
    ensures |marked| <= Pow2(n)
  {
    CountMarked(n, marked);
    SumOverMonotone(n, TwoValued(marked, 1, 0), b => 1, []);
    SumOverConstant(n, 1, []);
  }

  /** The state that the circuit with t iterations makes of the all-zero state. */
  ghost function StateAfter(n: nat, marked: seq<string>, t: nat): State
    requires n >= 1 && AllWellFormed(n, marked)
  {
    Run(Iterated(n, marked, t), Zero())
  }

  /**
   Amplification on the state itself: for distinct marked strings, one more iteration of the
   built circuit raises the marked share of the squared norm exactly when some but not all
   strings are marked and the two forms of the amplitudes have the same sign.
   */
  lemma {:induction false} StateGrowthExact(n: nat, marked: seq<string>, t: nat)
    requires n >= 1 && Distinct(marked) && AllWellFormed(n, marked)
    ensures var v, v' := StateAfter(n, marked, t), StateAfter(n, marked, t + 1);
            var (a, u) := Amplitudes(n, |marked|, t);
            MarkedNorm(n, marked, v') * Norm(n, v) > MarkedNorm(n, marked, v) * Norm(n, v')
            <==> 0 < |marked| < Pow2(n) && (a + u) * ((Pow2(n) - |marked|) * u - |marked| * a) > 0
  {
    hide Amplitudes, Same, MarkedNorm, Norm, FullWeight, MarkedWeight;
    var m := |marked|;
    var (a, u) := Amplitudes(n, m, t);
    var (a1, u1) := Amplitudes(n, m, t + 1);
    GroverMeaning(n, marked, t);
    GroverMeaning(n, marked, t + 1);
    NormsOfTwoValued(n, marked, a, u, StateAfter(n, marked, t));
    NormsOfTwoValued(n, marked, a1, u1, StateAfter(n, marked, t + 1));
    MarkedFit(n, marked);
    GrowthExact(n, m, t);
  }
}
