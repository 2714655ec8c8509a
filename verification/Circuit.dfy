/**
 Gate-level semantics. A state of n qubits gives an integer amplitude to each basis
 state, a seq<bool> whose element i is the value of qubit i. H is unnormalised,
 (a, b) -> (a + b, a - b), so each H gate carries a factor of sqrt 2 that the
 theorems account for.
 */
module Circuit {
  import opened Basics

  datatype Gate =
    | X(qubit: nat)
    | H(qubit: nat)
    | Mcx(controls: seq<nat>, target: nat)

  type Basis = seq<bool>
  type State = Basis -> int

  predicate WellFormedGate(n: nat, g: Gate) {
    match g
    case X(i) => i < n
    case H(i) => i < n
    case Mcx(cs, t) => t < n && t !in cs && forall k :: 0 <= k < |cs| ==> cs[k] < n
  }

  predicate WellFormed(n: nat, c: seq<Gate>) {
    forall k :: 0 <= k < |c| ==> WellFormedGate(n, c[k])
  }

  predicate AllOn(controls: seq<nat>, b: Basis) {
    forall k :: 0 <= k < |controls| ==> controls[k] < |b| && b[controls[k]]
  }

  function Flip(b: Basis, i: nat): Basis
    requires i < |b|
  {
    b[i := !b[i]]
  }

  function Amplitude(g: Gate, v: State, b: Basis): int {
    match g
    case X(i) => if i < |b| then v(Flip(b, i)) else v(b)
    case H(i) =>
      if i < |b| then
        if b[i] then v(b[i := false]) - v(b[i := true]) else v(b[i := false]) + v(b[i := true])
      else v(b)
    case Mcx(cs, t) => if t < |b| && AllOn(cs, b) then v(Flip(b, t)) else v(b)
  }

  function Apply(g: Gate, v: State): State {
    b => Amplitude(g, v, b)
  }

  function Run(c: seq<Gate>, v: State): State {
    if c == [] then v else Run(c[1..], Apply(c[0], v))
  }

  lemma {:induction false} RunAppend(c: seq<Gate>, d: seq<Gate>, v: State)
    ensures Run(c + d, v) == Run(d, Run(c, v))
  {
    if c == [] {
      assert c + d == d;
    } else {
      assert (c + d)[1..] == c[1..] + d;
      RunAppend(c[1..], d, Apply(c[0], v));
    }
  }

  lemma RunOne(g: Gate, v: State)
    ensures Run([g], v) == Apply(g, v)
  {
    assert [g][1..] == [];
    assert Run([], Apply(g, v)) == Apply(g, v);
  }

  lemma RunSnoc(c: seq<Gate>, g: Gate, v: State)
    ensures Run(c + [g], v) == Apply(g, Run(c, v))
  {
    RunAppend(c, [g], v);
    RunOne(g, Run(c, v));
  }

  /** Agreement on the basis states of n qubits; other sequences carry no meaning. */
  ghost predicate Same(n: nat, v: State, w: State) {
    forall b: Basis :: |b| == n ==> v(b) == w(b)
  }

  lemma {:induction false} RunSame(n: nat, c: seq<Gate>, v: State, w: State)
    requires Same(n, v, w)
    ensures Same(n, Run(c, v), Run(c, w))
  {
    if c != [] {
      assert Same(n, Apply(c[0], v), Apply(c[0], w));
      RunSame(n, c[1..], Apply(c[0], v), Apply(c[0], w));
    }
  }

  function Scaled(k: int, v: State): State {
    b => k * v(b)
  }

  lemma GateLinear(g: Gate, x: int, v: State, y: int, w: State, u: State, b: Basis)
    requires forall c :: u(c) == x * v(c) + y * w(c)
    ensures Amplitude(g, u, b) == x * Amplitude(g, v, b) + y * Amplitude(g, w, b)
  {
    if g.H? && g.qubit < |b| {
      var b0, b1 := b[g.qubit := false], b[g.qubit := true];
      LinearStep(x, v(b0), v(b1), y, w(b0), w(b1));
      LinearStep(x, v(b0), -v(b1), y, w(b0), -w(b1));
      assert x * -v(b1) == -(x * v(b1)) && y * -w(b1) == -(y * w(b1));
    }
  }

  /** Circuits are linear: they commute with every combination of two states. */
  lemma {:induction false} RunLinear(c: seq<Gate>, x: int, v: State, y: int, w: State, u: State)
    requires forall b :: u(b) == x * v(b) + y * w(b)
    ensures forall b :: Run(c, u)(b) == x * Run(c, v)(b) + y * Run(c, w)(b)
    decreases |c|
  {
    if c != [] {
      forall b
        ensures Apply(c[0], u)(b) == x * Apply(c[0], v)(b) + y * Apply(c[0], w)(b)
      {
        GateLinear(c[0], x, v, y, w, u, b);
      }
      RunLinear(c[1..], x, Apply(c[0], v), y, Apply(c[0], w), Apply(c[0], u));
    }
  }

  // ---------- Sums over all basis states ----------

  /** Sum of v over the 2^k basis states whose qubits from k on are given by tail. */
  ghost function SumOver(k: nat, v: State, tail: Basis): int {
    if k == 0 then v(tail)
    else SumOver(k - 1, v, [false] + tail) + SumOver(k - 1, v, [true] + tail)
  }

  ghost function Total(n: nat, v: State): int {
    SumOver(n, v, [])
  }

  lemma {:induction false} SumOverCongruent(k: nat, v: State, w: State, tail: Basis)
    requires forall p: Basis :: |p| == k ==> v(p + tail) == w(p + tail)
    ensures SumOver(k, v, tail) == SumOver(k, w, tail)
  {
    if k == 0 {
      assert [] + tail == tail;
    } else {
      SplitTail(k, tail);
      SumOverCongruent(k - 1, v, w, [false] + tail);
      SumOverCongruent(k - 1, v, w, [true] + tail);
    }
  }

  lemma SplitTail(k: nat, tail: Basis)
    requires k > 0
    ensures forall p: Basis, x: bool :: |p| == k - 1 ==> p + ([x] + tail) == (p + [x]) + tail
  {
  }

  lemma TotalCongruent(n: nat, v: State, w: State)
    requires Same(n, v, w)
    ensures Total(n, v) == Total(n, w)
  {
    SumOverCongruent(n, v, w, []);
  }

  lemma {:induction false} SumOverLinear(k: nat, x: int, v: State, y: int, w: State, u: State, tail: Basis)
    requires forall b :: u(b) == x * v(b) + y * w(b)
    ensures SumOver(k, u, tail) == x * SumOver(k, v, tail) + y * SumOver(k, w, tail)
  {
    if k > 0 {
      SumOverLinear(k - 1, x, v, y, w, u, [false] + tail);
      SumOverLinear(k - 1, x, v, y, w, u, [true] + tail);
      LinearStep(x, SumOver(k - 1, v, [false] + tail), SumOver(k - 1, v, [true] + tail),
                 y, SumOver(k - 1, w, [false] + tail), SumOver(k - 1, w, [true] + tail));
    }
  }

  lemma LinearStep(x: int, a: int, b: int, y: int, c: int, d: int)
    ensures (x * a + y * c) + (x * b + y * d) == x * (a + b) + y * (c + d)
  {
  }

  lemma {:induction false} SumOverConstant(k: nat, x: int, tail: Basis)
    ensures SumOver(k, b => x, tail) == Pow2(k) * x
  {
    if k > 0 {
      SumOverConstant(k - 1, x, [false] + tail);
      SumOverConstant(k - 1, x, [true] + tail);
      assert Pow2(k) * x == Pow2(k - 1) * x + Pow2(k - 1) * x;
    }
  }

  // ---------- Conservation of the squared norm ----------

  function Squared(v: State): State {
    b => v(b) * v(b)
  }

  ghost function Norm(n: nat, v: State): int {
    Total(n, Squared(v))
  }

  /** f and g have the same sum over every pair of basis states differing in qubit i. */
  ghost predicate PairwiseEqual(n: nat, i: nat, f: State, g: State)
    requires i < n
  {
    forall b: Basis :: |b| == n ==>
      f(b[i := false]) + f(b[i := true]) == g(b[i := false]) + g(b[i := true])
  }

  /** The same for pairs of tails differing in qubit i >= k, summed over the qubits below k. */
  lemma {:induction false} PairedSums(n: nat, k: nat, i: nat, f: State, g: State, tail: Basis)
    requires k <= i < n == k + |tail| && PairwiseEqual(n, i, f, g)
    ensures var t0, t1 := tail[i - k := false], tail[i - k := true];
            SumOver(k, f, t0) + SumOver(k, f, t1) == SumOver(k, g, t0) + SumOver(k, g, t1)
  {
    if k > 0 {
      PairedSums(n, k - 1, i, f, g, [false] + tail);
      PairedSums(n, k - 1, i, f, g, [true] + tail);
      UpdateBehind(false, tail, i - k, false);
      UpdateBehind(false, tail, i - k, true);
      UpdateBehind(true, tail, i - k, false);
      UpdateBehind(true, tail, i - k, true);
    }
  }

  lemma UpdateBehind(x: bool, tail: Basis, j: nat, y: bool)
    requires j < |tail|
    ensures ([x] + tail)[j + 1 := y] == [x] + tail[j := y]
  {
  }

  lemma {:induction false} PairwiseSum(n: nat, k: nat, i: nat, f: State, g: State, tail: Basis)
    requires i < k && n == k + |tail| && PairwiseEqual(n, i, f, g)
    ensures SumOver(k, f, tail) == SumOver(k, g, tail)
  {
    var t0, t1 := [false] + tail, [true] + tail;
    if i == k - 1 {
      PairedSums(n, k - 1, i, f, g, t0);
      assert t0[0 := false] == t0 && t0[0 := true] == t1;
    } else {
      PairwiseSum(n, k - 1, i, f, g, t0);
      PairwiseSum(n, k - 1, i, f, g, t1);
    }
  }

  lemma TotalScaled(n: nat, k: int, v: State)
    ensures Total(n, Scaled(k, v)) == k * Total(n, v)
  {
    SumOverLinear(n, k, v, 0, v, Scaled(k, v), []);
  }

  function Hadamards(c: seq<Gate>): nat {
    if c == [] then 0 else (if c[0].H? then 1 else 0) + Hadamards(c[1..])
  }

  function GateQubit(g: Gate): nat {
    if g.Mcx? then g.target else g.qubit
  }

  lemma SquareOfSum(a: int, b: int)
    ensures (a + b) * (a + b) + (a - b) * (a - b) == 2 * (a * a + b * b)
  {
  }

  function GateScale(g: Gate): int {
    if g.H? then 2 else 1
  }

  lemma GatePreservesPairs(n: nat, g: Gate, v: State)
    requires WellFormedGate(n, g)
    ensures PairwiseEqual(n, GateQubit(g), Squared(Apply(g, v)), Scaled(GateScale(g), Squared(v)))
  {
    var i := GateQubit(g);
    forall b: Basis | |b| == n
      ensures Squared(Apply(g, v))(b[i := false]) + Squared(Apply(g, v))(b[i := true])
           == Scaled(GateScale(g), Squared(v))(b[i := false]) + Scaled(GateScale(g), Squared(v))(b[i := true])
    {
      var b0, b1 := b[i := false], b[i := true];
      assert b0[i := false] == b0 && b0[i := true] == b1 && b1[i := false] == b0 && b1[i := true] == b1;
      if g.H? {
        SquareOfSum(v(b0), v(b1));
      } else {
        assert Flip(b0, i) == b1 && Flip(b1, i) == b0;
        if g.Mcx? {
          assert AllOn(g.controls, b0) <==> AllOn(g.controls, b1) by {
            assert forall k :: 0 <= k < |g.controls| ==> b0[g.controls[k]] == b1[g.controls[k]];
          }
        }
      }
    }
  }

  lemma GateNorm(n: nat, g: Gate, v: State)
    requires WellFormedGate(n, g)
    ensures Norm(n, Apply(g, v)) == GateScale(g) * Norm(n, v)
  {
    GatePreservesPairs(n, g, v);
    PairwiseSum(n, n, GateQubit(g), Squared(Apply(g, v)), Scaled(GateScale(g), Squared(v)), []);
    TotalScaled(n, GateScale(g), Squared(v));
  }

  /** Every circuit conserves the squared norm, up to a factor 2 for each unnormalised H. */
  lemma {:induction false} NormConserved(n: nat, c: seq<Gate>, v: State)
    requires WellFormed(n, c)
    ensures Norm(n, Run(c, v)) == Pow2(Hadamards(c)) * Norm(n, v)
  {
    if c != [] {
      var w := Apply(c[0], v);
      assert WellFormedGate(n, c[0]);
      GateNorm(n, c[0], v);
      NormConserved(n, c[1..], w);
      var h := Pow2(Hadamards(c[1..]));
      assert h * (2 * Norm(n, v)) == (2 * h) * Norm(n, v);
    }
  }
}
