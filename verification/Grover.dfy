/** The Grover circuit builders, and what the emitted gate lists do to a state. */
module Grover {
  import opened Wrappers
  import opened Basics
  import opened Circuit

  // ---------- Marked strings ----------

  /** A marked string is read from the right: qubit i is the i-th character from the end. */
  predicate WellFormedString(n: nat, s: string) {
    |s| == n && forall k :: 0 <= k < n ==> s[k] == '0' || s[k] == '1'
  }

  predicate AllWellFormed(n: nat, marked: seq<string>) {
    forall k :: 0 <= k < |marked| ==> WellFormedString(n, marked[k])
  }

  function BasisOf(s: string): Basis {
    seq(|s|, i requires 0 <= i < |s| => s[|s| - 1 - i] == '1')
  }

  function StringOf(b: Basis): string {
    seq(|b|, i requires 0 <= i < |b| => if b[|b| - 1 - i] then '1' else '0')
  }

  /** Bit order: qubit i is the i-th character from the right, on for '1'. */
  lemma BitOrder(b: Basis, s: string, i: nat)
    ensures |StringOf(b)| == |b| && |BasisOf(s)| == |s|
    ensures i < |b| ==> StringOf(b)[|b| - 1 - i] == if b[i] then '1' else '0'
    ensures i < |s| ==> (BasisOf(s)[i] <==> s[|s| - 1 - i] == '1')
  {
  }

  lemma StringBasisInverse(n: nat, s: string, b: Basis)
    requires WellFormedString(n, s) && |b| == n
    ensures b == BasisOf(s) <==> StringOf(b) == s
  {
    if b == BasisOf(s) {
      assert StringOf(b) == s;
    }
    if StringOf(b) == s {
      forall i | 0 <= i < n
        ensures b[i] == BasisOf(s)[i]
      {
        assert StringOf(b)[n - 1 - i] == s[n - 1 - i];
      }
    }
  }

  // ---------- Gate lists ----------

  /** X on every qubit below k that is off in the target. */
  function OffLayer(target: Basis, k: nat): seq<Gate>
    requires k <= |target|
  {
    if k == 0 then []
    else OffLayer(target, k - 1) + (if target[k - 1] then [] else [X(k - 1)])
  }

  function Controls(n: nat): seq<nat>
    requires n >= 1
  {
    seq(n - 1, i => i)
  }

  /** H, multi-controlled X, H on the last qubit: a phase flip of the all-ones state. */
  function PhaseFlip(n: nat): seq<Gate>
    requires n >= 1
  {
    [H(n - 1), Mcx(Controls(n), n - 1), H(n - 1)]
  }

  function OracleBlock(n: nat, s: string): seq<Gate>
    requires n >= 1 && |s| == n
  {
    OffLayer(BasisOf(s), n) + PhaseFlip(n) + OffLayer(BasisOf(s), n)
  }

  function OracleCircuit(n: nat, marked: seq<string>): seq<Gate>
    requires n >= 1 && AllWellFormed(n, marked)
  {
    if marked == [] then []
    else OracleCircuit(n, marked[..|marked| - 1]) + OracleBlock(n, marked[|marked| - 1])
  }

  function HLayer(k: nat): seq<Gate> {
    if k == 0 then [] else HLayer(k - 1) + [H(k - 1)]
  }

  function DownLayer(k: nat): seq<Gate> {
    if k == 0 then [] else DownLayer(k - 1) + [H(k - 1), X(k - 1)]
  }

  function UpLayer(k: nat): seq<Gate> {
    if k == 0 then [] else UpLayer(k - 1) + [X(k - 1), H(k - 1)]
  }

  function DiffuserCircuit(n: nat): seq<Gate>
    requires n >= 1
  {
    DownLayer(n) + PhaseFlip(n) + UpLayer(n)
  }

  function Iterated(n: nat, marked: seq<string>, t: nat): seq<Gate>
    requires n >= 1 && AllWellFormed(n, marked)
  {
    if t == 0 then HLayer(n)
    else Iterated(n, marked, t - 1) + OracleCircuit(n, marked) + DiffuserCircuit(n)
  }

  // ---------- The builders ----------

  datatype BuildError = MalformedString(s: string)

  /** The X gates that build_oracle emits for one marked string, before and after the phase flip. */
  method AppendOffLayer(c: seq<Gate>, s: string) returns (r: seq<Gate>)
    ensures r == c + OffLayer(BasisOf(s), |s|)
  {
    r := c;
    for index := 0 to |s|
      invariant r == c + OffLayer(BasisOf(s), index)
    {
      if s[|s| - 1 - index] != '1' {
        r := r + [X(index)];
      }
    }
  }

  /** build_oracle; a string that is not n characters of 0 and 1 is rejected. */
  method BuildOracle(n: nat, marked: seq<string>) returns (r: Result<seq<Gate>, BuildError>)
    requires n >= 2
    ensures r.Ok? <==> AllWellFormed(n, marked)
    ensures r.Ok? ==> r.value == OracleCircuit(n, marked)
    ensures r.Ok? <==> forall i :: 0 <= i < |marked| ==>
                         |marked[i]| == n && forall k :: 0 <= k < n ==> marked[i][k] == '0' || marked[i][k] == '1'
  {
    WellFormedExactly(n, marked);
    hide OracleBlock, OffLayer, Controls, BasisOf, WellFormedString;
    var oracle: seq<Gate> := [];
    for i := 0 to |marked|
      invariant AllWellFormed(n, marked[..i])
      invariant oracle == OracleCircuit(n, marked[..i])
    {
      var s := marked[i];
      if !WellFormedString(n, s) {
        assert !AllWellFormed(n, marked);
        return Err(MalformedString(s));
      }
      oracle := AppendOffLayer(oracle, s);
      oracle := oracle + [H(n - 1)] + [Mcx(Controls(n), n - 1)] + [H(n - 1)];
      oracle := AppendOffLayer(oracle, s);
      WellFormedLength(n, s);
      BlockAppended(n, OracleCircuit(n, marked[..i]), s);
      OracleStep(n, marked, i);
    }
    assert marked[..|marked|] == marked;
    return Ok(oracle);
  }

  /** Marked strings are n characters of 0 and 1. */
  lemma WellFormedExactly(n: nat, marked: seq<string>)
    ensures AllWellFormed(n, marked)
            <==> forall i :: 0 <= i < |marked| ==>
                   |marked[i]| == n && forall k :: 0 <= k < n ==> marked[i][k] == '0' || marked[i][k] == '1'
  {
  }

  lemma WellFormedLength(n: nat, s: string)
    requires WellFormedString(n, s)
    ensures |s| == n
  {
  }

  /** The gates appended for one string are its block. */
  lemma BlockAppended(n: nat, c: seq<Gate>, s: string)
    requires n >= 1 && |s| == n
    ensures var layer := OffLayer(BasisOf(s), |s|);
            c + layer + [H(n - 1)] + [Mcx(Controls(n), n - 1)] + [H(n - 1)] + layer == c + OracleBlock(n, s)
  {
    hide OffLayer;
  }

  /** The gate list grows by the block of the next string. */
  lemma OracleStep(n: nat, marked: seq<string>, i: nat)
    requires n >= 1 && i < |marked| && AllWellFormed(n, marked[..i]) && WellFormedString(n, marked[i])
    ensures AllWellFormed(n, marked[..i + 1])
    ensures OracleCircuit(n, marked[..i + 1]) == OracleCircuit(n, marked[..i]) + OracleBlock(n, marked[i])
  {
    assert marked[..i + 1][..i] == marked[..i];
    hide OracleBlock, WellFormedString;
  }

  /** build_diffuser. */
  method BuildDiffuser(n: nat) returns (r: seq<Gate>)
    requires n >= 2
    ensures r == DiffuserCircuit(n)
  {
    r := [];
    for q := 0 to n
      invariant r == DownLayer(q)
    {
      r := r + [H(q)] + [X(q)];
    }
    r := r + [H(n - 1)] + [Mcx(Controls(n), n - 1)] + [H(n - 1)];
    ghost var front := r;
    for q := 0 to n
      invariant r == front + UpLayer(q)
    {
      r := r + [X(q)] + [H(q)];
    }
  }

  /** build_grover_circuit without its final measurement. A negative iteration count runs no iteration. */
  method BuildGroverCircuit(n: nat, marked: seq<string>, iterations: int) returns (r: Result<seq<Gate>, BuildError>)
    requires n >= 2
    ensures r.Ok? <==> AllWellFormed(n, marked)
    ensures r.Ok? ==> r.value == Iterated(n, marked, if iterations < 0 then 0 else iterations)
  {
    var circuit: seq<Gate> := [];
    for q := 0 to n
      invariant circuit == HLayer(q)
    {
      circuit := circuit + [H(q)];
    }
    var oracle := BuildOracle(n, marked);
    if oracle.Err? {
      return oracle;
    }
    var diffuser := BuildDiffuser(n);
    var i := 0;
    while i < iterations
      invariant 0 <= i && (i <= iterations || i == 0)
      invariant circuit == Iterated(n, marked, i)
    {
      circuit := circuit + oracle.value;
      circuit := circuit + diffuser;
      i := i + 1;
    }
    return Ok(circuit);
  }

  // ---------- Meaning of the X layers and of the phase flip ----------

  /** b with every qubit below k flipped where the target is off. */
  function FlipOff(target: Basis, b: Basis, k: nat): Basis
    requires k <= |target| == |b|
  {
    seq(|b|, i requires 0 <= i < |b| => if i < k && !target[i] then !b[i] else b[i])
  }

  lemma {:induction false} OffLayerMeaning(target: Basis, k: nat, v: State, b: Basis)
    requires k <= |target| == |b|
    ensures Run(OffLayer(target, k), v)(b) == v(FlipOff(target, b, k))
  {
    if k == 0 {
      assert FlipOff(target, b, 0) == b;
    } else if target[k - 1] {
      OffLayerMeaning(target, k - 1, v, b);
      assert OffLayer(target, k) == OffLayer(target, k - 1);
      assert FlipOff(target, b, k) == FlipOff(target, b, k - 1);
    } else {
      RunSnoc(OffLayer(target, k - 1), X(k - 1), v);
      OffLayerMeaning(target, k - 1, v, Flip(b, k - 1));
      assert FlipOff(target, b, k) == FlipOff(target, Flip(b, k - 1), k - 1);
    }
  }

  predicate AllOnes(b: Basis) {
    forall i :: 0 <= i < |b| ==> b[i]
  }

  lemma RunThree(f: Gate, g: Gate, h: Gate, v: State)
    ensures Run([f, g, h], v) == Apply(h, Apply(g, Apply(f, v)))
  {
    assert [f, g, h] == [f, g] + [h] && [f, g] == [f] + [g];
    RunSnoc([f, g], h, v);
    RunSnoc([f], g, v);
    RunOne(f, v);
  }

  lemma PhaseFlipMeaning(n: nat, v: State, b: Basis)
    requires n >= 1 && |b| == n
    ensures Run(PhaseFlip(n), v)(b) == 2 * (if AllOnes(b) then -v(b) else v(b))
  {
    var t, cs := n - 1, Controls(n);
    var v1 := Apply(H(t), v);
    var v2 := Apply(Mcx(cs, t), v1);
    RunThree(H(t), Mcx(cs, t), H(t), v);
    var b0, b1 := b[t := false], b[t := true];
    assert b0[t := true] == b1 && b0[t := false] == b0 && b1[t := false] == b0 && b1[t := true] == b1;
    assert Flip(b0, t) == b1 && Flip(b1, t) == b0;
    assert AllOn(cs, b0) <==> AllOn(cs, b1) by {
      assert forall k :: 0 <= k < |cs| ==> cs[k] == k && b0[cs[k]] == b1[cs[k]] == b[cs[k]];
    }
    assert AllOnes(b) <==> AllOn(cs, b0) && b[t] by {
      assert forall k :: 0 <= k < |cs| ==> cs[k] == k && b0[cs[k]] == b[k];
      if AllOn(cs, b0) && b[t] {
        forall i | 0 <= i < n
          ensures b[i]
        {
          if i < t {
            assert b0[cs[i]];
          }
        }
      }
    }
    assert b == if b[t] then b1 else b0;
  }

  // ---------- The oracle ----------

  function Sign(marked: seq<string>, b: Basis): int {
    if multiset(marked)[StringOf(b)] % 2 == 1 then -1 else 1
  }

  lemma OracleBlockMeaning(n: nat, s: string, v: State, b: Basis)
    requires n >= 1 && WellFormedString(n, s) && |b| == n
    ensures Run(OracleBlock(n, s), v)(b) == 2 * (if StringOf(b) == s then -v(b) else v(b))
  {
    var t := BasisOf(s);
    var layer := OffLayer(t, n);
    RunAppend(layer + PhaseFlip(n), layer, v);
    RunAppend(layer, PhaseFlip(n), v);
    var v1 := Run(layer, v);
    var v2 := Run(PhaseFlip(n), v1);
    var b' := FlipOff(t, b, n);
    OffLayerMeaning(t, n, v2, b);
    PhaseFlipMeaning(n, v1, b');
    OffLayerMeaning(t, n, v, b');
    assert FlipOff(t, b', n) == b;
    StringBasisInverse(n, s, b);
    assert AllOnes(b') <==> b == t by {
      if AllOnes(b') {
        assert forall i :: 0 <= i < n ==> b'[i] && b[i] == t[i];
      }
    }
  }

  /**
   Oracle compilation: the emitted X/H/MCX list flips the sign of basis state b exactly
   when its string occurs an odd number of times in the marked list, and scales all
   amplitudes by 2 per string (two unnormalised H gates each).
   */
  lemma {:induction false} OracleMeaning(n: nat, marked: seq<string>, v: State, b: Basis)
    requires n >= 1 && |b| == n && AllWellFormed(n, marked)
    ensures Run(OracleCircuit(n, marked), v)(b) == Pow2(|marked|) * (Sign(marked, b) * v(b))
  {
    if marked != [] {
      var front, s := marked[..|marked| - 1], marked[|marked| - 1];
      assert marked == front + [s];
      RunAppend(OracleCircuit(n, front), OracleBlock(n, s), v);
      OracleBlockMeaning(n, s, Run(OracleCircuit(n, front), v), b);
      OracleMeaning(n, front, v, b);
      SignAppend(front, s, b);
      SignStep(Pow2(|front|), Sign(front, b), v(b), StringOf(b) == s, Run(OracleCircuit(n, front), v)(b));
    } else {
      SignProduct(1, v(b));
    }
  }

  /** One more occurrence of the string of b turns the sign around. */
  lemma SignAppend(front: seq<string>, s: string, b: Basis)
    ensures Sign(front + [s], b) == if StringOf(b) == s then -Sign(front, b) else Sign(front, b)
  {
    assert multiset(front + [s])[StringOf(b)] == multiset(front)[StringOf(b)] + if StringOf(b) == s then 1 else 0;
  }

  lemma SignStep(p: int, s: int, x: int, hit: bool, y: int)
    requires y == p * (s * x)
    ensures 2 * (if hit then -y else y) == (2 * p) * ((if hit then -s else s) * x)
  {
    var z := s * x;
    assert -s * x == -z;
    assert p * (-z) == -(p * z);
    assert 2 * (p * z) == (2 * p) * z;
    assert 2 * (p * -z) == (2 * p) * -z;
  }

  // ---------- The Walsh-Hadamard transform ----------

  lemma WalshStep(k: nat, v: State)
    ensures Run(HLayer(k + 1), v) == Apply(H(k), Run(HLayer(k), v))
  {
    RunSnoc(HLayer(k), H(k), v);
  }

  /** A gate X or H on a qubit the layer does not touch commutes with it. */
  lemma {:induction false} WalshCommutes(n: nat, k: nat, g: Gate, v: State, b: Basis)
    requires !g.Mcx? && k <= g.qubit < n == |b|
    ensures Run(HLayer(k), Apply(g, v))(b) == Apply(g, Run(HLayer(k), v))(b)
  {
    if k > 0 {
      var i, j := k - 1, g.qubit;
      WalshStep(i, v);
      WalshStep(i, Apply(g, v));
      var b0, b1 := b[i := false], b[i := true];
      WalshCommutes(n, i, g, v, b0);
      WalshCommutes(n, i, g, v, b1);
      UpdatesCommute(b, i, j, false);
      UpdatesCommute(b, i, j, true);
    }
  }

  lemma UpdatesCommute(b: Basis, i: nat, j: nat, y: bool)
    requires i < j < |b|
    ensures b[i := false][j := y] == b[j := y][i := false]
    ensures b[i := true][j := y] == b[j := y][i := true]
    ensures Flip(b[i := false], j) == Flip(b, j)[i := false]
    ensures Flip(b[i := true], j) == Flip(b, j)[i := true]
  {
  }

  /** Two transforms give back the state, scaled by the number of basis states. */
  lemma {:induction false} WalshTwice(n: nat, k: nat, v: State)
    requires k <= n
    ensures Same(n, Run(HLayer(k), Run(HLayer(k), v)), Scaled(Pow2(k), v))
  {
    if k > 0 {
      var w := Run(HLayer(k - 1), v);
      WalshStep(k - 1, v);
      WalshStep(k - 1, Apply(H(k - 1), w));
      WalshTwice(n, k - 1, v);
      forall b: Basis | |b| == n
        ensures Run(HLayer(k), Run(HLayer(k), v))(b) == Scaled(Pow2(k), v)(b)
      {
        WalshTwiceStep(n, k - 1, v, w, b);
      }
    }
  }

  lemma WalshTwiceStep(n: nat, i: nat, v: State, w: State, b: Basis)
    requires i < n == |b| && Same(n, Run(HLayer(i), w), Scaled(Pow2(i), v))
    ensures Apply(H(i), Run(HLayer(i), Apply(H(i), w)))(b) == (2 * Pow2(i)) * v(b)
  {
    var b0, b1 := b[i := false], b[i := true];
    WalshCommutes(n, i, H(i), w, b0);
    WalshCommutes(n, i, H(i), w, b1);
    HadamardTwice(i, Run(HLayer(i), w), Run(HLayer(i), Apply(H(i), w)), b);
    assert Run(HLayer(i), w)(b) == Scaled(Pow2(i), v)(b);
    Regroup(Pow2(i), v(b));
  }

  lemma Regroup(p: int, x: int)
    ensures 2 * (p * x) == (2 * p) * x
  {
  }

  lemma HadamardTwice(i: nat, w: State, u: State, b: Basis)
    requires i < |b|
    requires u(b[i := false]) == Apply(H(i), w)(b[i := false]) && u(b[i := true]) == Apply(H(i), w)(b[i := true])
    ensures Apply(H(i), u)(b) == 2 * w(b)
  {
    var b0, b1 := b[i := false], b[i := true];
    assert b0[i := false] == b0 && b0[i := true] == b1 && b1[i := false] == b0 && b1[i := true] == b1;
    assert b == if b[i] then b1 else b0;
  }

  /** On the all-zero state the transform collects the total amplitude. */
  lemma {:induction false} WalshAtZero(n: nat, k: nat, v: State, b: Basis)
    requires k <= n == |b| && forall i :: 0 <= i < k ==> !b[i]
    ensures Run(HLayer(k), v)(b) == SumOver(k, v, b[k..])
  {
    if k > 0 {
      var i := k - 1;
      WalshStep(i, v);
      var b0, b1 := b[i := false], b[i := true];
      WalshAtZero(n, i, v, b0);
      WalshAtZero(n, i, v, b1);
      assert b0[i..] == [false] + b[k..] && b1[i..] == [true] + b[k..];
    } else {
      assert b[0..] == b;
    }
  }

  predicate AllZeros(b: Basis) {
    forall i :: 0 <= i < |b| ==> !b[i]
  }

  function Zero(): State {
    b => if AllZeros(b) then 1 else 0
  }

  /** The transform of the all-zero basis state is the uniform state. */
  lemma {:induction false} WalshOfZero(n: nat, k: nat, b: Basis)
    requires k <= n == |b|
    ensures Run(HLayer(k), Zero())(b) == if forall i :: k <= i < n ==> !b[i] then 1 else 0
  {
    if k > 0 {
      var i := k - 1;
      WalshStep(i, Zero());
      var b0, b1 := b[i := false], b[i := true];
      WalshOfZero(n, i, b0);
      WalshOfZero(n, i, b1);
      assert b1[i];
      assert (forall j :: i <= j < n ==> !b0[j]) <==> (forall j :: k <= j < n ==> !b[j]) by {
        assert forall j :: k <= j < n ==> b0[j] == b[j];
        assert !b0[i];
      }
    }
  }

  // ---------- The diffuser ----------

  function FlipFirst(b: Basis, k: nat): Basis
    requires k <= |b|
  {
    seq(|b|, i requires 0 <= i < |b| => if i < k then !b[i] else b[i])
  }

  function Flipped(k: nat, v: State): State {
    b => if k <= |b| then v(FlipFirst(b, k)) else v(b)
  }

  /** The first interleaved layer is the transform followed by X on every qubit. */
  lemma {:induction false} DownMeaning(n: nat, k: nat, v: State, b: Basis)
    requires k <= n == |b|
    ensures Run(DownLayer(k), v)(b) == Run(HLayer(k), v)(FlipFirst(b, k))
  {
    if k == 0 {
      assert FlipFirst(b, 0) == b;
    } else {
      var i := k - 1;
      assert DownLayer(k) == (DownLayer(i) + [H(i)]) + [X(i)];
      RunSnoc(DownLayer(i) + [H(i)], X(i), v);
      RunSnoc(DownLayer(i), H(i), v);
      WalshStep(i, v);
      var c := Flip(b, i);
      var f := FlipFirst(b, k);
      assert f == FlipFirst(c, i);
      assert FlipFirst(c[i := false], i) == f[i := false];
      assert FlipFirst(c[i := true], i) == f[i := true];
      DownMeaning(n, i, v, c[i := false]);
      DownMeaning(n, i, v, c[i := true]);
    }
  }

  /** The second interleaved layer is X on every qubit followed by the transform. */
  lemma {:induction false} UpMeaning(n: nat, k: nat, v: State)
    requires k <= n
    ensures Same(n, Run(UpLayer(k), v), Run(HLayer(k), Flipped(k, v)))
  {
    if k == 0 {
      forall b: Basis | |b| == n
        ensures v(b) == Flipped(0, v)(b)
      {
        assert FlipFirst(b, 0) == b;
      }
    } else {
      var i := k - 1;
      assert UpLayer(k) == (UpLayer(i) + [X(i)]) + [H(i)];
      RunSnoc(UpLayer(i) + [X(i)], H(i), v);
      RunSnoc(UpLayer(i), X(i), v);
      UpMeaning(n, i, v);
      var u, f := Run(UpLayer(i), v), Flipped(i, v);
      WalshStep(i, Flipped(k, v));
      forall b: Basis | |b| == n
        ensures Apply(X(i), f)(b) == Flipped(k, v)(b)
      {
        assert FlipFirst(Flip(b, i), i) == FlipFirst(b, k);
      }
      RunSame(n, HLayer(i), Apply(X(i), f), Flipped(k, v));
      forall b: Basis | |b| == n
        ensures Run(UpLayer(k), v)(b) == Run(HLayer(k), Flipped(k, v))(b)
      {
        WalshCommutes(n, i, X(i), f, b[i := false]);
        WalshCommutes(n, i, X(i), f, b[i := true]);
      }
    }
  }

  /**
   The diffuser reflects about the mean: with mean = Total / 2^n the new amplitude is
   2^(n+1) * (v(b) - 2 * mean), for every state and every basis state.
   */
  lemma DiffuserMeaning(n: nat, v: State, b: Basis)
    requires n >= 1 && |b| == n
    ensures Run(DiffuserCircuit(n), v)(b) == 2 * (Pow2(n) * v(b) - 2 * Total(n, v))
  {
    var w := Run(HLayer(n), v);
    var v1 := Run(DownLayer(n), v);
    var v2 := Run(PhaseFlip(n), v1);
    RunAppend(DownLayer(n) + PhaseFlip(n), UpLayer(n), v);
    RunAppend(DownLayer(n), PhaseFlip(n), v);
    UpMeaning(n, n, v2);
    var zeros: Basis := seq(n, _ => false);
    WalshAtZero(n, n, v, zeros);
    assert zeros[n..] == [];
    var total := Total(n, v);
    assert w(zeros) == total;
    var u: State := c => 2 * w(c) + (-4 * total) * Zero()(c);
    forall c: Basis | |c| == n
      ensures Flipped(n, v2)(c) == u(c)
    {
      var f := FlipFirst(c, n);
      PhaseFlipMeaning(n, v1, f);
      DownMeaning(n, n, v, f);
      assert FlipFirst(f, n) == c;
      assert AllOnes(f) <==> AllZeros(c) by {
        assert forall i :: 0 <= i < n ==> f[i] == !c[i];
      }
      if AllZeros(c) {
        assert c == zeros;
      }
    }
    RunSame(n, HLayer(n), Flipped(n, v2), u);
    RunLinear(HLayer(n), 2, w, -4 * total, Zero(), u);
    WalshTwice(n, n, v);
    WalshOfZero(n, n, b);
  }

  // ---------- Grover iterations ----------

  /** Sum of the amplitudes of a two-valued state, from the number of marked strings. */
  function TwoValuedTotal(n: nat, m: nat, a: int, u: int): int {
    m * a + (Pow2(n) - m) * u
  }

  /**
   The amplitudes (marked, unmarked) after t iterations, scaled: the oracle negates the
   marked one, the diffuser subtracts twice the total over 2^n.
   */
  function Amplitudes(n: nat, m: nat, t: nat): (int, int) {
    if t == 0 then (1, 1)
    else
      var (a, u) := Amplitudes(n, m, t - 1);
      var (a', u') := (-(Pow2(m) * a), Pow2(m) * u);
      var s := TwoValuedTotal(n, m, a', u');
      (2 * (Pow2(n) * a' - 2 * s), 2 * (Pow2(n) * u' - 2 * s))
  }

  predicate Distinct(marked: seq<string>) {
    forall i, j :: 0 <= i < j < |marked| ==> marked[i] != marked[j]
  }

  function TwoValued(marked: seq<string>, a: int, u: int): State {
    b => if StringOf(b) in marked then a else u
  }

  lemma {:induction false} DistinctCount(marked: seq<string>, s: string)
    requires Distinct(marked)
    ensures multiset(marked)[s] == if s in marked then 1 else 0
  {
    if marked != [] {
      var front, last := marked[..|marked| - 1], marked[|marked| - 1];
      assert marked == front + [last];
      DistinctCount(front, s);
    }
  }

  lemma ConsEqual(x: bool, p: Basis, y: bool, q: Basis)
    ensures [x] + p == [y] + q <==> x == y && p == q
  {
    assert ([x] + p)[1..] == p && ([y] + q)[1..] == q;
    assert ([x] + p)[0] == x && ([y] + q)[0] == y;
  }

  /** A state supported on one basis state sums to its amplitude there, or to 0 outside the range. */
  lemma {:induction false} SumOfPoint(k: nat, point: Basis, v: State, tail: Basis)
    requires |point| == k + |tail| && forall b: Basis :: |b| == |point| ==> v(b) == if b == point then 1 else 0
    ensures SumOver(k, v, tail) == if point[k..] == tail then 1 else 0
  {
    if k == 0 {
      assert point[0..] == point;
    } else {
      SumOfPoint(k - 1, point, v, [false] + tail);
      SumOfPoint(k - 1, point, v, [true] + tail);
      var x := point[k - 1];
      assert point[k - 1..] == [x] + point[k..];
      ConsEqual(x, point[k..], false, tail);
      ConsEqual(x, point[k..], true, tail);
    }
  }

  /** The number of basis states whose string is in the list is the length of a distinct list. */
  lemma {:induction false} CountMarked(n: nat, marked: seq<string>)
    requires Distinct(marked) && AllWellFormed(n, marked)
    ensures Total(n, TwoValued(marked, 1, 0)) == |marked|
  {
    var v := TwoValued(marked, 1, 0);
    if marked == [] {
      SumOverCongruent(n, v, b => 0, []);
      SumOverConstant(n, 0, []);
    } else {
      var front, last := marked[..|marked| - 1], marked[|marked| - 1];
      assert marked == front + [last];
      CountMarked(n, front);
      var f: State := TwoValued(front, 1, 0);
      var point: State := b => if b == BasisOf(last) then 1 else 0;
      var u: State := b => 1 * f(b) + 1 * point(b);
      assert last !in front;
      forall b: Basis | |b| == n
        ensures v(b) == u(b)
      {
        StringBasisInverse(n, last, b);
      }
      TotalCongruent(n, v, u);
      SumOverLinear(n, 1, f, 1, point, u, []);
      SumOfPoint(n, BasisOf(last), point, []);
      assert BasisOf(last)[n..] == [];
    }
  }

  lemma TotalTwoValued(n: nat, marked: seq<string>, a: int, u: int)
    requires Distinct(marked) && AllWellFormed(n, marked)
    ensures Total(n, TwoValued(marked, a, u)) == TwoValuedTotal(n, |marked|, a, u)
  {
    var ind, one: State := TwoValued(marked, 1, 0), b => 1;
    var w: State := b => (a - u) * ind(b) + u * one(b);
    TotalCongruent(n, TwoValued(marked, a, u), w);
    SumOverLinear(n, a - u, ind, u, one, w, []);
    CountMarked(n, marked);
    SumOverConstant(n, 1, []);
    MixtureTotal(|marked|, Pow2(n), a, u);
  }

  lemma MixtureTotal(m: int, p: int, a: int, u: int)
    ensures (a - u) * m + u * (p * 1) == m * a + (p - m) * u
  {
    assert (a - u) * m == a * m - u * m;
    assert (p - m) * u == p * u - m * u;
  }

  lemma SignProduct(p: int, x: int)
    ensures p * (-1 * x) == -(p * x) && p * (1 * x) == p * x
  {
  }

  /** One oracle and one diffuser take a two-valued state to a two-valued state. */
  lemma IterationStep(n: nat, marked: seq<string>, v: State, a: int, u: int, t: nat)
    requires n >= 1 && Distinct(marked) && AllWellFormed(n, marked) && t > 0
    requires Amplitudes(n, |marked|, t - 1) == (a, u)
    requires Same(n, v, TwoValued(marked, a, u))
    ensures var (a', u') := Amplitudes(n, |marked|, t);
            Same(n, Run(DiffuserCircuit(n), Run(OracleCircuit(n, marked), v)), TwoValued(marked, a', u'))
  {
    hide Amplitudes, Same;
    OracleTwoValued(n, marked, v, a, u);
    DiffuseTwoValued(n, marked, Run(OracleCircuit(n, marked), v), a, u, t);
  }

  lemma OracleTwoValued(n: nat, marked: seq<string>, v: State, a: int, u: int)
    requires n >= 1 && Distinct(marked) && AllWellFormed(n, marked)
    requires Same(n, v, TwoValued(marked, a, u))
    ensures Same(n, Run(OracleCircuit(n, marked), v), TwoValued(marked, -(Pow2(|marked|) * a), Pow2(|marked|) * u))
  {
    forall b: Basis | |b| == n
      ensures Run(OracleCircuit(n, marked), v)(b) == TwoValued(marked, -(Pow2(|marked|) * a), Pow2(|marked|) * u)(b)
    {
      assert v(b) == TwoValued(marked, a, u)(b);
      OracleOnTwoValued(n, marked, v, a, u, b);
    }
  }

  lemma OracleOnTwoValued(n: nat, marked: seq<string>, v: State, a: int, u: int, b: Basis)
    requires n >= 1 && Distinct(marked) && AllWellFormed(n, marked) && |b| == n
    requires v(b) == TwoValued(marked, a, u)(b)
    ensures Run(OracleCircuit(n, marked), v)(b) == TwoValued(marked, -(Pow2(|marked|) * a), Pow2(|marked|) * u)(b)
  {
    hide Run, OracleCircuit, Distinct;
    OracleMeaning(n, marked, v, b);
    DistinctCount(marked, StringOf(b));
    SignProduct(Pow2(|marked|), v(b));
  }

  lemma DiffuseTwoValued(n: nat, marked: seq<string>, v: State, a: int, u: int, t: nat)
    requires n >= 1 && Distinct(marked) && AllWellFormed(n, marked) && t > 0
    requires Amplitudes(n, |marked|, t - 1) == (a, u)
    requires Same(n, v, TwoValued(marked, -(Pow2(|marked|) * a), Pow2(|marked|) * u))
    ensures var (a', u') := Amplitudes(n, |marked|, t);
            Same(n, Run(DiffuserCircuit(n), v), TwoValued(marked, a', u'))
  {
    var x, y := -(Pow2(|marked|) * a), Pow2(|marked|) * u;
    TotalCongruent(n, v, TwoValued(marked, x, y));
    TotalTwoValued(n, marked, x, y);
    var (a', u') := Amplitudes(n, |marked|, t);
    forall b: Basis | |b| == n
      ensures Run(DiffuserCircuit(n), v)(b) == TwoValued(marked, a', u')(b)
    {
      DiffuserMeaning(n, v, b);
      assert v(b) == TwoValued(marked, x, y)(b);
    }
  }

  /**
   After any number of iterations on any distinct marked strings the state is constant on
   the marked and constant on the unmarked basis states, with the amplitudes of the
   two-number recurrence.
   */
  lemma {:induction false} GroverMeaning(n: nat, marked: seq<string>, t: nat)
    requires n >= 1 && Distinct(marked) && AllWellFormed(n, marked)
    ensures var (a, u) := Amplitudes(n, |marked|, t);
            Same(n, Run(Iterated(n, marked, t), Zero()), TwoValued(marked, a, u))
  {
    var (a', u') := Amplitudes(n, |marked|, t);
    if t == 0 {
      forall b: Basis | |b| == n
        ensures Run(HLayer(n), Zero())(b) == TwoValued(marked, a', u')(b)
      {
        WalshOfZero(n, n, b);
      }
    } else {
      var (a, u) := Amplitudes(n, |marked|, t - 1);
      GroverMeaning(n, marked, t - 1);
      var before := Iterated(n, marked, t - 1);
      var oracle, diffuser := OracleCircuit(n, marked), DiffuserCircuit(n);
      RunAppend(before + oracle, diffuser, Zero());
      RunAppend(before, oracle, Zero());
      IterationStep(n, marked, Run(before, Zero()), a, u, t);
    }
  }

  // ---------- Conservation over a whole run ----------

  lemma {:induction false} HadamardsAppend(c: seq<Gate>, d: seq<Gate>)
    ensures Hadamards(c + d) == Hadamards(c) + Hadamards(d)
  {
    if c == [] {
      assert c + d == d;
    } else {
      assert (c + d)[1..] == c[1..] + d;
      HadamardsAppend(c[1..], d);
    }
  }

  lemma WellFormedAppend(n: nat, c: seq<Gate>, d: seq<Gate>)
    requires WellFormed(n, c) && WellFormed(n, d)
    ensures WellFormed(n, c + d)
  {
  }

  lemma {:induction false} OffLayerFacts(n: nat, target: Basis, k: nat)
    requires k <= |target| == n
    ensures WellFormed(n, OffLayer(target, k)) && Hadamards(OffLayer(target, k)) == 0
  {
    if k > 0 {
      OffLayerFacts(n, target, k - 1);
      HadamardsAppend(OffLayer(target, k - 1), if target[k - 1] then [] else [X(k - 1)]);
    }
  }

  lemma PhaseFlipFacts(n: nat)
    requires n >= 1
    ensures WellFormed(n, PhaseFlip(n)) && Hadamards(PhaseFlip(n)) == 2
  {
    var x := Mcx(Controls(n), n - 1);
    assert forall k :: 0 <= k < |Controls(n)| ==> Controls(n)[k] == k;
    PairFacts(n, H(n - 1), x);
    PairFacts(n, H(n - 1), H(n - 1));
    hide WellFormed, Hadamards, Controls;
    WellFormedAppend(n, [H(n - 1), x], [H(n - 1)]);
    HadamardsAppend([H(n - 1), x], [H(n - 1)]);
    assert PhaseFlip(n) == [H(n - 1), x] + [H(n - 1)];
  }

  lemma {:induction false} OracleFacts(n: nat, marked: seq<string>)
    requires n >= 1 && AllWellFormed(n, marked)
    ensures WellFormed(n, OracleCircuit(n, marked)) && Hadamards(OracleCircuit(n, marked)) == 2 * |marked|
  {
    if marked != [] {
      var front, s := marked[..|marked| - 1], marked[|marked| - 1];
      OracleFacts(n, front);
      var layer := OffLayer(BasisOf(s), n);
      OffLayerFacts(n, BasisOf(s), n);
      PhaseFlipFacts(n);
      WellFormedAppend(n, layer, PhaseFlip(n));
      WellFormedAppend(n, layer + PhaseFlip(n), layer);
      WellFormedAppend(n, OracleCircuit(n, front), OracleBlock(n, s));
      HadamardsAppend(layer, PhaseFlip(n));
      HadamardsAppend(layer + PhaseFlip(n), layer);
      HadamardsAppend(OracleCircuit(n, front), OracleBlock(n, s));
    }
  }

  lemma PairFacts(n: nat, g: Gate, h: Gate)
    requires WellFormedGate(n, g) && WellFormedGate(n, h)
    ensures WellFormed(n, [g, h]) && Hadamards([g, h]) == (if g.H? then 1 else 0) + (if h.H? then 1 else 0)
    ensures WellFormed(n, [g]) && Hadamards([g]) == if g.H? then 1 else 0
  {
    assert [g, h][1..] == [h] && [h][1..] == [] && [g][1..] == [];
    assert Hadamards([]) == 0;
    assert Hadamards([h]) == if h.H? then 1 else 0;
  }

  lemma {:induction false} LayerFacts(n: nat, k: nat)
    requires k <= n
    ensures WellFormed(n, HLayer(k)) && Hadamards(HLayer(k)) == k
    ensures WellFormed(n, DownLayer(k)) && Hadamards(DownLayer(k)) == k
    ensures WellFormed(n, UpLayer(k)) && Hadamards(UpLayer(k)) == k
  {
    if k > 0 {
      var q := k - 1;
      LayerFacts(n, q);
      PairFacts(n, H(q), X(q));
      PairFacts(n, X(q), H(q));
      hide WellFormed, Hadamards;
      HadamardsAppend(HLayer(q), [H(q)]);
      HadamardsAppend(DownLayer(q), [H(q), X(q)]);
      HadamardsAppend(UpLayer(q), [X(q), H(q)]);
      WellFormedAppend(n, HLayer(q), [H(q)]);
      WellFormedAppend(n, DownLayer(q), [H(q), X(q)]);
      WellFormedAppend(n, UpLayer(q), [X(q), H(q)]);
    }
  }

  lemma {:induction false} IteratedFacts(n: nat, marked: seq<string>, t: nat)
    requires n >= 1 && AllWellFormed(n, marked)
    ensures WellFormed(n, Iterated(n, marked, t))
    ensures Hadamards(Iterated(n, marked, t)) == n + t * (2 * |marked| + 2 * n + 2)
  {
    LayerFacts(n, n);
    if t > 0 {
      hide WellFormed, Hadamards;
      var before := Iterated(n, marked, t - 1);
      IteratedFacts(n, marked, t - 1);
      OracleFacts(n, marked);
      DiffuserFacts(n);
      WellFormedAppend(n, before, OracleCircuit(n, marked));
      WellFormedAppend(n, before + OracleCircuit(n, marked), DiffuserCircuit(n));
      HadamardsAppend(before, OracleCircuit(n, marked));
      HadamardsAppend(before + OracleCircuit(n, marked), DiffuserCircuit(n));
      OneMore(t, 2 * |marked| + 2 * n + 2);
    }
  }

  lemma OneMore(t: int, step: int)
    ensures t * step == (t - 1) * step + step
  {
  }

  lemma DiffuserFacts(n: nat)
    requires n >= 1
    ensures WellFormed(n, DiffuserCircuit(n)) && Hadamards(DiffuserCircuit(n)) == 2 * n + 2
  {
    LayerFacts(n, n);
    PhaseFlipFacts(n);
    hide WellFormed, Hadamards, PhaseFlip;
    WellFormedAppend(n, DownLayer(n), PhaseFlip(n));
    WellFormedAppend(n, DownLayer(n) + PhaseFlip(n), UpLayer(n));
    HadamardsAppend(DownLayer(n), PhaseFlip(n));
    HadamardsAppend(DownLayer(n) + PhaseFlip(n), UpLayer(n));
  }

  /**
   Probability is conserved over the whole run: marked and unmarked squared amplitudes
   always add up to the accumulated scale.
   */
  lemma GroverConserves(n: nat, marked: seq<string>, t: nat)
    requires n >= 1 && Distinct(marked) && AllWellFormed(n, marked)
    ensures var (a, u) := Amplitudes(n, |marked|, t);
            TwoValuedTotal(n, |marked|, a * a, u * u) == Pow2(n + t * (2 * |marked| + 2 * n + 2))
  {
    var (a, u) := Amplitudes(n, |marked|, t);
    var c := Iterated(n, marked, t);
    GroverMeaning(n, marked, t);
    IteratedFacts(n, marked, t);
    NormConserved(n, c, Zero());
    NormOfZero(n);
    TwoValuedSquares(n, marked, a, u, Run(c, Zero()));
    TotalTwoValued(n, marked, a * a, u * u);
  }

  lemma TwoValuedSquares(n: nat, marked: seq<string>, a: int, u: int, v: State)
    requires Same(n, v, TwoValued(marked, a, u))
    ensures Norm(n, v) == Total(n, TwoValued(marked, a * a, u * u))
  {
    TotalCongruent(n, Squared(v), TwoValued(marked, a * a, u * u));
  }

  lemma NormOfZero(n: nat)
    ensures Norm(n, Zero()) == 1
  {
    var zeros: Basis := seq(n, _ => false);
    forall b: Basis | |b| == |zeros|
      ensures Squared(Zero())(b) == if b == zeros then 1 else 0
    {
      if AllZeros(b) {
        assert b == zeros;
      }
    }
    SumOfPoint(n, zeros, Squared(Zero()), []);
    assert zeros[n..] == [];
  }
}
