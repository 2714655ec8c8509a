/** The two loops that spend shots in growing rounds until the Grover search succeeds. */
module Escalation {
  import opened Basics

  function Sum(s: seq<int>): int {
    if s == [] then 0 else Sum(s[..|s| - 1]) + s[|s| - 1]
  }

  lemma SumSnoc(s: seq<int>, x: int)
    ensures Sum(s + [x]) == Sum(s) + x
  {
    assert (s + [x])[..|s + [x]| - 1] == s;
  }

  /** ceil(shots * 1.8), in exact ninths and fifths. */
  function Escalate(shots: int): (r: int)
    ensures 5 * r >= 9 * shots && 5 * r < 9 * shots + 5
  {
    (9 * shots + 4) / 5
  }

  // ---------- energy_aware_search ----------

  function FirstRound(minShots: int, cap: int): int {
    if cap < 16 then cap else Max(16, Min(minShots, cap))
  }

  /** Two consecutive rounds: strictly more shots, by the escalation rule. */
  predicate Escalates(a: int, b: int, cap: int) {
    a < b && b == Min(cap, Escalate(a))
  }

  ghost predicate Rising(rounds: seq<int>, first: int, cap: int) {
    && (rounds != [] ==> rounds[0] == first)
    && forall i :: 0 <= i < |rounds| - 1 ==> Escalates(rounds[i], rounds[i + 1], cap)
  }

  ghost predicate Missed(met: nat -> bool, n: nat) {
    forall i :: 0 <= i < n ==> !met(i)
  }

  /** The rounds run before the next one of the given size: all below the cap, and cheap in sum. */
  ghost predicate Pending(rounds: seq<int>, next: int, first: int, cap: int) {
    && Rising(rounds + [next], first, cap)
    && 1 <= next <= cap
    && (forall i :: 0 <= i < |rounds| ==> 1 <= rounds[i] < cap)
    && 4 * Sum(rounds) < 9 * cap
    && (rounds != [] ==> 4 * Sum(rounds) <= 9 * rounds[|rounds| - 1])
  }

  lemma FirstPending(first: int, cap: int)
    requires 1 <= first <= cap
    ensures Pending([], first, first, cap)
  {
    assert [] + [first] == [first];
  }

  lemma NextPending(rounds: seq<int>, shots: int, next: int, first: int, cap: int)
    requires Pending(rounds, shots, first, cap) && shots < cap && next == Min(cap, Escalate(shots)) && next != shots
    ensures Pending(rounds + [shots], next, first, cap) && next > shots
  {
    var r := rounds + [shots];
    SumSnoc(rounds, shots);
    assert Escalates(shots, next, cap);
    assert (r + [next])[0] == r[0];
    forall i | 0 <= i < |r + [next]| - 1
      ensures Escalates((r + [next])[i], (r + [next])[i + 1], cap)
    {
      if i < |rounds| {
        assert Escalates(r[i], r[i + 1], cap);
      }
    }
    if rounds != [] {
      var last := rounds[|rounds| - 1];
      assert r[|rounds| - 1] == last && r[|rounds|] == shots;
      assert Escalates(last, shots, cap);
      assert shots == Escalate(last);
    }
  }

  /** Closing the last round: everything the caller is promised. */
  lemma LastRound(rounds: seq<int>, shots: int, first: int, cap: int)
    requires Pending(rounds, shots, first, cap)
    ensures Rising(rounds + [shots], first, cap) && 4 * Sum(rounds + [shots]) < 13 * cap
    ensures forall i :: 0 <= i < |rounds + [shots]| ==> 1 <= (rounds + [shots])[i] <= cap
  {
    SumSnoc(rounds, shots);
  }

  /** The escalation rule spelled out: by 9/5, rounded up, within the cap. */
  lemma RisingExactly(rounds: seq<int>, first: int, cap: int)
    requires Rising(rounds, first, cap)
    ensures rounds != [] ==> rounds[0] == first
    ensures forall i :: 0 <= i < |rounds| - 1 ==>
              && rounds[i] < rounds[i + 1]
              && (5 * rounds[i + 1] < 9 * rounds[i] + 5)
              && (5 * rounds[i + 1] >= 9 * rounds[i] || rounds[i + 1] == cap)
  {
  }

  /**
   energy_aware_search with minShots for the confidence bound and met(i) telling whether
   run i reached the target; rounds records the shots of each call of run_grover. It ends
   for every cap and every outcome sequence; its rounds rise by the escalation rule, only the
   last can have met the target; it returns the shots of its last run, at most cap, below cap
   only when the target was met, and runs fewer than 13/4 * cap shots in all.
   */
  method EnergyAwareSearch(minShots: int, cap: int, met: nat -> bool) returns (shots: int, rounds: seq<int>)
    requires cap >= 1
    ensures rounds != [] && Rising(rounds, FirstRound(minShots, cap), cap) && Missed(met, |rounds| - 1)
    ensures shots == rounds[|rounds| - 1] <= cap
    ensures shots < cap ==> met(|rounds| - 1)
    ensures forall i :: 0 <= i < |rounds| ==> 1 <= rounds[i] <= cap
    ensures 4 * Sum(rounds) < 13 * cap
    ensures rounds[0] == if cap < 16 then cap
                         else if minShots < 16 then 16 else if minShots > cap then cap else minShots
    ensures forall i :: 0 <= i < |rounds| - 1 ==> !met(i)
    ensures forall i :: 0 <= i < |rounds| - 1 ==>
              && rounds[i] < rounds[i + 1]
              && (5 * rounds[i + 1] < 9 * rounds[i] + 5)
              && (5 * rounds[i + 1] >= 9 * rounds[i] || rounds[i + 1] == cap)
  {
    shots, rounds := Search(minShots, cap, met);
    RisingExactly(rounds, FirstRound(minShots, cap), cap);
    hide Rising;
  }

  /** The loop itself. */
  method Search(minShots: int, cap: int, met: nat -> bool) returns (shots: int, rounds: seq<int>)
    requires cap >= 1
    ensures rounds != [] && Rising(rounds, FirstRound(minShots, cap), cap) && Missed(met, |rounds| - 1)
    ensures shots == rounds[|rounds| - 1] <= cap
    ensures shots < cap ==> met(|rounds| - 1)
    ensures forall i :: 0 <= i < |rounds| ==> 1 <= rounds[i] <= cap
    ensures 4 * Sum(rounds) < 13 * cap
  {
    hide Pending, Rising, Escalate;
    shots := Max(16, Min(minShots, cap));
    rounds := [];
    var i := 0;
    ghost var first := FirstRound(minShots, cap);
    if shots <= cap {
      FirstPending(first, cap);
    }
    while shots <= cap
      invariant i == |rounds| && Missed(met, i)
      invariant shots <= cap ==> Pending(rounds, shots, first, cap)
      invariant shots > cap ==> rounds == [] && cap == first
      decreases cap - shots
    {
      LastRound(rounds, shots, first, cap);
      if met(i) {
        rounds := rounds + [shots];
        return;
      }
      var next := Min(cap, Escalate(shots));
      if next == shots {
        rounds := rounds + [shots];
        return;
      }
      NextPending(rounds, shots, next, first, cap);
      rounds := rounds + [shots];
      i := i + 1;
      shots := next;
    }
    FirstPending(cap, cap);
    LastRound([], cap, cap, cap);
    rounds := rounds + [cap];
    shots := cap;
  }

  // ---------- The Qiskit batch loop ----------

  /** What the next batch asks for: double the last one, within what is left of the budget. */
  function NextBatch(batches: seq<int>, budget: int): int {
    if batches == [] then Min(64, budget)
    else Min(2 * batches[|batches| - 1], budget - Sum(batches))
  }

  ghost predicate Batched(batches: seq<int>, budget: int) {
    && Sum(batches) <= budget
    && forall i :: 0 <= i < |batches| ==> 1 <= batches[i] == NextBatch(batches[..i], budget)
  }

  lemma BatchAt(batches: seq<int>, budget: int, i: nat)
    requires Batched(batches, budget) && i < |batches|
    ensures 1 <= batches[i] == NextBatch(batches[..i], budget)
  {
  }

  lemma NextBatchFits(batches: seq<int>, budget: int)
    requires budget >= 1 && Batched(batches, budget) && Sum(batches) < budget
    ensures 1 <= NextBatch(batches, budget) <= budget - Sum(batches)
  {
    if batches == [] {
      assert Sum(batches) == 0;
    } else {
      BatchAt(batches, budget, |batches| - 1);
      hide Batched;
    }
  }

  lemma BatchSnoc(batches: seq<int>, budget: int)
    requires budget >= 1 && Batched(batches, budget) && Sum(batches) < budget
    ensures Batched(batches + [NextBatch(batches, budget)], budget)
    ensures NextBatch(batches, budget) <= budget - Sum(batches)
  {
    var x := NextBatch(batches, budget);
    var more := batches + [x];
    SumSnoc(batches, x);
    NextBatchFits(batches, budget);
    hide NextBatch, Sum;
    forall i | 0 <= i < |more|
      ensures 1 <= more[i] == NextBatch(more[..i], budget)
    {
      if i < |batches| {
        assert more[..i] == batches[..i];
        BatchAt(batches, budget, i);
      } else {
        assert more[..i] == batches;
      }
    }
  }

  /** The batch rule spelled out: 64, then double the last, within what is left. */
  lemma BatchesExactly(batches: seq<int>, budget: int)
    requires batches != [] && Batched(batches, budget)
    ensures batches[0] == if budget < 64 then budget else 64
    ensures forall i :: 0 < i < |batches| ==>
              batches[i] == if 2 * batches[i - 1] < budget - Sum(batches[..i]) then 2 * batches[i - 1]
                            else budget - Sum(batches[..i])
  {
    assert batches[..0] == [];
    forall i | 0 < i < |batches|
      ensures batches[i] == if 2 * batches[i - 1] < budget - Sum(batches[..i]) then 2 * batches[i - 1]
                            else budget - Sum(batches[..i])
    {
      assert batches[..i][|batches[..i]| - 1] == batches[i - 1];
    }
  }

  /**
   The Grover loop of the Qiskit client, with met(i) for a batch success of at least 0.9;
   batches records the shots of each call of _execute.
   Its total is the sum of its batches, never exceeds the budget, and falls short of it
   only when the last batch, and no earlier one, met the mark.
   */
  method GroverBatches(shotBudget: int, met: nat -> bool) returns (total: int, batches: seq<int>)
    ensures batches != [] && Batched(batches, Max(1, shotBudget)) && Missed(met, |batches| - 1)
    ensures total == Sum(batches) <= Max(1, shotBudget)
    ensures total < Max(1, shotBudget) ==> met(|batches| - 1)
    ensures forall i :: 0 <= i < |batches| - 1 ==> !met(i)
    ensures var budget := if shotBudget < 1 then 1 else shotBudget;
            && (batches[0] == if budget < 64 then budget else 64)
            && forall i :: 0 < i < |batches| ==>
                 batches[i] == if 2 * batches[i - 1] < budget - Sum(batches[..i]) then 2 * batches[i - 1]
                               else budget - Sum(batches[..i])
  {
    total, batches := RunBatches(Max(1, shotBudget), met);
    BatchesExactly(batches, Max(1, shotBudget));
    hide Batched, NextBatch;
  }

  /** The loop itself, on a budget of at least one shot. */
  method RunBatches(budget: int, met: nat -> bool) returns (total: int, batches: seq<int>)
    requires budget >= 1
    ensures batches != [] && Batched(batches, budget) && Missed(met, |batches| - 1)
    ensures total == Sum(batches) <= budget
    ensures total < budget ==> met(|batches| - 1)
  {
    var cfgShots := Min(64, budget);
    total := 0;
    var remaining := budget;
    batches := [];
    var i := 0;
    while remaining > 0
      invariant i == |batches| && Missed(met, i) && Batched(batches, budget)
      invariant total == Sum(batches) && remaining == budget - total && remaining > 0
      invariant Min(cfgShots, remaining) == NextBatch(batches, budget)
      decreases remaining
    {
      var current := Min(cfgShots, remaining);
      BatchSnoc(batches, budget);
      SumSnoc(batches, current);
      batches := batches + [current];
      assert batches[i] >= 1;
      total := total + current;
      remaining := Max(0, budget - total);
      if met(i) {
        break;
      }
      if remaining <= 0 {
        break;
      }
      cfgShots := Min(current * 2, budget);
      i := i + 1;
    }
  }
}
