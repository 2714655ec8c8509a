/** The bounded experiment store, against the unbounded log of every run ever added. */
module ExperimentStore {
  import opened Basics

  datatype Run = Run(id: string, created: real, payload: string)

  /** The store's dictionary in insertion order. */
  type Runs = seq<Run>

  // ---------- The operations ----------

  /** self._runs[run.id] = run: an existing id keeps its position. */
  function Put(runs: Runs, run: Run): Runs {
    if runs == [] then [run]
    else if runs[0].id == run.id then [run] + runs[1..]
    else [runs[0]] + Put(runs[1..], run)
  }

  /** The first run with the least created_at, as sorted(...)[0] picks it. */
  function OldestIndex(runs: Runs): (k: nat)
    requires runs != []
    ensures k < |runs|
    ensures forall i :: 0 <= i < |runs| ==> runs[k].created <= runs[i].created
    ensures forall i :: 0 <= i < k ==> runs[k].created < runs[i].created
  {
    if |runs| == 1 then 0
    else
      var rest := OldestIndex(runs[1..]);
      if runs[0].created <= runs[1..][rest].created then 0 else rest + 1
  }

  function DropOldest(runs: Runs): Runs
    requires runs != []
  {
    var k := OldestIndex(runs);
    runs[..k] + runs[k + 1..]
  }

  function AddTo(runs: Runs, run: Run, maxEntries: nat): Runs {
    var more := Put(runs, run);
    if |more| > maxEntries then DropOldest(more) else more
  }

  function Insert(r: Run, s: Runs): Runs {
    if s == [] then [r]
    else if r.created > s[0].created then [r] + s
    else [s[0]] + Insert(r, s[1..])
  }

  /** sorted by created_at, newest first; runs of equal time keep their order. */
  function SortNewestFirst(runs: Runs): Runs {
    if runs == [] then [] else Insert(runs[|runs| - 1], SortNewestFirst(runs[..|runs| - 1]))
  }

  /** s[:limit]; a negative limit drops that many from the end. */
  function Take(s: Runs, limit: int): Runs {
    if limit >= |s| then s else if limit >= 0 then s[..limit] else s[..Max(0, |s| + limit)]
  }

  class ExperimentStoreObject {
    var runs: Runs
    const maxEntries: nat

    constructor (maxEntries: nat)
      ensures runs == [] && this.maxEntries == maxEntries
    {
      runs := [];
      this.maxEntries := maxEntries;
    }

    method Add(run: Run)
      requires DistinctIds(runs)
      modifies this
      ensures runs == AddTo(old(runs), run, maxEntries) && DistinctIds(runs)
      ensures forall i :: 0 <= i < |old(runs)| && old(runs)[i].id == run.id && |old(runs)| <= maxEntries ==>
                            runs == old(runs)[i := run]
      ensures (forall i :: 0 <= i < |old(runs)| ==> old(runs)[i].id != run.id) && |old(runs)| < maxEntries ==>
                runs == old(runs) + [run]
      ensures forall r :: r in runs ==> r == run || (r in old(runs) && r.id != run.id)
    {
      AddExactly(runs, run, maxEntries);
      hide DistinctIds, Put, OldestIndex, DropOldest;
      Store(run);
      DropIfFull();
    }

    /** self._runs[run.id] = run. */
    method Store(run: Run)
      requires DistinctIds(runs)
      modifies this
      ensures runs == Put(old(runs), run) && DistinctIds(runs)
    {
      var i := 0;
      while i < |runs| && runs[i].id != run.id
        invariant 0 <= i <= |runs|
        invariant forall j :: 0 <= j < i ==> runs[j].id != run.id
      {
        i := i + 1;
      }
      PutAt(runs, run, i);
      PutKeepsDistinct(runs, run);
      hide DistinctIds, Put;
      runs := if i < |runs| then runs[i := run] else runs + [run];
    }

    method DropIfFull()
      requires DistinctIds(runs)
      modifies this
      ensures runs == (if |old(runs)| > maxEntries then DropOldest(old(runs)) else old(runs)) && DistinctIds(runs)
    {
      if |runs| > maxEntries {
        var k := FindOldest();
        DropKeepsDistinct(runs, k);
        hide DistinctIds, OldestIndex;
        runs := runs[..k] + runs[k + 1..];
      }
    }

    method FindOldest() returns (k: nat)
      requires runs != []
      ensures k == OldestIndex(runs)
    {
      k := 0;
      for i := 1 to |runs|
        invariant k < i
        invariant forall j :: 0 <= j < i ==> runs[k].created <= runs[j].created
        invariant forall j :: 0 <= j < k ==> runs[k].created < runs[j].created
      {
        if runs[i].created < runs[k].created {
          k := i;
        }
      }
      OldestUnique(runs, k, OldestIndex(runs));
    }

    method ListRecent(limit: int) returns (r: Runs)
      ensures r == Take(SortNewestFirst(runs), limit)
      ensures var sorted := SortNewestFirst(runs);
              r == if limit >= |sorted| then sorted
                   else if limit >= 0 then sorted[..limit]
                   else if |sorted| + limit > 0 then sorted[..|sorted| + limit]
                   else []
    {
      var sorted: Runs := [];
      for i := 0 to |runs|
        invariant sorted == SortNewestFirst(runs[..i])
      {
        assert runs[..i + 1][..i] == runs[..i];
        sorted := Insert(runs[i], sorted);
      }
      assert runs[..|runs|] == runs;
      if limit >= |sorted| {
        r := sorted;
      } else if limit >= 0 {
        r := sorted[..limit];
      } else {
        r := if |sorted| + limit > 0 then sorted[..|sorted| + limit] else [];
      }
    }
  }

  predicate DistinctIds(runs: Runs) {
    forall i, j :: 0 <= i < j < |runs| ==> runs[i].id != runs[j].id
  }

  lemma DropKeepsDistinct(runs: Runs, k: nat)
    requires DistinctIds(runs) && k < |runs|
    ensures DistinctIds(runs[..k] + runs[k + 1..])
    ensures forall r :: r in runs[..k] + runs[k + 1..] <==> r in runs && r != runs[k]
  {
    var s := runs[..k] + runs[k + 1..];
    assert forall i :: 0 <= i < |s| ==> s[i] == runs[if i < k then i else i + 1];
    forall r | r in runs && r != runs[k]
      ensures r in s
    {
      var i :| 0 <= i < |runs| && runs[i] == r;
      assert s[if i < k then i else i - 1] == r;
    }
  }

  lemma OldestUnique(runs: Runs, k: nat, l: nat)
    requires k < |runs| && l < |runs|
    requires forall i :: 0 <= i < |runs| ==> runs[k].created <= runs[i].created && runs[l].created <= runs[i].created
    requires forall i :: 0 <= i < k ==> runs[k].created < runs[i].created
    requires forall i :: 0 <= i < l ==> runs[l].created < runs[i].created
    ensures k == l
  {
    assert runs[k].created <= runs[l].created && runs[l].created <= runs[k].created;
  }

  lemma {:induction false} PutAt(runs: Runs, run: Run, i: nat)
    requires i <= |runs| && forall j :: 0 <= j < i ==> runs[j].id != run.id
    requires i < |runs| ==> runs[i].id == run.id
    ensures Put(runs, run) == if i < |runs| then runs[i := run] else runs + [run]
  {
    if runs != [] && i > 0 {
      PutAt(runs[1..], run, i - 1);
    }
  }

  lemma {:induction false} PutKeepsDistinct(runs: Runs, run: Run)
    requires DistinctIds(runs)
    ensures DistinctIds(Put(runs, run))
    ensures forall r :: r in Put(runs, run) ==> r == run || r in runs
  {
    if runs != [] && runs[0].id != run.id {
      PutKeepsDistinct(runs[1..], run);
      var p := Put(runs[1..], run);
      assert forall j :: 0 <= j < |p| ==> p[j] == run || p[j] in runs[1..];
    }
  }

  /** What one add does: an id in use gets the new run in place, a new one is appended; at most one run goes. */
  lemma AddExactly(runs: Runs, run: Run, maxEntries: nat)
    requires DistinctIds(runs)
    ensures forall i :: 0 <= i < |runs| && runs[i].id == run.id && |runs| <= maxEntries ==>
                          AddTo(runs, run, maxEntries) == runs[i := run]
    ensures (forall i :: 0 <= i < |runs| ==> runs[i].id != run.id) && |runs| < maxEntries ==>
              AddTo(runs, run, maxEntries) == runs + [run]
    ensures forall r :: r in AddTo(runs, run, maxEntries) ==> r == run || (r in runs && r.id != run.id)
  {
    var more := Put(runs, run);
    PutReplaces(runs, run);
    forall i | 0 <= i < |runs| && runs[i].id == run.id
      ensures more == runs[i := run]
    {
      PutAt(runs, run, i);
    }
    if forall i :: 0 <= i < |runs| ==> runs[i].id != run.id {
      PutAt(runs, run, |runs|);
    }
    if |more| > maxEntries {
      PutKeepsDistinct(runs, run);
      DropKeepsDistinct(more, OldestIndex(more));
    }
  }

  lemma {:induction false} PutReplaces(runs: Runs, run: Run)
    requires DistinctIds(runs)
    ensures run in Put(runs, run)
    ensures forall r :: r in Put(runs, run) ==> r == run || (r in runs && r.id != run.id)
  {
    if runs != [] && runs[0].id != run.id {
      PutReplaces(runs[1..], run);
      assert Put(runs, run) == [runs[0]] + Put(runs[1..], run);
    } else if runs != [] {
      assert forall r :: r in runs[1..] ==> r.id != runs[0].id;
    }
  }

  // ---------- The unbounded log ----------

  /** The store after adding the runs of a log, oldest call first, to an empty store. */
  function Stored(log: seq<Run>, maxEntries: nat): Runs {
    if log == [] then [] else AddTo(Stored(log[..|log| - 1], maxEntries), log[|log| - 1], maxEntries)
  }

  /** Entry i of the log is the last one of its id. */
  predicate LastOfItsId(log: seq<Run>, i: nat)
    requires i < |log|
  {
    forall j :: i < j < |log| ==> log[j].id != log[i].id
  }

  /** After any adds, with ids repeated or not, a stored id holds the last run added under it. */
  lemma {:induction false} LastWriteHolds(log: seq<Run>, maxEntries: nat, r: Run)
    requires r in Stored(log, maxEntries)
    ensures exists i :: 0 <= i < |log| && log[i] == r && LastOfItsId(log, i)
    decreases |log|
  {
    var front, x := log[..|log| - 1], log[|log| - 1];
    assert log == front + [x];
    StoredDistinct(front, maxEntries);
    AddExactly(Stored(front, maxEntries), x, maxEntries);
    assert r == x || (r in Stored(front, maxEntries) && r.id != x.id);
    hide AddTo, DistinctIds, Stored, LastOfItsId;
    if r == x {
      NewestIsLast(front, x);
    } else {
      LastWriteHolds(front, maxEntries, r);
      var i :| 0 <= i < |front| && front[i] == r && LastOfItsId(front, i);
      StaysLast(front, x, i);
    }
  }

  lemma NewestIsLast(front: seq<Run>, x: Run)
    ensures (front + [x])[|front|] == x && LastOfItsId(front + [x], |front|)
  {
  }

  lemma StaysLast(front: seq<Run>, x: Run, i: nat)
    requires i < |front| && LastOfItsId(front, i) && front[i].id != x.id
    ensures (front + [x])[i] == front[i] && LastOfItsId(front + [x], i)
  {
  }

  lemma {:induction false} StoredDistinct(log: seq<Run>, maxEntries: nat)
    ensures DistinctIds(Stored(log, maxEntries))
    decreases |log|
  {
    if log != [] {
      var front, x := log[..|log| - 1], log[|log| - 1];
      StoredDistinct(front, maxEntries);
      PutKeepsDistinct(Stored(front, maxEntries), x);
      var more := Put(Stored(front, maxEntries), x);
      if |more| > maxEntries {
        DropKeepsDistinct(more, OldestIndex(more));
      }
    }
  }

  predicate FreshLog(log: seq<Run>) {
    forall i, j :: 0 <= i < j < |log| ==> log[i].id != log[j].id && log[i].created != log[j].created
  }

  ghost function NewerThan(log: seq<Run>, r: Run): set<Run> {
    set x | x in log && x.created > r.created
  }

  /** How many runs of the whole log are newer than r. */
  ghost function Rank(log: seq<Run>, r: Run): nat {
    |NewerThan(log, r)|
  }

  ghost function Elements(s: seq<Run>): set<Run> {
    set x | x in s
  }

  lemma {:induction false} ElementCount(s: seq<Run>)
    requires forall i, j :: 0 <= i < j < |s| ==> s[i] != s[j]
    ensures |Elements(s)| == |s|
  {
    if s != [] {
      var front, last := s[..|s| - 1], s[|s| - 1];
      ElementCount(front);
      assert Elements(s) == Elements(front) + {last};
      assert last !in front;
    }
  }

  lemma RankOrder(log: seq<Run>, r: Run, x: Run)
    requires x in log && x.created > r.created
    ensures Rank(log, x) < Rank(log, r)
  {
    assert NewerThan(log, x) + {x} <= NewerThan(log, r);
    assert x !in NewerThan(log, x);
    SubsetSize(NewerThan(log, x) + {x}, NewerThan(log, r));
  }

  /** The invariant: distinct ids, and exactly the runs with fewer than maxEntries newer ones. */
  ghost predicate KeepsNewest(log: seq<Run>, runs: Runs, maxEntries: nat) {
    && DistinctIds(runs)
    && (forall r :: r in runs <==> r in log && Rank(log, r) < maxEntries)
    && |runs| == if |log| < maxEntries then |log| else maxEntries
  }

  lemma AppendNewId(runs: Runs, run: Run)
    requires forall r :: r in runs ==> r.id != run.id
    ensures Put(runs, run) == runs + [run]
  {
    PutAt(runs, run, |runs|);
  }

  lemma RankAfterAdd(log: seq<Run>, x: Run, r: Run)
    requires x !in log
    ensures Rank(log + [x], r) == Rank(log, r) + (if x.created > r.created then 1 else 0)
  {
    var a, b := NewerThan(log, r), NewerThan(log + [x], r);
    if x.created > r.created {
      assert b == a + {x};
    } else {
      assert b == a;
    }
  }

  lemma RankBelowLength(log: seq<Run>, r: Run)
    requires FreshLog(log) && r in log
    ensures Rank(log, r) < |log|
  {
    ElementCount(log);
    assert NewerThan(log, r) + {r} <= Elements(log);
    SubsetSize(NewerThan(log, r) + {r}, Elements(log));
    assert r !in NewerThan(log, r);
  }

  lemma DistinctTimes(log: seq<Run>, a: Run, b: Run)
    requires FreshLog(log) && a in log && b in log && a != b
    ensures a.created != b.created
  {
  }

  /** The log's newest maxEntries runs, with one fresh run put in. */
  ghost predicate Crowded(log: seq<Run>, x: Run, more: Runs, maxEntries: nat) {
    && FreshLog(log + [x]) && x !in log
    && DistinctIds(more) && |more| == maxEntries + 1
    && forall y :: y in more <==> y == x || (y in log && Rank(log, y) < maxEntries)
  }

  /** What is newer than a kept run other than the oldest is kept. */
  lemma NewerIsKept(log: seq<Run>, x: Run, more: Runs, maxEntries: nat, o: Run, r: Run, y: Run)
    requires Crowded(log, x, more, maxEntries)
    requires o in more && r in more && r != o && o.created < r.created
    requires y in log + [x] && y.created > r.created
    ensures y in more
  {
    if y != x {
      RankOrder(log, if r == x then o else r, y);
    }
  }

  /** In the crowded store, the oldest has maxEntries newer runs in the log ... */
  lemma OldestIsOut(log: seq<Run>, x: Run, more: Runs, maxEntries: nat)
    requires Crowded(log, x, more, maxEntries)
    ensures Rank(log + [x], more[OldestIndex(more)]) >= maxEntries
  {
    var full, o := log + [x], more[OldestIndex(more)];
    forall y | y in more && y != o
      ensures y in NewerThan(full, o)
    {
      DistinctTimes(full, y, o);
    }
    ElementCount(more);
    SubsetSize(Elements(more) - {o}, NewerThan(full, o));
  }

  /** ... and every other one has fewer. */
  lemma OthersStay(log: seq<Run>, x: Run, more: Runs, maxEntries: nat, r: Run)
    requires Crowded(log, x, more, maxEntries)
    requires r in more && r != more[OldestIndex(more)]
    ensures Rank(log + [x], r) < maxEntries
  {
    var full, o := log + [x], more[OldestIndex(more)];
    DistinctTimes(full, r, o);
    NewerAmongKept(log, x, more, maxEntries, o, r);
    ElementCount(more);
    SubsetSize(NewerThan(full, r), Elements(more) - {o, r});
  }

  lemma NewerAmongKept(log: seq<Run>, x: Run, more: Runs, maxEntries: nat, o: Run, r: Run)
    requires Crowded(log, x, more, maxEntries)
    requires o in more && r in more && r != o && o.created < r.created
    ensures NewerThan(log + [x], r) <= Elements(more) - {o, r}
  {
    forall y | y in NewerThan(log + [x], r)
      ensures y in Elements(more) - {o, r}
    {
      hide Crowded;
      NewerIsKept(log, x, more, maxEntries, o, r, y);
    }
  }

  lemma StepKeepsNewest(log: seq<Run>, x: Run, runs: Runs, maxEntries: nat)
    requires FreshLog(log + [x]) && KeepsNewest(log, runs, maxEntries)
    ensures KeepsNewest(log + [x], AddTo(runs, x, maxEntries), maxEntries)
  {
    var full := log + [x];
    FreshParts(log, x);
    AppendNewId(runs, x);
    var more := runs + [x];
    PutKeepsDistinct(runs, x);
    if |log| < maxEntries {
      forall r | r in full
        ensures Rank(full, r) < maxEntries && r in more
      {
        RankBelowLength(full, r);
        if r != x {
          RankBelowLength(log, r);
        }
      }
    } else {
      assert Crowded(log, x, more, maxEntries);
      var k := OldestIndex(more);
      DropKeepsDistinct(more, k);
      OldestIsOut(log, x, more, maxEntries);
      forall r
        ensures r in DropOldest(more) <==> r in full && Rank(full, r) < maxEntries
      {
        if r in more && r != more[k] {
          OthersStay(log, x, more, maxEntries, r);
        }
        RankAfterAdd(log, x, r);
      }
    }
  }

  lemma FreshParts(log: seq<Run>, x: Run)
    requires FreshLog(log + [x])
    ensures FreshLog(log) && x !in log && forall r :: r in log ==> r.id != x.id
  {
    var full := log + [x];
    assert forall i :: 0 <= i < |log| ==> full[i] == log[i];
    assert full[|log|] == x;
  }

  /**
   The bounded store refines the unbounded log: after any sequence of adds with distinct
   ids and times, the retained runs are exactly the maxEntries newest of all ever added.
   */
  lemma {:induction false} RetainsNewest(log: seq<Run>, maxEntries: nat)
    requires FreshLog(log)
    ensures KeepsNewest(log, Stored(log, maxEntries), maxEntries)
    decreases |log|
  {
    if log != [] {
      var front, x := log[..|log| - 1], log[|log| - 1];
      assert log == front + [x];
      FreshParts(front, x);
      RetainsNewest(front, maxEntries);
      StepKeepsNewest(front, x, Stored(front, maxEntries), maxEntries);
    }
  }

  // ---------- list_recent ----------

  predicate NewestFirst(s: Runs) {
    forall i, j :: 0 <= i < j < |s| ==> s[i].created >= s[j].created
  }

  lemma {:induction false} InsertElements(r: Run, s: Runs)
    ensures multiset(Insert(r, s)) == multiset(s) + multiset{r}
  {
    if s != [] {
      assert s == [s[0]] + s[1..];
      if r.created <= s[0].created {
        InsertElements(r, s[1..]);
      }
    }
  }

  lemma {:induction false} InsertSorted(r: Run, s: Runs)
    requires NewestFirst(s)
    ensures NewestFirst(Insert(r, s))
  {
    if s != [] && r.created <= s[0].created {
      InsertSorted(r, s[1..]);
      InsertElements(r, s[1..]);
      var t := Insert(r, s[1..]);
      forall j | 0 <= j < |t|
        ensures t[j].created <= s[0].created
      {
        assert t[j] in multiset(t);
        assert t[j] == r || t[j] in s[1..];
      }
    }
  }

  lemma {:induction false} SortIsSorted(runs: Runs)
    ensures NewestFirst(SortNewestFirst(runs))
    ensures multiset(SortNewestFirst(runs)) == multiset(runs)
    decreases |runs|
  {
    if runs != [] {
      var front, last := runs[..|runs| - 1], runs[|runs| - 1];
      assert runs == front + [last];
      SortIsSorted(front);
      InsertSorted(last, SortNewestFirst(front));
      InsertElements(last, SortNewestFirst(front));
    }
  }

  /** The runs of one time, in the order in which they stand. */
  function AtTime(runs: Runs, t: real): Runs {
    if runs == [] then []
    else if runs[0].created == t then [runs[0]] + AtTime(runs[1..], t)
    else AtTime(runs[1..], t)
  }

  lemma {:induction false} AtTimeSnoc(runs: Runs, r: Run, t: real)
    ensures AtTime(runs + [r], t) == AtTime(runs, t) + (if r.created == t then [r] else [])
  {
    if runs == [] {
      assert [r][1..] == [];
      assert runs + [r] == [r];
    } else {
      assert (runs + [r])[1..] == runs[1..] + [r];
      AtTimeSnoc(runs[1..], r, t);
    }
  }

  lemma {:induction false} InsertAfterEqual(r: Run, s: Runs, t: real)
    requires NewestFirst(s)
    ensures AtTime(Insert(r, s), t) == AtTime(s, t) + (if r.created == t then [r] else [])
  {
    if s != [] && r.created <= s[0].created {
      InsertAfterEqual(r, s[1..], t);
    } else {
      assert ([r] + s)[1..] == s;
      if r.created == t {
        NoneAtTime(s, t);
      }
    }
  }

  lemma {:induction false} NoneAtTime(s: Runs, t: real)
    requires forall i :: 0 <= i < |s| ==> s[i].created < t
    ensures AtTime(s, t) == []
  {
    if s != [] {
      NoneAtTime(s[1..], t);
    }
  }

  /** The sort is stable: runs of equal time keep the order in which they were inserted. */
  lemma {:induction false} SortIsStable(runs: Runs, t: real)
    ensures AtTime(SortNewestFirst(runs), t) == AtTime(runs, t)
    decreases |runs|
  {
    if runs != [] {
      var front, last := runs[..|runs| - 1], runs[|runs| - 1];
      assert runs == front + [last];
      SortIsStable(front, t);
      SortIsSorted(front);
      InsertAfterEqual(last, SortNewestFirst(front), t);
      AtTimeSnoc(front, last, t);
    }
  }

  /**
   list_recent(limit) is the newest part of the whole history, in order: its i-th entry is
   the run with exactly i newer ones among all runs ever added, up to limit (or to what the
   store retains, if that is less); a negative limit leaves out that many of the retained.
   */
  lemma {:induction false} ListRecentIsNewest(log: seq<Run>, maxEntries: nat, limit: int)
    requires FreshLog(log)
    ensures var shown := Take(SortNewestFirst(Stored(log, maxEntries)), limit);
            && |shown| == (if limit >= 0 then Min(limit, Min(|log|, maxEntries))
                           else Max(0, Min(|log|, maxEntries) + limit))
            && (forall i :: 0 <= i < |shown| ==> shown[i] in log && Rank(log, shown[i]) == i)
  {
    var runs := Stored(log, maxEntries);
    var s := SortNewestFirst(runs);
    RetainsNewest(log, maxEntries);
    SortIsSorted(runs);
    assert |s| == |multiset(s)| == |multiset(runs)| == |runs|;
    forall i | 0 <= i < |s|
      ensures s[i] in log && Rank(log, s[i]) == i
    {
      RankOfSorted(log, runs, s, maxEntries, i);
    }
  }

  lemma DistinctMultiset(runs: Runs, r: Run)
    requires DistinctIds(runs)
    ensures multiset(runs)[r] <= 1
    decreases |runs|
  {
    if runs != [] {
      var front := runs[..|runs| - 1];
      assert runs == front + [runs[|runs| - 1]];
      DistinctMultiset(front, r);
    }
  }

  lemma SortedDistinct(runs: Runs, s: Runs, i: nat, j: nat)
    requires DistinctIds(runs) && multiset(s) == multiset(runs) && i < j < |s|
    ensures s[i] != s[j]
  {
    DistinctMultiset(runs, s[i]);
    var a, b := s[..j], s[j..];
    assert s == a + b;
    assert s[i] in a && s[j] in b;
    assert multiset(s)[s[i]] == multiset(a)[s[i]] + multiset(b)[s[i]];
  }

  lemma RankOfSorted(log: seq<Run>, runs: Runs, s: Runs, maxEntries: nat, i: nat)
    requires FreshLog(log) && KeepsNewest(log, runs, maxEntries)
    requires NewestFirst(s) && multiset(s) == multiset(runs) && i < |s|
    ensures s[i] in log && Rank(log, s[i]) == i
  {
    SameElements(s, runs);
    forall a, b | 0 <= a < b < |s|
      ensures s[a] != s[b]
    {
      SortedDistinct(runs, s, a, b);
    }
    var before := s[..i];
    ElementCount(before);
    forall x: Run
      ensures x in NewerThan(log, s[i]) <==> x in before
    {
      NewerStandBefore(log, runs, s, maxEntries, i, x);
    }
    assert NewerThan(log, s[i]) == Elements(before);
  }

  lemma NewerStandBefore(log: seq<Run>, runs: Runs, s: Runs, maxEntries: nat, i: nat, x: Run)
    requires FreshLog(log) && KeepsNewest(log, runs, maxEntries)
    requires NewestFirst(s) && i < |s| && forall y :: y in s <==> y in runs
    requires forall a, b :: 0 <= a < b < |s| ==> s[a] != s[b]
    ensures x in NewerThan(log, s[i]) <==> x in s[..i]
  {
    assert s[i] in s;
    if x in s[..i] {
      var j :| 0 <= j < i && s[j] == x;
      assert x in s;
      DistinctTimes(log, x, s[i]);
    }
    if x in NewerThan(log, s[i]) {
      RankOrder(log, s[i], x);
      assert x in s;
      var j :| 0 <= j < |s| && s[j] == x;
      assert j < i;
    }
  }

  lemma SameElements(s: Runs, t: Runs)
    requires multiset(s) == multiset(t)
    ensures forall x :: x in s <==> x in t
  {
    forall x
      ensures x in s <==> x in t
    {
      assert x in s <==> x in multiset(s);
      assert x in t <==> x in multiset(t);
    }
  }
}
