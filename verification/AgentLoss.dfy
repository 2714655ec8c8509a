/** The one way the agent queue loses a job, and exactly which jobs it can happen to. */
module AgentLoss {
  import opened Basics
  import opened Wrappers
  import opened AgentStore
  import opened AgentProtocol

  // ---------- Reachability ----------

  ghost predicate Reaches(s: System, t: System) {
    exists run :: Exec(s, run) == t
  }

  lemma ReachNext(s: System, t: System, e: Event)
    requires Reaches(s, t)
    ensures Reaches(s, Step(t, e))
  {
    var run :| Exec(s, run) == t;
    ExecSnoc(s, run, e);
  }

  // ---------- A job that always fails ----------

  const FLAKY: Outcome := Error(true, "connection reset")

  /** One job, waiting on the ready list after k runs, and one process about to take it. */
  predicate Waiting(s: System, p: Proc, id: Id, m: int, k: nat) {
    && s.keys.ready == [id] && s.keys.delayed == map[] && id in s.keys.jobs
    && s.keys.jobs[id].attempts == k && s.keys.jobs[id].maxAttempts == m && !s.keys.jobs[id].cancelRequested
    && p in s.procs && s.procs[p].Pumping?
  }

  /** The same job in the process's hand, at the given point of its work. */
  predicate Holding(s: System, p: Proc, id: Id, m: int, k: nat, ph: Phase) {
    && s.keys.ready == [] && s.keys.delayed == map[] && id in s.keys.jobs
    && s.keys.jobs[id].attempts == k && s.keys.jobs[id].maxAttempts == m && !s.keys.jobs[id].cancelRequested
    && p in s.procs && s.procs[p] == ph
  }

  /** A snapshot that the worker loaded before its run. */
  predicate SnapOf(snap: AgentJob, m: int) {
    snap.maxAttempts == m && !snap.cancelRequested
  }

  /** Just after a run that failed. */
  ghost predicate Failing(s: System, p: Proc, id: Id, m: int, k: nat) {
    exists snap :: SnapOf(snap, m) && Holding(s, p, id, m, k, Ended(id, snap, k, FLAKY))
  }

  /** The same job in the delayed set, and the process idle. */
  predicate Sleeping(s: System, p: Proc, id: Id, m: int, k: nat) {
    && s.keys.ready == [] && s.keys.delayed.Keys == {id} && id in s.keys.jobs
    && s.keys.jobs[id].attempts == k && s.keys.jobs[id].maxAttempts == m && !s.keys.jobs[id].cancelRequested
    && p in s.procs && s.procs[p] == Idle
  }

  lemma CreateHeld(s: System, p: Proc, id: Id, m: int)
    requires Initial(s) && p in s.procs
    ensures Holding(Step(s, Create(p, id, m)), p, id, m, 0, Created(id))
  {
  }

  lemma PushHeld(s: System, p: Proc, id: Id, m: int, k: nat)
    requires Holding(s, p, id, m, k, Created(id))
    ensures Waiting(Step(Step(s, Push(p)), BeginPump(p, 100)), p, id, m, k)
  {
  }

  lemma Submit(s: System, p: Proc, id: Id, m: int) returns (t: System)
    requires Initial(s) && p in s.procs
    ensures Reaches(s, t) && Waiting(t, p, id, m, 0)
  {
    assert Exec(s, []) == s;
    hide Step, Holding, Waiting;
    var s1 := Step(s, Create(p, id, m));
    var s2 := Step(s1, Push(p));
    t := Step(s2, BeginPump(p, 100));
    CreateHeld(s, p, id, m);
    PushHeld(s1, p, id, m, 0);
    ReachNext(s, s, Create(p, id, m));
    ReachNext(s, s1, Push(p));
    ReachNext(s, s2, BeginPump(p, 100));
  }

  lemma Take(r: System, s: System, p: Proc, id: Id, m: int, k: nat) returns (t: System, snap: AgentJob)
    requires Reaches(r, s) && Waiting(s, p, id, m, k)
    ensures Reaches(r, t) && SnapOf(snap, m) && Holding(t, p, id, m, k, Loaded(id, snap))
  {
    var s1 := Step(s, PumpEnds(p));
    var s2 := Step(s1, Dequeue(p));
    t, snap := Step(s2, Load(p)), s.keys.jobs[id];
    ReachNext(r, s, PumpEnds(p));
    ReachNext(r, s1, Dequeue(p));
    ReachNext(r, s2, Load(p));
  }

  lemma MarkHeld(s: System, p: Proc, id: Id, m: int, k: nat, snap: AgentJob)
    requires SnapOf(snap, m) && Holding(s, p, id, m, k, Loaded(id, snap))
    ensures Holding(Step(s, Mark(p)), p, id, m, k, Marked(id, snap))
  {
  }

  lemma CountHeld(s: System, p: Proc, id: Id, m: int, k: nat, snap: AgentJob)
    requires Holding(s, p, id, m, k, Marked(id, snap))
    ensures Holding(Step(s, Count(p)), p, id, m, k + 1, Counted(id, snap, k + 1))
  {
  }

  lemma RunHeld(s: System, p: Proc, id: Id, m: int, k: nat, snap: AgentJob)
    requires Holding(s, p, id, m, k, Counted(id, snap, k))
    ensures Holding(Step(s, Run(p, FLAKY)), p, id, m, k, Ended(id, snap, k, FLAKY))
  {
  }

  lemma Fail(r: System, s: System, p: Proc, id: Id, m: int, k: nat, snap: AgentJob) returns (t: System)
    requires Reaches(r, s) && SnapOf(snap, m) && Holding(s, p, id, m, k, Loaded(id, snap))
    ensures Reaches(r, t) && Failing(t, p, id, m, k + 1)
  {
    hide Step, Reaches, Holding, SnapOf;
    var s1 := Step(s, Mark(p));
    var s2 := Step(s1, Count(p));
    t := Step(s2, Run(p, FLAKY));
    MarkHeld(s, p, id, m, k, snap);
    CountHeld(s1, p, id, m, k, snap);
    RunHeld(s2, p, id, m, k + 1, snap);
    ReachNext(r, s, Mark(p));
    ReachNext(r, s1, Count(p));
    ReachNext(r, s2, Run(p, FLAKY));
  }

  lemma RecordHeld(s: System, p: Proc, id: Id, m: int, k: nat, snap: AgentJob)
    requires SnapOf(snap, m) && Holding(s, p, id, m, k, Ended(id, snap, k, FLAKY))
    requires 1 <= k <= FLOAT_EXPONENTS && k < EffectiveMax(m)
    ensures Holding(Step(s, Record(p)), p, id, m, k, RetrySet(id, k))
  {
    hide Pow2;
  }

  lemma CloseHeld(s: System, p: Proc, id: Id, m: int, k: nat)
    requires Holding(s, p, id, m, k, RetrySet(id, k))
    ensures Holding(Step(s, Close(p)), p, id, m, k, Requeued(id, k))
  {
  }

  lemma ScheduleHeld(s: System, p: Proc, id: Id, m: int, k: nat)
    requires Holding(s, p, id, m, k, Requeued(id, k)) && 1 <= k <= FLOAT_EXPONENTS
    ensures Sleeping(Step(Step(s, ReadDue(p)), Schedule(p)), p, id, m, k)
  {
    hide Pow2;
  }

  /** With a run left and a delay that fits, the job is scheduled again. */
  lemma Retry(r: System, s: System, p: Proc, id: Id, m: int, k: nat) returns (t: System)
    requires Reaches(r, s) && Failing(s, p, id, m, k) && 1 <= k <= FLOAT_EXPONENTS && k < EffectiveMax(m)
    ensures Reaches(r, t) && Sleeping(t, p, id, m, k)
  {
    hide Step, Reaches, Holding, Sleeping, SnapOf, EffectiveMax;
    var snap :| SnapOf(snap, m) && Holding(s, p, id, m, k, Ended(id, snap, k, FLAKY));
    var s1 := Step(s, Record(p));
    var s2 := Step(s1, Close(p));
    var s3 := Step(s2, ReadDue(p));
    t := Step(s3, Schedule(p));
    RecordHeld(s, p, id, m, k, snap);
    CloseHeld(s1, p, id, m, k);
    ScheduleHeld(s2, p, id, m, k);
    ReachNext(r, s, Record(p));
    ReachNext(r, s1, Close(p));
    ReachNext(r, s2, ReadDue(p));
    ReachNext(r, s3, Schedule(p));
  }

  lemma PopHeld(s: System, p: Proc, id: Id, m: int, k: nat, due: real)
    requires Sleeping(s, p, id, m, k) && id in s.keys.delayed && s.keys.delayed[id] == due
    ensures var now := if due > s.clock then due else s.clock;
            var t := Step(Step(Step(s, Tick(due)), BeginPump(p, 100)), PumpPop(p, id));
            Holding(t, p, id, m, k, PumpHolds(now, 100, id, due))
  {
    var s2 := Step(Step(s, Tick(due)), BeginPump(p, 100));
    assert Earliest(s2.keys.delayed, id);
    assert s2.keys.delayed - {id} == map[];
  }

  lemma PlaceHeld(s: System, p: Proc, id: Id, m: int, k: nat, now: real, due: real)
    requires Holding(s, p, id, m, k, PumpHolds(now, 100, id, due)) && due <= now
    ensures Waiting(Step(s, PumpPlace(p)), p, id, m, k)
  {
  }

  lemma SleepingIsDelayed(s: System, p: Proc, id: Id, m: int, k: nat)
    requires Sleeping(s, p, id, m, k)
    ensures id in s.keys.delayed
  {
    assert id in s.keys.delayed.Keys;
  }

  /** Once it is due, the pump moves it to the ready list. */
  lemma Wake(r: System, s: System, p: Proc, id: Id, m: int, k: nat) returns (t: System)
    requires Reaches(r, s) && Sleeping(s, p, id, m, k)
    ensures Reaches(r, t) && Waiting(t, p, id, m, k)
  {
    hide Step, Reaches, Holding, Sleeping, Waiting;
    SleepingIsDelayed(s, p, id, m, k);
    var due := s.keys.delayed[id];
    var s1 := Step(s, Tick(due));
    var s2 := Step(s1, BeginPump(p, 100));
    var s3 := Step(s2, PumpPop(p, id));
    t := Step(s3, PumpPlace(p));
    PopHeld(s, p, id, m, k, due);
    PlaceHeld(s3, p, id, m, k, if due > s.clock then due else s.clock, due);
    ReachNext(r, s, Tick(due));
    ReachNext(r, s1, BeginPump(p, 100));
    ReachNext(r, s2, PumpPop(p, id));
    ReachNext(r, s3, PumpPlace(p));
  }

  /** k + 1 failed runs. */
  lemma {:induction false} FailOften(r: System, p: Proc, id: Id, m: int, k: nat) returns (t: System)
    requires Initial(r) && p in r.procs && k <= FLOAT_EXPONENTS && (k > 0 ==> k < EffectiveMax(m))
    ensures Reaches(r, t) && Failing(t, p, id, m, k + 1)
  {
    hide Reaches, Waiting, Holding, SnapOf, Failing, Sleeping, Initial, EffectiveMax;
    if k == 0 {
      t := Submit(r, p, id, m);
    } else {
      t := FailOften(r, p, id, m, k - 1);
      t := Retry(r, t, p, id, m, k);
      t := Wake(r, t, p, id, m, k);
    }
    var snap;
    t, snap := Take(r, t, p, id, m, k);
    t := Fail(r, t, p, id, m, k, snap);
  }

  /** With a limit above 1025, the failure of run 1025 leaves the job stranded. */
  lemma Lose(r: System, p: Proc, id: Id, m: int) returns (t: System)
    requires Initial(r) && p in r.procs && RunLimit(m) > FLOAT_EXPONENTS + 1
    ensures Reaches(r, t) && Stranded(t, id) && t.keys.jobs[id].maxAttempts == m
  {
    var s := FailOften(r, p, id, m, FLOAT_EXPONENTS);
    t := Step(s, Raise(p));
    RaiseHeld(s, p, id, m);
    hide Step, Reaches, Failing, Stranded, RunLimit;
    ReachNext(r, s, Raise(p));
    ReachedInv(r, t);
    StrandedIsLost(t, id);
  }

  lemma RaiseHeld(s: System, p: Proc, id: Id, m: int)
    requires Failing(s, p, id, m, FLOAT_EXPONENTS + 1) && RunLimit(m) > FLOAT_EXPONENTS + 1
    ensures var t := Step(s, Raise(p));
            && id in t.place && t.place[id] == Lost
            && id in t.keys.jobs && t.keys.jobs[id].maxAttempts == m
  {
    hide Pow2;
  }

  lemma ReachedInv(r: System, t: System)
    requires Initial(r) && Reaches(r, t)
    ensures Inv(t)
  {
    var run :| Exec(r, run) == t;
    ExecInv(r, run);
  }

  /**
   Exactly which jobs can be lost: some run strands a job of the given max_attempts if and
   only if its limit is above 1025, as soon as there is a process at all.
   */
  lemma {:induction false} LossExactly(s: System, m: int)
    requires Initial(s) && s.procs != map[]
    ensures (exists run, id :: Stranded(Exec(s, run), id) && Exec(s, run).keys.jobs[id].maxAttempts == m)
            <==> RunLimit(m) > 1025
  {
    if exists run, id :: Stranded(Exec(s, run), id) && Exec(s, run).keys.jobs[id].maxAttempts == m {
      var run, id :| Stranded(Exec(s, run), id) && Exec(s, run).keys.jobs[id].maxAttempts == m;
      ExactlyOnePlace(s, run, id);
      assert id in Exec(s, run).keys.ready <==> multiset(Exec(s, run).keys.ready)[id] > 0;
    }
    if RunLimit(m) > 1025 {
      var p :| p in s.procs;
      var t := Lose(s, p, "job", m);
      var run :| Exec(s, run) == t;
      assert Stranded(Exec(s, run), "job") && Exec(s, run).keys.jobs["job"].maxAttempts == m;
    }
  }
}
