/**
 How many jobs the thread-pool queue admits: the bound that the separate check and insert
 of enqueue keep over every run, and that it is reached.
 */
module JobAdmission {
  import opened Models
  import opened Basics
  import opened JobQueue
  import opened JobProtocol

  /** Callers between the check and the insert of enqueue. */
  ghost function Checked(callers: map<Caller, CallerPhase>): set<Caller> {
    set c | c in callers && callers[c] == PastCheck
  }

  /** The most jobs that can be active at once with this many concurrent callers of enqueue. */
  function Capacity(cfg: Config, callers: nat): nat {
    if cfg.maxPending <= 0 || callers == 0 then 0 else cfg.maxPending - 1 + callers
  }

  ghost predicate Admitted(cfg: Config, s: System) {
    ActiveCount(s.sh.jobs) + |Checked(s.callers)| <= Capacity(cfg, |s.callers|)
  }

  lemma CheckedUpdate(callers: map<Caller, CallerPhase>, c: Caller, p: CallerPhase)
    requires c in callers
    ensures |callers[c := p]| == |callers|
    ensures |Checked(callers[c := p])|
         == |Checked(callers)| + (if p == PastCheck then 1 else 0) - (if callers[c] == PastCheck then 1 else 0)
    ensures |Checked(callers)| <= |callers|
  {
    KeysUnchanged(callers, c, p);
    CheckedMembers(callers, c, p);
    CheckedBound(callers);
  }

  lemma KeysUnchanged(callers: map<Caller, CallerPhase>, c: Caller, p: CallerPhase)
    requires c in callers
    ensures callers[c := p].Keys == callers.Keys && |callers[c := p]| == |callers|
  {
    assert callers[c := p].Keys == callers.Keys;
    assert |callers[c := p].Keys| == |callers[c := p]| && |callers.Keys| == |callers|;
  }

  lemma CheckedMembers(callers: map<Caller, CallerPhase>, c: Caller, p: CallerPhase)
    requires c in callers
    ensures p == PastCheck ==> Checked(callers[c := p]) == Checked(callers) + {c}
    ensures p != PastCheck ==> Checked(callers[c := p]) == Checked(callers) - {c}
    ensures c in Checked(callers) <==> callers[c] == PastCheck
  {
  }

  lemma CheckedBound(callers: map<Caller, CallerPhase>)
    ensures |Checked(callers)| <= |callers|
  {
    assert Checked(callers) <= callers.Keys;
    SubsetSize(Checked(callers), callers.Keys);
  }

  lemma CheckAdmits(cfg: Config, s: System, c: Caller)
    requires Admitted(cfg, s)
    ensures Admitted(cfg, DoCheck(cfg, s, c)) && |DoCheck(cfg, s, c).callers| == |s.callers|
  {
    if c in s.callers && s.callers[c] == Outside && CheckRegion(s.sh, cfg.maxPending).None? {
      CheckedUpdate(s.callers, c, PastCheck);
      CheckedBound(s.callers[c := PastCheck]);
      assert s.callers.Keys != {};
    }
  }

  lemma InsertAdmits(cfg: Config, s: System, c: Caller, id: Id, now: real)
    requires Admitted(cfg, s)
    ensures Admitted(cfg, DoInsert(s, c, id, now)) && |DoInsert(s, c, id, now).callers| == |s.callers|
  {
    if c in s.callers && s.callers[c] == PastCheck && id !in s.sh.jobs {
      CheckedUpdate(s.callers, c, PastInsert(id));
      HavingUpdate(s.sh.jobs, id, NewRecord(now), IsActive);
    }
  }

  /** No other step makes a job active or lets a caller past the check. */
  lemma OthersAdmit(cfg: Config, s: System, e: Event)
    requires !e.EnqueueCheck? && !e.EnqueueInsert? && JobsInv(s)
    ensures var s' := Step(cfg, s, e);
            && s'.callers.Keys == s.callers.Keys
            && Checked(s'.callers) == Checked(s.callers)
            && Having(s'.sh.jobs, IsActive) <= Having(s.sh.jobs, IsActive)
  {
    hide Step, JobOk;
    var s' := Step(cfg, s, e);
    forall id | id in s'.sh.jobs && IsActive(s'.sh.jobs[id])
      ensures id in s.sh.jobs && IsActive(s.sh.jobs[id])
    {
      assert JobOk(s, id);
      StaysActive(cfg, s, e, id);
    }
    CallersChecked(cfg, s, e);
  }

  lemma StaysActive(cfg: Config, s: System, e: Event, id: Id)
    requires !e.EnqueueInsert? && JobOk(s, id)
    requires id in Step(cfg, s, e).sh.jobs && IsActive(Step(cfg, s, e).sh.jobs[id])
    ensures id in s.sh.jobs && IsActive(s.sh.jobs[id])
  {
    if id in s.sh.jobs {
      hide Step;
      StepFreezes(cfg, s, e, id);
    } else {
      OnlyInsertAdds(cfg, s, e, id);
    }
  }

  lemma OnlyInsertAdds(cfg: Config, s: System, e: Event, id: Id)
    requires !e.EnqueueInsert? && id !in s.sh.jobs
    ensures id !in Step(cfg, s, e).sh.jobs
  {
    hide DoCancel, DoTimeout, DoStart, DoRecord, DoFinish;
    match e
    case CancelJob(j, reason, now) => CancelAddsNothing(cfg, s, j, reason, now);
    case TimerFires(j, now) => CancelAddsNothing(cfg, s, j, "", now);
    case StartJob(j, now) => BodyAddsNothing(s, j, now);
    case RecordOutcome(j, now) => BodyAddsNothing(s, j, now);
    case FinishJob(j, now) => BodyAddsNothing(s, j, now);
    case EnqueueInsert(c, j, now) =>
    case _ =>
      hide Step;
      OthersKeepJobs(cfg, s, e);
  }

  lemma CancelAddsNothing(cfg: Config, s: System, id: Id, reason: string, now: real)
    ensures DoCancel(s, id, reason, now).sh.jobs.Keys == s.sh.jobs.Keys
    ensures DoTimeout(cfg, s, id, now).sh.jobs.Keys == s.sh.jobs.Keys
  {
    hide Bump, CancelFuture;
  }

  lemma BodyAddsNothing(s: System, id: Id, now: real)
    ensures DoStart(s, id, now).sh.jobs.Keys == s.sh.jobs.Keys
    ensures DoRecord(s, id, now).sh.jobs.Keys == s.sh.jobs.Keys
    ensures DoFinish(s, id, now).sh.jobs.Keys == s.sh.jobs.Keys
  {
    hide StartRegion, SucceedRegion, FailRegion, FinallyRegion;
    RegionsAddNothing(s.sh, id, now);
    OutcomesAddNothing(s.sh, id, now);
  }

  lemma RegionsAddNothing(sh: Shared, id: Id, now: real)
    ensures StartRegion(sh, id, now).jobs.Keys == sh.jobs.Keys
    ensures FinallyRegion(sh, id, now).jobs.Keys == sh.jobs.Keys
  {
  }

  lemma OutcomesAddNothing(sh: Shared, id: Id, now: real)
    ensures forall v :: SucceedRegion(sh, id, v).jobs.Keys == sh.jobs.Keys
    ensures forall f :: FailRegion(sh, id, f, now).jobs.Keys == sh.jobs.Keys
  {
    hide Bump;
  }

  lemma CallersChecked(cfg: Config, s: System, e: Event)
    requires !e.EnqueueCheck? && !e.EnqueueInsert?
    ensures var s' := Step(cfg, s, e);
            s'.callers.Keys == s.callers.Keys && Checked(s'.callers) == Checked(s.callers)
  {
    hide DoCancel, DoTimeout, DoStart, DoRecord, DoFinish;
    var s' := Step(cfg, s, e);
    match e
    case EnqueueCheck(c) =>
    case EnqueueInsert(c, id, now) =>
    case EnqueueSubmit(c) =>
      if c in s.callers && s.callers[c].PastInsert? {
        CheckedSame(s.callers, c, s'.callers[c]);
      }
    case EnqueueRegister(c) =>
      if c in s.callers && s.callers[c].PastSubmit? {
        CheckedSame(s.callers, c, Outside);
      }
    case _ => BodyKeepsCallers(cfg, s, e);
  }

  lemma CheckedSame(callers: map<Caller, CallerPhase>, c: Caller, p: CallerPhase)
    requires c in callers && callers[c] != PastCheck && p != PastCheck
    ensures Checked(callers[c := p]) == Checked(callers) && callers[c := p].Keys == callers.Keys
  {
  }

  lemma StepAdmits(cfg: Config, s: System, e: Event)
    requires Inv(s) && Admitted(cfg, s)
    ensures Admitted(cfg, Step(cfg, s, e)) && |Step(cfg, s, e).callers| == |s.callers|
  {
    if e.EnqueueCheck? {
      CheckAdmits(cfg, s, e.c);
    } else if e.EnqueueInsert? {
      InsertAdmits(cfg, s, e.c, e.id, e.now);
    } else {
      hide Step;
      var s' := Step(cfg, s, e);
      OthersAdmit(cfg, s, e);
      assert |s'.callers.Keys| == |s.callers.Keys|;
      SubsetSize(Having(s'.sh.jobs, IsActive), Having(s.sh.jobs, IsActive));
    }
  }

  /**
   Admission: with C concurrent callers of enqueue, active jobs plus callers between the
   check and the insert never exceed max_pending - 1 + C, because check and insert are
   separate lock regions; and nothing is ever admitted when max_pending is not positive.
   */
  lemma {:induction false} AdmissionBound(cfg: Config, s: System, run: seq<Event>)
    requires Initial(s)
    ensures |Exec(cfg, s, run).callers| == |s.callers|
    ensures Admitted(cfg, Exec(cfg, s, run))
    decreases |run|
  {
    if run == [] {
      assert Having(s.sh.jobs, IsActive) == {};
      assert Checked(s.callers) == {};
    } else {
      var front := run[..|run| - 1];
      AdmissionBound(cfg, s, front);
      InitialInv(s);
      ExecInv(cfg, s, front);
      StepAdmits(cfg, Exec(cfg, s, front), run[|run| - 1]);
    }
  }

  /** With a single caller the configured cap holds. */
  lemma {:induction false} SingleCallerCap(cfg: Config, s: System, run: seq<Event>)
    requires Initial(s) && |s.callers| == 1 && cfg.maxPending >= 0
    ensures ActiveCount(Exec(cfg, s, run).sh.jobs) <= cfg.maxPending
  {
    AdmissionBound(cfg, s, run);
  }

  /**
   With two callers it is not: both may pass the check before either inserts, so from any
   state one below the cap the cap is overrun by one.
   */
  lemma TwoCallersOverrun(cfg: Config, s: System, c: Caller, d: Caller, a: Id, b: Id, now: real)
    requires c in s.callers && d in s.callers && c != d && s.callers[c] == Outside && s.callers[d] == Outside
    requires a !in s.sh.jobs && b !in s.sh.jobs && a != b && !s.sh.shutdown
    requires ActiveCount(s.sh.jobs) == cfg.maxPending - 1
    ensures var t := Exec(cfg, s,
                              [EnqueueCheck(c), EnqueueCheck(d), EnqueueInsert(c, a, now), EnqueueInsert(d, b, now)]);
            ActiveCount(t.sh.jobs) == cfg.maxPending + 1
  {
    hide Exec, Step, ActiveCount;
    var s1 := DoCheck(cfg, s, c);
    var s2 := DoCheck(cfg, s1, d);
    var s3 := DoInsert(s2, c, a, now);
    ExecOverrun(cfg, s, c, d, a, b, now);
    CheckPasses(cfg, s, c);
    CheckPasses(cfg, s1, d);
    hide DoCheck, DoInsert;
    InsertActivates(s2, c, a, now);
    InsertActivates(s3, d, b, now);
  }

  lemma ExecOverrun(cfg: Config, s: System, c: Caller, d: Caller, a: Id, b: Id, now: real)
    ensures Exec(cfg, s, [EnqueueCheck(c), EnqueueCheck(d), EnqueueInsert(c, a, now), EnqueueInsert(d, b, now)])
            == DoInsert(DoInsert(DoCheck(cfg, DoCheck(cfg, s, c), d), c, a, now), d, b, now)
  {
    hide Exec, DoCheck, DoInsert;
    ExecFour(cfg, s, EnqueueCheck(c), EnqueueCheck(d), EnqueueInsert(c, a, now), EnqueueInsert(d, b, now));
  }

  lemma CheckPasses(cfg: Config, s: System, c: Caller)
    requires c in s.callers && s.callers[c] == Outside && !s.sh.shutdown && ActiveCount(s.sh.jobs) < cfg.maxPending
    ensures DoCheck(cfg, s, c) == s.(callers := s.callers[c := PastCheck])
  {
  }

  lemma InsertActivates(s: System, c: Caller, id: Id, now: real)
    requires c in s.callers && s.callers[c] == PastCheck && id !in s.sh.jobs
    ensures var s' := DoInsert(s, c, id, now);
            && ActiveCount(s'.sh.jobs) == ActiveCount(s.sh.jobs) + 1
            && s'.sh.jobs.Keys == s.sh.jobs.Keys + {id}
            && forall d :: d != c && d in s.callers ==> d in s'.callers && s'.callers[d] == s.callers[d]
  {
    HavingUpdate(s.sh.jobs, id, NewRecord(now), IsActive);
  }

  lemma ExecOne(cfg: Config, s: System, run: seq<Event>, e: Event)
    ensures Exec(cfg, s, run + [e]) == Step(cfg, Exec(cfg, s, run), e)
  {
    assert (run + [e])[..|run + [e]| - 1] == run;
  }

  lemma ExecFour(cfg: Config, s: System, e1: Event, e2: Event, e3: Event, e4: Event)
    ensures Exec(cfg, s, [e1, e2, e3, e4]) == Step(cfg, Step(cfg, Step(cfg, Step(cfg, s, e1), e2), e3), e4)
  {
    hide Step;
    ExecOne(cfg, s, [], e1);
    ExecOne(cfg, s, [e1], e2);
    ExecOne(cfg, s, [e1, e2], e3);
    ExecOne(cfg, s, [e1, e2, e3], e4);
    assert [] + [e1] == [e1] && [e1] + [e2] == [e1, e2];
    assert [e1, e2] + [e3] == [e1, e2, e3] && [e1, e2, e3] + [e4] == [e1, e2, e3, e4];
  }

  // ---------- The bound is reached ----------

  function Name(n: nat): Id {
    seq(n, _ => 'j')
  }

  /** k active jobs with names shorter than k, nothing shut down, and the callers of passed past the check. */
  ghost predicate Building(s: System, k: nat, passed: set<Caller>) {
    && !s.sh.shutdown && !s.executorDown
    && ActiveCount(s.sh.jobs) == k
    && (forall id :: id in s.sh.jobs ==> |id| < k)
    && (forall c :: c in passed ==> c in s.callers && s.callers[c] == PastCheck)
  }

  predicate AllOutside(s: System) {
    forall c :: c in s.callers ==> s.callers[c] == Outside
  }

  lemma CheckBuilds(cfg: Config, s: System, c: Caller, k: nat, passed: set<Caller>)
    requires Building(s, k, passed) && k < cfg.maxPending && c in s.callers && s.callers[c] == Outside
    ensures Building(DoCheck(cfg, s, c), k, passed + {c})
    ensures DoCheck(cfg, s, c).callers == s.callers[c := PastCheck]
  {
    CheckPasses(cfg, s, c);
  }

  lemma InsertBuilds(s: System, c: Caller, k: nat, passed: set<Caller>)
    requires Building(s, k, passed) && c in passed
    ensures Building(DoInsert(s, c, Name(k), 0.0), k + 1, passed - {c})
    ensures DoInsert(s, c, Name(k), 0.0).callers == s.callers[c := PastInsert(Name(k))]
  {
    InsertActivates(s, c, Name(k), 0.0);
    hide ActiveCount;
  }

  lemma RegisterBuilds(s: System, c: Caller, k: nat)
    requires Building(s, k, {}) && c in s.callers && s.callers[c].PastInsert?
    ensures Building(DoRegister(DoSubmit(s, c), c), k, {})
    ensures DoRegister(DoSubmit(s, c), c).callers == s.callers[c := Outside]
  {
    hide ActiveCount;
    assert s.callers[c := PastSubmit(s.callers[c].id)][c := Outside] == s.callers[c := Outside];
  }

  /** One caller takes one job through the whole of enqueue. */
  lemma EnqueueOne(cfg: Config, s: System, c: Caller, k: nat) returns (run: seq<Event>)
    requires Building(s, k, {}) && AllOutside(s) && c in s.callers && k < cfg.maxPending
    ensures var t := Exec(cfg, s, run);
            Building(t, k + 1, {}) && AllOutside(t) && t.callers.Keys == s.callers.Keys
  {
    run := [EnqueueCheck(c), EnqueueInsert(c, Name(k), 0.0), EnqueueSubmit(c), EnqueueRegister(c)];
    hide Exec, Step, Building, DoCheck, DoInsert, DoSubmit, DoRegister;
    ExecEnqueue(cfg, s, c, Name(k));
    var s1 := DoCheck(cfg, s, c);
    var s2 := DoInsert(s1, c, Name(k), 0.0);
    CheckBuilds(cfg, s, c, k, {});
    assert {} + {c} == {c} && {c} - {c} == {};
    InsertBuilds(s1, c, k, {c});
    RegisterBuilds(s2, c, k + 1);
    BackOutside(s, c, Name(k));
  }

  lemma BackOutside(s: System, c: Caller, id: Id)
    requires AllOutside(s) && c in s.callers
    ensures s.callers[c := PastCheck][c := PastInsert(id)][c := Outside] == s.callers
  {
  }

  lemma NothingBuilt(s: System)
    requires Initial(s)
    ensures Building(s, 0, {}) && AllOutside(s)
  {
    assert Having(s.sh.jobs, IsActive) == {};
  }

  lemma CountOfBuilding(s: System, k: nat, passed: set<Caller>)
    requires Building(s, k, passed)
    ensures ActiveCount(s.sh.jobs) == k
  {
  }

  lemma ExecNone(cfg: Config, s: System)
    ensures Exec(cfg, s, []) == s
  {
  }

  lemma {:induction false} FillUp(cfg: Config, s: System, c: Caller, k: nat) returns (run: seq<Event>)
    requires Initial(s) && c in s.callers && k <= cfg.maxPending
    ensures var t := Exec(cfg, s, run);
            Building(t, k, {}) && AllOutside(t) && t.callers.Keys == s.callers.Keys
  {
    hide Exec, Building, AllOutside, Initial;
    if k == 0 {
      run := [];
      ExecNone(cfg, s);
      NothingBuilt(s);
    } else {
      var front := FillUp(cfg, s, c, k - 1);
      var last := EnqueueOne(cfg, Exec(cfg, s, front), c, k - 1);
      run := front + last;
      ExecAppend(cfg, s, front, last);
    }
  }

  /** Below the cap every waiting caller can pass the check before anyone inserts. */
  lemma {:induction false} PassAll(cfg: Config, s: System, k: nat, passed: set<Caller>, todo: set<Caller>)
    returns (run: seq<Event>)
    requires Building(s, k, passed) && k < cfg.maxPending && todo !! passed
    requires forall c :: c in todo ==> c in s.callers && s.callers[c] == Outside
    ensures Building(Exec(cfg, s, run), k, passed + todo)
    decreases |todo|
  {
    hide Exec, Step, Building, DoCheck;
    if todo == {} {
      run := [];
      ExecNone(cfg, s);
      assert passed + todo == passed;
    } else {
      var c :| c in todo;
      CheckBuilds(cfg, s, c, k, passed);
      var rest := PassAll(cfg, DoCheck(cfg, s, c), k, passed + {c}, todo - {c});
      assert (passed + {c}) + (todo - {c}) == passed + todo;
      run := [EnqueueCheck(c)] + rest;
      CheckFirst(cfg, s, c, rest);
    }
  }

  lemma {:induction false} InsertAll(cfg: Config, s: System, k: nat, passed: set<Caller>) returns (run: seq<Event>)
    requires Building(s, k, passed)
    ensures ActiveCount(Exec(cfg, s, run).sh.jobs) == k + |passed|
    decreases |passed|
  {
    hide Exec, Step, Building, DoInsert, ActiveCount;
    if passed == {} {
      run := [];
      ExecNone(cfg, s);
      CountOfBuilding(s, k, passed);
    } else {
      var c :| c in passed;
      InsertBuilds(s, c, k, passed);
      var rest := InsertAll(cfg, DoInsert(s, c, Name(k), 0.0), k + 1, passed - {c});
      run := [EnqueueInsert(c, Name(k), 0.0)] + rest;
      InsertFirst(cfg, s, c, Name(k), rest);
    }
  }

  lemma ExecEnqueue(cfg: Config, s: System, c: Caller, id: Id)
    ensures Exec(cfg, s, [EnqueueCheck(c), EnqueueInsert(c, id, 0.0), EnqueueSubmit(c), EnqueueRegister(c)])
            == DoRegister(DoSubmit(DoInsert(DoCheck(cfg, s, c), c, id, 0.0), c), c)
  {
    hide Exec, DoCheck, DoInsert, DoSubmit, DoRegister;
    ExecFour(cfg, s, EnqueueCheck(c), EnqueueInsert(c, id, 0.0), EnqueueSubmit(c), EnqueueRegister(c));
  }

  lemma CheckFirst(cfg: Config, s: System, c: Caller, rest: seq<Event>)
    ensures Exec(cfg, s, [EnqueueCheck(c)] + rest) == Exec(cfg, DoCheck(cfg, s, c), rest)
  {
    hide Exec, DoCheck;
    ExecFirst(cfg, s, EnqueueCheck(c), rest);
  }

  lemma InsertFirst(cfg: Config, s: System, c: Caller, id: Id, rest: seq<Event>)
    ensures Exec(cfg, s, [EnqueueInsert(c, id, 0.0)] + rest) == Exec(cfg, DoInsert(s, c, id, 0.0), rest)
  {
    hide Exec, DoInsert;
    ExecFirst(cfg, s, EnqueueInsert(c, id, 0.0), rest);
  }

  lemma ExecFirst(cfg: Config, s: System, e: Event, rest: seq<Event>)
    ensures Exec(cfg, s, [e] + rest) == Exec(cfg, Step(cfg, s, e), rest)
  {
    hide Step;
    ExecAppend(cfg, s, [e], rest);
    ExecOne(cfg, s, [], e);
    assert [] + [e] == [e];
  }

  lemma CapacityReached(cfg: Config, s: System) returns (run: seq<Event>)
    requires Initial(s)
    ensures ActiveCount(Exec(cfg, s, run).sh.jobs) == Capacity(cfg, |s.callers|)
  {
    hide Exec, Building, ActiveCount, AllOutside;
    if cfg.maxPending <= 0 || s.callers == map[] {
      run := [];
      ExecNone(cfg, s);
      NothingBuilt(s);
      CountOfBuilding(s, 0, {});
    } else {
      hide Initial;
      var c :| c in s.callers;
      var fill := FillUp(cfg, s, c, cfg.maxPending - 1);
      var insert := Burst(cfg, Exec(cfg, s, fill), cfg.maxPending - 1);
      run := fill + insert;
      ExecAppend(cfg, s, fill, insert);
      assert |s.callers.Keys| == |s.callers|;
    }
  }

  /** All callers check, and then all insert. */
  lemma Burst(cfg: Config, s: System, k: nat) returns (run: seq<Event>)
    requires Building(s, k, {}) && AllOutside(s) && k < cfg.maxPending
    ensures ActiveCount(Exec(cfg, s, run).sh.jobs) == k + |s.callers.Keys|
  {
    hide Exec, Building, ActiveCount;
    var all := s.callers.Keys;
    var pass := PassAll(cfg, s, k, {}, all);
    assert {} + all == all;
    var insert := InsertAll(cfg, Exec(cfg, s, pass), k, all);
    run := pass + insert;
    ExecAppend(cfg, s, pass, insert);
  }

  /** The most jobs ever active over all runs is exactly the capacity: the bound is kept, and reached. */
  lemma {:induction false} CapacityExact(cfg: Config, s: System)
    requires Initial(s)
    ensures forall run: seq<Event> :: ActiveCount(Exec(cfg, s, run).sh.jobs) <= Capacity(cfg, |s.callers|)
    ensures exists run: seq<Event> :: ActiveCount(Exec(cfg, s, run).sh.jobs) == Capacity(cfg, |s.callers|)
  {
    forall run: seq<Event>
      ensures ActiveCount(Exec(cfg, s, run).sh.jobs) <= Capacity(cfg, |s.callers|)
    {
      AdmissionBound(cfg, s, run);
    }
    var run := CapacityReached(cfg, s);
    assert ActiveCount(Exec(cfg, s, run).sh.jobs) == Capacity(cfg, |s.callers|);
  }

  /**
   When max_pending is a cap: it holds over all runs exactly when it is 0, or when it is
   positive and there is at most one caller of enqueue.
   */
  lemma {:induction false} CapHoldsExactly(cfg: Config, s: System)
    requires Initial(s)
    ensures (forall run: seq<Event> :: ActiveCount(Exec(cfg, s, run).sh.jobs) <= cfg.maxPending)
            <==> cfg.maxPending == 0 || (cfg.maxPending > 0 && |s.callers| <= 1)
  {
    CapacityExact(cfg, s);
    var run: seq<Event> :| ActiveCount(Exec(cfg, s, run).sh.jobs) == Capacity(cfg, |s.callers|);
  }
}
