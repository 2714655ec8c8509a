/** Where the result and the failure of every job come from, over all interleavings of the queue's threads. */
module JobOutcomes {
  import opened Wrappers
  import opened Models
  import opened JobQueue
  import opened JobProtocol

  // ---------- Events that take effect ----------

  /** Event i is the end of the job's own worker call, with this outcome. */
  ghost predicate EndedAt(cfg: Config, s: System, run: seq<Event>, i: nat, id: Id, o: Outcome) {
    i < |run| && run[i] == WorkerEnds(id, o) && At(Exec(cfg, s, run[..i]), id, InWorker)
  }

  /** Event i cancels the job, which is neither succeeded nor failed. */
  ghost predicate CancelledAt(cfg: Config, s: System, run: seq<Event>, i: nat, id: Id, reason: string) {
    && i < |run| && run[i].CancelJob? && run[i].id == id && run[i].reason == reason
    && var m := Exec(cfg, s, run[..i]);
       id in m.sh.jobs && m.sh.jobs[id].status != Succeeded && m.sh.jobs[id].status != Failed
  }

  /** Event i is a timer of the job, which is running. */
  ghost predicate TimedOutAt(cfg: Config, s: System, run: seq<Event>, i: nat, id: Id) {
    && i < |run| && run[i].TimerFires? && run[i].id == id && cfg.timeoutSeconds > 0
    && var m := Exec(cfg, s, run[..i]);
       id in m.sh.jobs && m.sh.jobs[id].status == Running
  }

  // ---------- What one step can write ----------

  /** The failure that one event writes into the job. */
  predicate FailsBy(cfg: Config, m: System, e: Event, id: Id, f: Failure) {
    match e
    case CancelJob(i, reason, _) =>
      i == id && CancelApplies(m.sh, id) && f == CancelFailure(reason)
    case TimerFires(i, _) => i == id && cfg.timeoutSeconds > 0 && IsRunning(m.sh, id) && f == TimeoutFailure()
    case RecordOutcome(i, _) =>
      i == id && id in m.tasks && m.tasks[id].HasOutcome? && m.tasks[id].outcome.Raised?
      && f == FailureOf(m.tasks[id].outcome.error)
    case _ => false
  }

  predicate SucceedsBy(m: System, e: Event, id: Id, v: string) {
    e.RecordOutcome? && e.id == id && id in m.tasks && m.tasks[id] == HasOutcome(Returned(v))
  }

  function ResultOf(m: System, id: Id): Option<string> {
    if id in m.sh.jobs then m.sh.jobs[id].result else None
  }

  function FailureIn(m: System, id: Id): Option<Failure> {
    if id in m.sh.jobs then m.sh.jobs[id].failure else None
  }

  /** One step on the outcome fields of one job. */
  predicate StepWrites(cfg: Config, m: System, t: System, e: Event, id: Id) {
    && (ResultOf(t, id) == ResultOf(m, id) || (ResultOf(t, id).Some? && SucceedsBy(m, e, id, ResultOf(t, id).value)))
    && (FailureIn(t, id) == FailureIn(m, id)
        || (FailureIn(t, id).Some? && FailsBy(cfg, m, e, id, FailureIn(t, id).value)))
  }

  lemma CancelWrites(cfg: Config, m: System, i: Id, reason: string, now: real, id: Id)
    ensures StepWrites(cfg, m, DoCancel(m, i, reason, now), CancelJob(i, reason, now), id)
  {
    hide Bump, CancelFailure;
  }

  lemma TimeoutWrites(cfg: Config, m: System, i: Id, now: real, id: Id)
    ensures StepWrites(cfg, m, DoTimeout(cfg, m, i, now), TimerFires(i, now), id)
  {
    hide Bump, TimeoutFailure;
  }

  lemma RecordWrites(cfg: Config, m: System, i: Id, now: real, id: Id)
    ensures StepWrites(cfg, m, DoRecord(m, i, now), RecordOutcome(i, now), id)
  {
    hide FailureOf, SucceedRegion, FailRegion;
    if i in m.tasks && m.tasks[i].HasOutcome? && i in m.sh.jobs {
      match m.tasks[i].outcome
      case Returned(v) => RegionWrites(m.sh, i, v, TimeoutFailure(), now, id);
      case Raised(e) => RegionWrites(m.sh, i, "", FailureOf(e), now, id);
    }
  }

  /** Each of the two regions writes one field of one record, or nothing. */
  lemma RegionWrites(sh: Shared, i: Id, v: string, f: Failure, now: real, id: Id)
    ensures var sh' := SucceedRegion(sh, i, v);
            && sh'.jobs.Keys == sh.jobs.Keys
            && (id in sh.jobs ==>
                  && sh'.jobs[id].failure == sh.jobs[id].failure
                  && (sh'.jobs[id].result == sh.jobs[id].result || (id == i && sh'.jobs[id].result == Some(v))))
    ensures var sh' := FailRegion(sh, i, f, now);
            && sh'.jobs.Keys == sh.jobs.Keys
            && (id in sh.jobs ==>
                  && sh'.jobs[id].result == sh.jobs[id].result
                  && (sh'.jobs[id].failure == sh.jobs[id].failure || (id == i && sh'.jobs[id].failure == Some(f))))
  {
    hide Bump;
  }

  predicate OutcomeKept(m: System, t: System, id: Id) {
    ResultOf(t, id) == ResultOf(m, id) && FailureIn(t, id) == FailureIn(m, id)
  }

  lemma StartKeepsOutcome(m: System, i: Id, now: real, id: Id)
    ensures OutcomeKept(m, DoStart(m, i, now), id)
  {
  }

  lemma FinishKeepsOutcome(m: System, i: Id, now: real, id: Id)
    ensures OutcomeKept(m, DoFinish(m, i, now), id)
  {
  }

  lemma InsertKeepsOutcome(m: System, c: Caller, i: Id, now: real, id: Id)
    ensures OutcomeKept(m, DoInsert(m, c, i, now), id)
  {
  }

  /** The steps that may write outcome fields are these functions of the state. */
  lemma StepIs(cfg: Config, m: System, e: Event)
    ensures e.CancelJob? ==> Step(cfg, m, e) == DoCancel(m, e.id, e.reason, e.now)
    ensures e.TimerFires? ==> Step(cfg, m, e) == DoTimeout(cfg, m, e.id, e.now)
    ensures e.StartJob? ==> Step(cfg, m, e) == DoStart(m, e.id, e.now)
    ensures e.FinishJob? ==> Step(cfg, m, e) == DoFinish(m, e.id, e.now)
    ensures e.RecordOutcome? ==> Step(cfg, m, e) == DoRecord(m, e.id, e.now)
    ensures e.EnqueueInsert? ==> Step(cfg, m, e) == DoInsert(m, e.c, e.id, e.now)
    ensures e.WorkerEnds? ==> Step(cfg, m, e) == DoEnd(m, e.id, e.outcome)
  {
    hide DoCancel, DoTimeout, DoStart, DoRecord, DoFinish, DoInsert, DoCheck, DoSubmit, DoRegister, DoPick,
         DoArm, DoCall, DoEnd, DoPersist, DoShutdown, DoStop, DoDrop;
  }

  lemma StepOutcomes(cfg: Config, m: System, e: Event, id: Id)
    ensures StepWrites(cfg, m, Step(cfg, m, e), e, id)
  {
    StepIs(cfg, m, e);
    hide Step, StepWrites, DoCancel, DoTimeout, DoStart, DoRecord, DoFinish, DoInsert, DoEnd;
    if e.CancelJob? {
      CancelWrites(cfg, m, e.id, e.reason, e.now, id);
    } else if e.TimerFires? {
      TimeoutWrites(cfg, m, e.id, e.now, id);
    } else if e.StartJob? {
      StartKeepsOutcome(m, e.id, e.now, id);
      SameWrites(cfg, m, Step(cfg, m, e), e, id);
    } else if e.FinishJob? {
      FinishKeepsOutcome(m, e.id, e.now, id);
      SameWrites(cfg, m, Step(cfg, m, e), e, id);
    } else if e.RecordOutcome? {
      RecordWrites(cfg, m, e.id, e.now, id);
    } else if e.EnqueueInsert? {
      InsertKeepsOutcome(m, e.c, e.id, e.now, id);
      SameWrites(cfg, m, Step(cfg, m, e), e, id);
    } else {
      OthersKeepJobs(cfg, m, e);
      SameWrites(cfg, m, Step(cfg, m, e), e, id);
    }
  }

  lemma SameWrites(cfg: Config, m: System, t: System, e: Event, id: Id)
    requires OutcomeKept(m, t, id)
    ensures StepWrites(cfg, m, t, e, id)
  {
    hide ResultOf, FailureIn, FailsBy, SucceedsBy;
  }

  /** No outcome is in hand after a step that was not in hand before. */
  predicate NoNewOutcome(m: System, t: System, id: Id) {
    id in t.tasks && t.tasks[id].HasOutcome? ==> id in m.tasks && m.tasks[id] == t.tasks[id]
  }

  lemma EnqueueNoOutcome(cfg: Config, m: System, c: Caller, i: Id, now: real, id: Id)
    ensures NoNewOutcome(m, DoCheck(cfg, m, c), id) && NoNewOutcome(m, DoInsert(m, c, i, now), id)
    ensures NoNewOutcome(m, DoSubmit(m, c), id) && NoNewOutcome(m, DoRegister(m, c), id)
  {
    hide InsertRegion, RegisterRegion, CheckRegion;
  }

  lemma CancelNoOutcome(cfg: Config, m: System, i: Id, reason: string, now: real, id: Id)
    ensures NoNewOutcome(m, DoCancel(m, i, reason, now), id) && NoNewOutcome(m, DoTimeout(cfg, m, i, now), id)
  {
    hide CancelRegion, TimeoutRegion;
  }

  lemma BodyNoOutcome(m: System, i: Id, now: real, id: Id)
    ensures NoNewOutcome(m, DoStart(m, i, now), id) && NoNewOutcome(m, DoFinish(m, i, now), id)
  {
    hide StartRegion, FinallyRegion;
  }

  lemma MoveNoOutcome(cfg: Config, m: System, i: Id, id: Id)
    ensures NoNewOutcome(m, DoPick(m, i), id) && NoNewOutcome(m, DoArm(cfg, m, i), id)
  {
    hide ArmRegion;
  }

  lemma RecordNoOutcome(m: System, i: Id, now: real, id: Id)
    ensures NoNewOutcome(m, DoRecord(m, i, now), id) && NoNewOutcome(m, DoCall(m, i), id)
  {
    hide SucceedRegion, FailRegion, FailureOf;
  }

  lemma RestNoOutcome(m: System, i: Id, id: Id)
    ensures NoNewOutcome(m, DoPersist(m, i), id) && NoNewOutcome(m, DoShutdown(m), id)
    ensures NoNewOutcome(m, DoStop(m), id) && NoNewOutcome(m, DoDrop(m, i), id)
  {
    hide ShutdownRegion;
  }

  lemma OthersGiveNoOutcome(cfg: Config, m: System, e: Event, id: Id)
    requires !e.WorkerEnds?
    ensures NoNewOutcome(m, Step(cfg, m, e), id)
  {
    hide NoNewOutcome, DoCheck, DoInsert, DoSubmit, DoRegister, DoCancel, DoTimeout, DoPick, DoStart, DoArm, DoCall,
         DoEnd, DoRecord, DoFinish, DoPersist, DoShutdown, DoStop, DoDrop;
    match e
    case EnqueueCheck(c) => EnqueueNoOutcome(cfg, m, c, id, 0.0, id);
    case EnqueueInsert(c, i, now) => EnqueueNoOutcome(cfg, m, c, i, now, id);
    case EnqueueSubmit(c) => EnqueueNoOutcome(cfg, m, c, id, 0.0, id);
    case EnqueueRegister(c) => EnqueueNoOutcome(cfg, m, c, id, 0.0, id);
    case CancelJob(i, reason, now) => CancelNoOutcome(cfg, m, i, reason, now, id);
    case TimerFires(i, now) => CancelNoOutcome(cfg, m, i, "", now, id);
    case Pick(i) => MoveNoOutcome(cfg, m, i, id);
    case StartJob(i, now) => BodyNoOutcome(m, i, now, id);
    case ArmTimer(i) => MoveNoOutcome(cfg, m, i, id);
    case CallWorker(i) => RecordNoOutcome(m, i, 0.0, id);
    case WorkerEnds(i, o) =>
    case RecordOutcome(i, now) => RecordNoOutcome(m, i, now, id);
    case FinishJob(i, now) => BodyNoOutcome(m, i, now, id);
    case Persist(i) => RestNoOutcome(m, i, id);
    case BeginShutdown => RestNoOutcome(m, id, id);
    case StopExecutor => RestNoOutcome(m, id, id);
    case DropPending(i) => RestNoOutcome(m, i, id);
  }

  /** An outcome is in hand only since the worker call ended with it. */
  lemma OutcomeArrives(cfg: Config, m: System, e: Event, id: Id, o: Outcome)
    requires var t := Step(cfg, m, e); id in t.tasks && t.tasks[id] == HasOutcome(o)
    ensures (id in m.tasks && m.tasks[id] == HasOutcome(o)) || (e == WorkerEnds(id, o) && At(m, id, InWorker))
  {
    StepIs(cfg, m, e);
    hide Step, DoCancel, DoTimeout, DoStart, DoRecord, DoFinish, DoInsert;
    if !e.WorkerEnds? {
      OthersGiveNoOutcome(cfg, m, e, id);
    }
  }

  // ---------- Every run ----------

  lemma PrefixKept(cfg: Config, s: System, front: seq<Event>, e: Event, i: nat)
    requires i <= |front|
    ensures Exec(cfg, s, (front + [e])[..i]) == Exec(cfg, s, front[..i])
  {
    assert (front + [e])[..i] == front[..i];
  }

  ghost predicate EndedWith(cfg: Config, s: System, run: seq<Event>, id: Id, o: Outcome) {
    exists i: nat :: EndedAt(cfg, s, run, i, id, o)
  }

  /** What may have failed the job: a cancel, a timer, or its own worker call. */
  ghost predicate FailureSource(cfg: Config, s: System, run: seq<Event>, id: Id, f: Failure) {
    || (exists i: nat :: CancelledAt(cfg, s, run, i, id, f.message) && f == CancelFailure(f.message))
    || (exists i: nat :: TimedOutAt(cfg, s, run, i, id) && f == TimeoutFailure())
    || (exists e :: EndedWith(cfg, s, run, id, Raised(e)) && f == FailureOf(e))
  }

  lemma EndedLater(cfg: Config, s: System, front: seq<Event>, e: Event, id: Id, o: Outcome)
    requires EndedWith(cfg, s, front, id, o)
    ensures EndedWith(cfg, s, front + [e], id, o)
  {
    var i: nat :| EndedAt(cfg, s, front, i, id, o);
    PrefixKept(cfg, s, front, e, i);
    assert EndedAt(cfg, s, front + [e], i, id, o);
  }

  lemma CancelLater(cfg: Config, s: System, front: seq<Event>, e: Event, i: nat, id: Id, reason: string)
    requires CancelledAt(cfg, s, front, i, id, reason)
    ensures CancelledAt(cfg, s, front + [e], i, id, reason)
  {
    PrefixKept(cfg, s, front, e, i);
    hide Exec;
  }

  lemma TimeoutLater(cfg: Config, s: System, front: seq<Event>, e: Event, i: nat, id: Id)
    requires TimedOutAt(cfg, s, front, i, id)
    ensures TimedOutAt(cfg, s, front + [e], i, id)
  {
    PrefixKept(cfg, s, front, e, i);
    hide Exec;
  }

  lemma SourceLater(cfg: Config, s: System, front: seq<Event>, e: Event, id: Id, f: Failure)
    requires FailureSource(cfg, s, front, id, f)
    ensures FailureSource(cfg, s, front + [e], id, f)
  {
    hide Exec, CancelledAt, TimedOutAt, EndedWith, CancelFailure, TimeoutFailure, FailureOf;
    if i: nat :| CancelledAt(cfg, s, front, i, id, f.message) && f == CancelFailure(f.message) {
      CancelLater(cfg, s, front, e, i, id, f.message);
    } else if i: nat :| TimedOutAt(cfg, s, front, i, id) && f == TimeoutFailure() {
      TimeoutLater(cfg, s, front, e, i, id);
    } else {
      var x :| EndedWith(cfg, s, front, id, Raised(x)) && f == FailureOf(x);
      EndedLater(cfg, s, front, e, id, Raised(x));
    }
  }

  ghost predicate Sourced(cfg: Config, s: System, run: seq<Event>, id: Id) {
    var t := Exec(cfg, s, run);
    && (ResultOf(t, id).Some? ==> EndedWith(cfg, s, run, id, Returned(ResultOf(t, id).value)))
    && (FailureIn(t, id).Some? ==> FailureSource(cfg, s, run, id, FailureIn(t, id).value))
    && (id in t.tasks && t.tasks[id].HasOutcome? ==> EndedWith(cfg, s, run, id, t.tasks[id].outcome))
  }

  lemma CancelNow(cfg: Config, s: System, front: seq<Event>, e: Event, id: Id, f: Failure)
    requires e.CancelJob? && FailsBy(cfg, Exec(cfg, s, front), e, id, f)
    ensures CancelledAt(cfg, s, front + [e], |front|, id, f.message) && f == CancelFailure(f.message)
  {
    assert (front + [e])[..|front|] == front;
    hide Exec;
  }

  lemma TimeoutNow(cfg: Config, s: System, front: seq<Event>, e: Event, id: Id, f: Failure)
    requires e.TimerFires? && FailsBy(cfg, Exec(cfg, s, front), e, id, f)
    ensures TimedOutAt(cfg, s, front + [e], |front|, id) && f == TimeoutFailure()
  {
    assert (front + [e])[..|front|] == front;
    hide Exec;
  }

  lemma ErrorNow(cfg: Config, s: System, front: seq<Event>, e: Event, id: Id, f: Failure) returns (x: WorkerError)
    requires Sourced(cfg, s, front, id) && e.RecordOutcome? && FailsBy(cfg, Exec(cfg, s, front), e, id, f)
    ensures EndedWith(cfg, s, front + [e], id, Raised(x)) && f == FailureOf(x)
  {
    hide Exec, EndedWith, FailureOf, FailureSource;
    x := Exec(cfg, s, front).tasks[id].outcome.error;
    EndedLater(cfg, s, front, e, id, Raised(x));
  }

  lemma NewFailure(cfg: Config, s: System, front: seq<Event>, e: Event, id: Id, f: Failure)
    requires Sourced(cfg, s, front, id) && FailsBy(cfg, Exec(cfg, s, front), e, id, f)
    ensures FailureSource(cfg, s, front + [e], id, f)
  {
    assert e.CancelJob? || e.TimerFires? || e.RecordOutcome?;
    hide Exec, EndedWith, FailsBy, Sourced, CancelledAt, TimedOutAt, CancelFailure, TimeoutFailure, FailureOf;
    if e.CancelJob? {
      CancelNow(cfg, s, front, e, id, f);
    } else if e.TimerFires? {
      TimeoutNow(cfg, s, front, e, id, f);
    } else {
      var x := ErrorNow(cfg, s, front, e, id, f);
    }
  }

  lemma {:induction false} RunSourced(cfg: Config, s: System, run: seq<Event>, id: Id)
    requires Initial(s)
    ensures Sourced(cfg, s, run, id)
    decreases |run|
  {
    if run != [] {
      var front, e := run[..|run| - 1], run[|run| - 1];
      assert run == front + [e];
      RunSourced(cfg, s, front, id);
      var m, t := Exec(cfg, s, front), Exec(cfg, s, run);
      assert t == Step(cfg, m, e);
      StepOutcomes(cfg, m, e, id);
      StepSourced(cfg, s, front, e, id);
    }
  }

  lemma StepSourced(cfg: Config, s: System, front: seq<Event>, e: Event, id: Id)
    requires Sourced(cfg, s, front, id)
    requires StepWrites(cfg, Exec(cfg, s, front), Exec(cfg, s, front + [e]), e, id)
    requires Exec(cfg, s, front + [e]) == Step(cfg, Exec(cfg, s, front), e)
    ensures Sourced(cfg, s, front + [e], id)
  {
    hide Exec, Step, FailsBy, FailureSource, EndedWith;
    var run := front + [e];
    var m, t := Exec(cfg, s, front), Exec(cfg, s, run);
    if ResultOf(t, id).Some? {
      EndedLater(cfg, s, front, e, id, Returned(ResultOf(t, id).value));
    }
    if FailureIn(t, id).Some? {
      if FailureIn(t, id) == FailureIn(m, id) {
        SourceLater(cfg, s, front, e, id, FailureIn(t, id).value);
      } else {
        NewFailure(cfg, s, front, e, id, FailureIn(t, id).value);
      }
    }
    if id in t.tasks && t.tasks[id].HasOutcome? {
      OutcomeArrives(cfg, m, e, id, t.tasks[id].outcome);
      if id in m.tasks && m.tasks[id] == t.tasks[id] {
        EndedLater(cfg, s, front, e, id, t.tasks[id].outcome);
      } else {
        EndsNow(cfg, s, front, id, t.tasks[id].outcome);
      }
    }
  }

  lemma EndsNow(cfg: Config, s: System, front: seq<Event>, id: Id, o: Outcome)
    requires At(Exec(cfg, s, front), id, InWorker)
    ensures EndedWith(cfg, s, front + [WorkerEnds(id, o)], id, o)
  {
    var run := front + [WorkerEnds(id, o)];
    assert run[..|front|] == front;
    assert EndedAt(cfg, s, run, |front|, id, o);
  }

  // ---------- At most one end per job ----------

  function Rank(t: Task): nat {
    match t
    case NotSubmitted => 0
    case Pending => 1
    case FutureCancelled => 2
    case Entered => 2
    case Begun => 3
    case Armed => 4
    case InWorker => 5
    case HasOutcome(_) => 6
    case Recorded => 7
    case Done => 8
  }

  predicate Climbs(m: System, t: System, id: Id) {
    id in m.tasks ==> id in t.tasks && Rank(t.tasks[id]) >= Rank(m.tasks[id])
  }

  lemma MovesClimb(cfg: Config, m: System, i: Id, o: Outcome, id: Id)
    ensures Climbs(m, DoPick(m, i), id) && Climbs(m, DoArm(cfg, m, i), id)
    ensures Climbs(m, DoCall(m, i), id) && Climbs(m, DoEnd(m, i, o), id) && Climbs(m, DoDrop(m, i), id)
  {
  }

  lemma BodyClimbs(m: System, i: Id, now: real, id: Id)
    ensures Climbs(m, DoStart(m, i, now), id) && Climbs(m, DoFinish(m, i, now), id)
  {
    hide StartRegion, FinallyRegion;
  }

  lemma RecordClimbs(m: System, i: Id, now: real, id: Id)
    ensures Climbs(m, DoRecord(m, i, now), id)
  {
    hide SucceedRegion, FailRegion, FailureOf;
  }

  lemma CancelClimbs(cfg: Config, m: System, i: Id, reason: string, now: real, id: Id)
    ensures Climbs(m, DoCancel(m, i, reason, now), id) && Climbs(m, DoTimeout(cfg, m, i, now), id)
  {
    hide CancelRegion, TimeoutRegion;
  }

  lemma EnqueueClimbs(m: System, c: Caller, i: Id, now: real, id: Id)
    requires JobOk(m, id) && CallerOk(m, c)
    ensures Climbs(m, DoInsert(m, c, i, now), id) && Climbs(m, DoSubmit(m, c), id)
  {
  }

  lemma RestClimbs(cfg: Config, m: System, c: Caller, i: Id, id: Id)
    ensures Climbs(m, DoCheck(cfg, m, c), id) && Climbs(m, DoRegister(m, c), id)
    ensures Climbs(m, DoPersist(m, i), id) && Climbs(m, DoShutdown(m), id) && Climbs(m, DoStop(m), id)
  {
  }

  predicate IsEnqueue(e: Event) {
    e.EnqueueCheck? || e.EnqueueInsert? || e.EnqueueSubmit? || e.EnqueueRegister?
  }

  lemma EnqueueStepClimbs(cfg: Config, m: System, e: Event, id: Id)
    requires JobOk(m, id) && IsEnqueue(e) && CallerOk(m, e.c)
    ensures Climbs(m, Step(cfg, m, e), id)
  {
    hide Climbs, Rank, JobOk, CallerOk, DoCheck, DoInsert, DoSubmit, DoRegister, DoCancel, DoTimeout, DoPick, DoStart,
         DoArm, DoCall, DoEnd, DoRecord, DoFinish, DoPersist, DoShutdown, DoStop, DoDrop;
    match e
    case EnqueueCheck(c) => RestClimbs(cfg, m, c, id, id);
    case EnqueueInsert(c, i, now) => EnqueueClimbs(m, c, i, now, id);
    case EnqueueSubmit(c) => EnqueueClimbs(m, c, id, 0.0, id);
    case EnqueueRegister(c) => RestClimbs(cfg, m, c, id, id);
  }

  lemma OtherStepClimbs(cfg: Config, m: System, e: Event, id: Id)
    requires !IsEnqueue(e)
    ensures Climbs(m, Step(cfg, m, e), id)
  {
    hide Climbs, Rank, DoCancel, DoTimeout, DoPick, DoStart, DoArm, DoCall, DoEnd, DoRecord, DoFinish, DoPersist,
         DoShutdown, DoStop, DoDrop;
    match e
    case CancelJob(i, reason, now) => CancelClimbs(cfg, m, i, reason, now, id);
    case TimerFires(i, now) => CancelClimbs(cfg, m, i, "", now, id);
    case StartJob(i, now) => BodyClimbs(m, i, now, id);
    case FinishJob(i, now) => BodyClimbs(m, i, now, id);
    case RecordOutcome(i, now) => RecordClimbs(m, i, now, id);
    case WorkerEnds(i, o) => MovesClimb(cfg, m, i, o, id);
    case Pick(i) => MovesClimb(cfg, m, i, Returned(""), id);
    case ArmTimer(i) => MovesClimb(cfg, m, i, Returned(""), id);
    case CallWorker(i) => MovesClimb(cfg, m, i, Returned(""), id);
    case DropPending(i) => MovesClimb(cfg, m, i, Returned(""), id);
    case Persist(i) => RestClimbs(cfg, m, 0, i, id);
    case BeginShutdown => RestClimbs(cfg, m, 0, id, id);
    case StopExecutor => RestClimbs(cfg, m, 0, id, id);
  }

  /** No step takes a task back. */
  lemma StepClimbs(cfg: Config, m: System, e: Event, id: Id)
    requires JobsInv(m) && CallersInv(m)
    ensures Climbs(m, Step(cfg, m, e), id)
  {
    assert JobOk(m, id);
    hide Climbs, JobOk, Step;
    if IsEnqueue(e) {
      assert CallerOk(m, e.c);
      EnqueueStepClimbs(cfg, m, e, id);
    } else {
      OtherStepClimbs(cfg, m, e, id);
    }
  }

  lemma {:induction false} RunClimbs(cfg: Config, s: System, run: seq<Event>, k: nat, id: Id)
    requires Initial(s) && k <= |run| && id in Exec(cfg, s, run[..k]).tasks
    ensures id in Exec(cfg, s, run).tasks
            && Rank(Exec(cfg, s, run).tasks[id]) >= Rank(Exec(cfg, s, run[..k]).tasks[id])
    decreases |run|
  {
    if k == |run| {
      assert run[..k] == run;
    } else {
      var front := run[..|run| - 1];
      assert front[..k] == run[..k];
      RunClimbs(cfg, s, front, k, id);
      InitialInv(s);
      ExecInv(cfg, s, front);
      StepClimbs(cfg, Exec(cfg, s, front), run[|run| - 1], id);
    }
  }

  /** The worker call of a job ends once. */
  lemma {:induction false} EndsOnce(cfg: Config, s: System, run: seq<Event>, i: nat, j: nat, id: Id,
                                    o: Outcome, p: Outcome)
    requires Initial(s) && EndedAt(cfg, s, run, i, id, o) && EndedAt(cfg, s, run, j, id, p)
    ensures i == j && o == p
  {
    if i < j {
      EndsBefore(cfg, s, run, i, j, id, o);
    } else if j < i {
      EndsBefore(cfg, s, run, j, i, id, p);
    }
  }

  lemma EndsBefore(cfg: Config, s: System, run: seq<Event>, i: nat, j: nat, id: Id, o: Outcome)
    requires Initial(s) && EndedAt(cfg, s, run, i, id, o) && i < j <= |run|
    ensures !At(Exec(cfg, s, run[..j]), id, InWorker)
  {
    hide Exec, EndedAt, Initial;
    assert run[..j][..i + 1] == run[..i + 1];
    EndIsSeen(cfg, s, run, i, id, o);
    RunClimbs(cfg, s, run[..j], i + 1, id);
  }

  lemma EndIsSeen(cfg: Config, s: System, run: seq<Event>, i: nat, id: Id, o: Outcome)
    requires EndedAt(cfg, s, run, i, id, o)
    ensures var t := Exec(cfg, s, run[..i + 1]); id in t.tasks && t.tasks[id] == HasOutcome(o)
  {
    assert run[..i + 1][..i] == run[..i] && run[..i + 1][i] == run[i];
    assert Exec(cfg, s, run[..i + 1]) == Step(cfg, Exec(cfg, s, run[..i]), WorkerEnds(id, o));
    StepIs(cfg, Exec(cfg, s, run[..i]), WorkerEnds(id, o));
    hide Exec, Step;
  }

  /**
   Where every outcome comes from. A SUCCEEDED job's result is the value its own worker call
   returned; a FAILED job's failure is the cancel reason, the timeout, or the error its own
   worker call raised under the code of its handler; and that call ended at most once.
   */
  lemma {:induction false} OutcomesAreOwn(cfg: Config, s: System, run: seq<Event>, id: Id)
    requires Initial(s) && id in Exec(cfg, s, run).sh.jobs
    ensures var r := Exec(cfg, s, run).sh.jobs[id];
            && (r.status == Succeeded ==>
                  r.result.Some? && exists i: nat :: EndedAt(cfg, s, run, i, id, Returned(r.result.value)))
            && (r.status == Failed ==>
                  && r.failure.Some?
                  && var f := r.failure.value;
                     || (exists i: nat :: CancelledAt(cfg, s, run, i, id, f.message)
                                          && f.code == Cancelled && f.error == f.message)
                     || (exists i: nat :: TimedOutAt(cfg, s, run, i, id)
                                          && f.code == TimedOut && f.message == "Job exceeded timeout")
                     || (exists e :: EndedWith(cfg, s, run, id, Raised(e)) && f == FailureOf(e)))
    ensures forall i: nat, j: nat, o, p ::
              EndedAt(cfg, s, run, i, id, o) && EndedAt(cfg, s, run, j, id, p) ==> i == j && o == p
  {
    ReachableJobs(cfg, s, run, id);
    RunSourced(cfg, s, run, id);
    hide Exec, EndedAt, CancelledAt, TimedOutAt, FailureOf;
    forall i: nat, j: nat, o, p | EndedAt(cfg, s, run, i, id, o) && EndedAt(cfg, s, run, j, id, p)
      ensures i == j && o == p
    {
      EndsOnce(cfg, s, run, i, j, id, o, p);
    }
  }
}
