/**
 All interleavings of JobQueue's threads. A run is any sequence of events; an event that
 is not enabled leaves the state as it is, so the theorems range over every schedule.
 */
module JobProtocol {
  import opened Wrappers
  import opened Models
  import opened JobQueue

  type Caller = nat

  /** Where a caller of enqueue stands. */
  datatype CallerPhase = Outside | PastCheck | PastInsert(id: Id) | PastSubmit(id: Id)

  datatype Outcome = Returned(result: string) | Raised(error: WorkerError)

  /** The executor's side of one job: its future and the program point of _run_job. */
  datatype Task =
    | NotSubmitted
    | Pending
    | FutureCancelled
    | Entered
    | Begun
    | Armed
    | InWorker
    | HasOutcome(outcome: Outcome)
    | Recorded
    | Done

  datatype System = System(
    sh: Shared,
    tasks: map<Id, Task>,
    callers: map<Caller, CallerPhase>,
    calls: multiset<Id>,    // invocations of worker_fn
    owed: multiset<Id>,     // failures recorded whose store.add is still to come
    stored: multiset<Id>,   // store.add calls made
    executorDown: bool)     // executor.shutdown has taken effect

  datatype Config = Config(maxPending: int, timeoutSeconds: int)

  datatype Event =
    | EnqueueCheck(c: Caller)
    | EnqueueInsert(c: Caller, id: Id, now: real)
    | EnqueueSubmit(c: Caller)
    | EnqueueRegister(c: Caller)
    | CancelJob(id: Id, reason: string, now: real)
    | TimerFires(id: Id, now: real)
    | Pick(id: Id)
    | StartJob(id: Id, now: real)
    | ArmTimer(id: Id)
    | CallWorker(id: Id)
    | WorkerEnds(id: Id, outcome: Outcome)
    | RecordOutcome(id: Id, now: real)
    | FinishJob(id: Id, now: real)
    | Persist(id: Id)
    | BeginShutdown
    | StopExecutor
    | DropPending(id: Id)

  predicate At(s: System, id: Id, t: Task) {
    id in s.tasks && id in s.sh.jobs && s.tasks[id] == t
  }

  function Move(s: System, id: Id, t: Task): System {
    s.(tasks := s.tasks[id := t])
  }

  /** future.cancel() as called inside a lock region: it takes effect on a registered future that is still pending. */
  function CancelFuture(s: System, id: Id): System {
    if id in s.sh.futures && At(s, id, Pending) then Move(s, id, FutureCancelled) else s
  }

  ghost function DoCheck(cfg: Config, s: System, c: Caller): System {
    if c in s.callers && s.callers[c] == Outside && CheckRegion(s.sh, cfg.maxPending).None?
    then s.(callers := s.callers[c := PastCheck])
    else s
  }

  /** uuid4 ids are taken to be fresh. */
  function DoInsert(s: System, c: Caller, id: Id, now: real): System {
    if c in s.callers && s.callers[c] == PastCheck && id !in s.sh.jobs
    then s.(sh := InsertRegion(s.sh, id, now), tasks := s.tasks[id := NotSubmitted],
            callers := s.callers[c := PastInsert(id)])
    else s
  }

  /**
   executor.submit raises once the executor is down, and then the job stays queued for ever.
   The queue's own flag does not stop a caller that is past the check.
   */
  function DoSubmit(s: System, c: Caller): System {
    if c in s.callers && s.callers[c].PastInsert? then
      var id := s.callers[c].id;
      if s.executorDown then s.(callers := s.callers[c := Outside])
      else Move(s, id, Pending).(callers := s.callers[c := PastSubmit(id)])
    else s
  }

  function DoRegister(s: System, c: Caller): System {
    if c in s.callers && s.callers[c].PastSubmit?
    then s.(sh := RegisterRegion(s.sh, s.callers[c].id), callers := s.callers[c := Outside])
    else s
  }

  function DoCancel(s: System, id: Id, reason: string, now: real): System {
    if CancelApplies(s.sh, id)
    then CancelFuture(s, id).(sh := CancelRegion(s.sh, id, reason, now), owed := s.owed + multiset{id})
    else s
  }

  /** A timer may fire at any time once armed, also while it is being cancelled. */
  function DoTimeout(cfg: Config, s: System, id: Id, now: real): System {
    if cfg.timeoutSeconds > 0 && IsRunning(s.sh, id)
    then CancelFuture(s, id).(sh := TimeoutRegion(s.sh, id, now), owed := s.owed + multiset{id})
    else s
  }

  function DoStart(s: System, id: Id, now: real): System {
    if At(s, id, Entered) then
      if StartApplies(s.sh, id) then Move(s, id, Begun).(sh := StartRegion(s.sh, id, now))
      else Move(s, id, Done)
    else s
  }

  function DoArm(cfg: Config, s: System, id: Id): System {
    if At(s, id, Begun) then
      Move(s, id, Armed).(sh := if cfg.timeoutSeconds > 0 then ArmRegion(s.sh, id) else s.sh)
    else s
  }

  function DoSucceed(s: System, id: Id, v: string): System {
    Move(s, id, Recorded).(sh := SucceedRegion(s.sh, id, v))
  }

  function DoFail(s: System, id: Id, f: Failure, now: real): System {
    Move(s, id, Recorded).(
      sh := FailRegion(s.sh, id, f, now),
      owed := if IsRunning(s.sh, id) then s.owed + multiset{id} else s.owed)
  }

  function DoRecord(s: System, id: Id, now: real): System {
    if id in s.tasks && s.tasks[id].HasOutcome? && id in s.sh.jobs then
      match s.tasks[id].outcome
      case Returned(v) => DoSucceed(s, id, v)
      case Raised(e) => DoFail(s, id, FailureOf(e), now)
    else s
  }

  function DoPick(s: System, id: Id): System {
    if At(s, id, Pending) then Move(s, id, Entered) else s
  }

  function DoCall(s: System, id: Id): System {
    if At(s, id, Armed) then Move(s, id, InWorker).(calls := s.calls + multiset{id}) else s
  }

  function DoEnd(s: System, id: Id, o: Outcome): System {
    if At(s, id, InWorker) then Move(s, id, HasOutcome(o)) else s
  }

  function DoFinish(s: System, id: Id, now: real): System {
    if At(s, id, Recorded) then Move(s, id, Done).(sh := FinallyRegion(s.sh, id, now)) else s
  }

  /** store.add, outside every lock region. */
  function DoPersist(s: System, id: Id): System {
    if id in s.owed then s.(owed := s.owed - multiset{id}, stored := s.stored + multiset{id}) else s
  }

  function DoShutdown(s: System): System {
    s.(sh := ShutdownRegion(s.sh))
  }

  /** executor.shutdown, which the queue calls only after it has set its flag and left the lock. */
  function DoStop(s: System): System {
    if s.sh.shutdown then s.(executorDown := true) else s
  }

  /** cancel_futures: the executor drops what it has not started. */
  function DoDrop(s: System, id: Id): System {
    if s.executorDown && At(s, id, Pending) then Move(s, id, FutureCancelled) else s
  }

  ghost function Step(cfg: Config, s: System, e: Event): System {
    match e
    case EnqueueCheck(c) => DoCheck(cfg, s, c)
    case EnqueueInsert(c, id, now) => DoInsert(s, c, id, now)
    case EnqueueSubmit(c) => DoSubmit(s, c)
    case EnqueueRegister(c) => DoRegister(s, c)
    case CancelJob(id, reason, now) => DoCancel(s, id, reason, now)
    case TimerFires(id, now) => DoTimeout(cfg, s, id, now)
    case Pick(id) => DoPick(s, id)
    case StartJob(id, now) => DoStart(s, id, now)
    case ArmTimer(id) => DoArm(cfg, s, id)
    case CallWorker(id) => DoCall(s, id)
    case WorkerEnds(id, o) => DoEnd(s, id, o)
    case RecordOutcome(id, now) => DoRecord(s, id, now)
    case FinishJob(id, now) => DoFinish(s, id, now)
    case Persist(id) => DoPersist(s, id)
    case BeginShutdown => DoShutdown(s)
    case StopExecutor => DoStop(s)
    case DropPending(id) => DoDrop(s, id)
  }

  ghost function Exec(cfg: Config, s: System, run: seq<Event>): System
    decreases |run|
  {
    if run == [] then s else Step(cfg, Exec(cfg, s, run[..|run| - 1]), run[|run| - 1])
  }

  /** No jobs, and every caller outside enqueue. */
  predicate Initial(s: System) {
    && s.sh == Empty()
    && s.tasks == map[] && s.calls == multiset{} && s.owed == multiset{} && s.stored == multiset{}
    && !s.executorDown
    && forall c :: c in s.callers ==> s.callers[c] == Outside
  }

  // ---------- The invariant ----------

  predicate Early(t: Task) {
    t.NotSubmitted? || t.Pending? || t.FutureCancelled? || t.Entered?
  }

  /** One record against its task and its worker calls. */
  predicate Coherent(r: JobRecord, t: Task, calls: nat) {
    && (r.status == Queued ==> Early(t))
    && (r.startedAt.None? <==> Early(t) || (t.Done? && calls == 0))
    && (Early(t) ==> calls == 0 && (r.status == Queued || r.status == Failed))
    && (t.Begun? || t.Armed? ==> calls == 0 && (r.status == Running || r.status == Failed))
    && (t.InWorker? || t.HasOutcome? ==> calls == 1 && (r.status == Running || r.status == Failed))
    && (t.Recorded? ==> calls == 1 && Terminal(r))
    && (t.Done? ==> calls <= 1 && Terminal(r))
    && (t.Done? && calls == 0 ==> r.status == Failed)
    && (r.result.Some? <==> r.status == Succeeded)
    && (r.failure.Some? <==> r.status == Failed)
    && (r.status == Failed ==> r.finishedAt.Some?)
    && (r.status == Queued || r.status == Running ==> r.finishedAt.None?)
  }

  function FailureIs(c: ErrorCode): JobRecord -> bool {
    (r: JobRecord) => FailedWith(c, r)
  }

  function CountOf(counts: map<ErrorCode, nat>, c: ErrorCode): nat {
    if c in counts then counts[c] else 0
  }

  /**
   Everything the invariant says about one id: record, task and worker calls agree, and a
   failure has been handed to the store exactly once, or is about to be.
   */
  predicate JobOk(s: System, id: Id) {
    && (id in s.tasks <==> id in s.sh.jobs)
    && (id in s.sh.jobs && id in s.tasks ==> Coherent(s.sh.jobs[id], s.tasks[id], s.calls[id]))
    && (id !in s.sh.jobs ==> s.calls[id] == 0)
    && s.owed[id] + s.stored[id] == if id in s.sh.jobs && s.sh.jobs[id].status == Failed then 1 else 0
  }

  ghost predicate JobsInv(s: System) {
    forall id :: JobOk(s, id)
  }

  /** The counter of c is the number of FAILED jobs with code c. */
  ghost predicate CountExact(sh: Shared, c: ErrorCode) {
    CountOf(sh.failureCounts, c) == |Having(sh.jobs, FailureIs(c))|
  }

  ghost predicate CountsExact(sh: Shared) {
    forall c :: CountExact(sh, c)
  }

  /** A caller between insert and submit holds a job that no thread has yet, and no other caller holds it. */
  predicate CallerOk(s: System, c: Caller) {
    c in s.callers && s.callers[c].PastInsert? ==> At(s, s.callers[c].id, NotSubmitted)
  }

  predicate CallersApart(s: System, c: Caller, d: Caller) {
    c in s.callers && d in s.callers && c != d && s.callers[c].PastInsert? && s.callers[d].PastInsert?
    ==> s.callers[c].id != s.callers[d].id
  }

  ghost predicate CallersInv(s: System) {
    && (forall c :: CallerOk(s, c))
    && (forall c, d :: CallersApart(s, c, d))
  }

  ghost predicate Inv(s: System) {
    JobsInv(s) && CountsExact(s.sh) && CallersInv(s)
  }

  lemma InitialInv(s: System)
    requires Initial(s)
    ensures Inv(s)
  {
    forall c
      ensures CountExact(s.sh, c)
    {
      assert Having(s.sh.jobs, FailureIs(c)) == {};
    }
  }

  // ---------- Preservation, one id at a time ----------

  lemma InsertOk(s: System, c: Caller, id: Id, now: real, j: Id)
    requires JobOk(s, j)
    ensures JobOk(DoInsert(s, c, id, now), j)
  {
  }

  lemma SubmitOk(s: System, c: Caller, j: Id)
    requires JobOk(s, j) && CallerOk(s, c)
    ensures JobOk(DoSubmit(s, c), j)
  {
  }

  lemma CancelOk(s: System, id: Id, reason: string, now: real, j: Id)
    requires JobOk(s, j)
    ensures JobOk(DoCancel(s, id, reason, now), j)
  {
    hide Bump, CancelFailure;
    if CancelApplies(s.sh, id) && j != id {
      assert DoCancel(s, id, reason, now).sh.jobs[id].status == Failed;
    }
  }

  lemma TimeoutOk(cfg: Config, s: System, id: Id, now: real, j: Id)
    requires JobOk(s, j)
    ensures JobOk(DoTimeout(cfg, s, id, now), j)
  {
  }

  lemma StartOk(s: System, id: Id, now: real, j: Id)
    requires JobOk(s, j)
    ensures JobOk(DoStart(s, id, now), j)
  {
  }

  lemma RecordOk(s: System, id: Id, now: real, j: Id)
    requires JobOk(s, j)
    ensures JobOk(DoRecord(s, id, now), j)
  {
    hide JobOk, FailureOf, DoSucceed, DoFail;
    if id in s.tasks && s.tasks[id].HasOutcome? && id in s.sh.jobs {
      match s.tasks[id].outcome
      case Returned(v) => SucceedOk(s, id, v, j);
      case Raised(e) => FailOk(s, id, FailureOf(e), now, j);
    }
  }

  lemma SucceedOk(s: System, id: Id, v: string, j: Id)
    requires JobOk(s, j) && id in s.tasks && s.tasks[id].HasOutcome? && id in s.sh.jobs
    ensures JobOk(DoSucceed(s, id, v), j)
  {
  }

  lemma FailOk(s: System, id: Id, f: Failure, now: real, j: Id)
    requires JobOk(s, j) && id in s.tasks && s.tasks[id].HasOutcome? && id in s.sh.jobs
    ensures JobOk(DoFail(s, id, f, now), j)
  {
    hide Bump;
  }

  lemma FinishOk(s: System, id: Id, now: real, j: Id)
    requires JobOk(s, j)
    ensures JobOk(DoFinish(s, id, now), j)
  {
  }

  lemma QueueMovesOk(s: System, id: Id, j: Id)
    requires JobOk(s, j)
    ensures JobOk(DoPick(s, id), j) && JobOk(DoDrop(s, id), j)
  {
  }

  lemma ArmOk(cfg: Config, s: System, id: Id, j: Id)
    requires JobOk(s, j)
    ensures JobOk(DoArm(cfg, s, id), j)
  {
  }

  lemma CallOk(s: System, id: Id, j: Id)
    requires JobOk(s, j)
    ensures JobOk(DoCall(s, id), j)
  {
  }

  lemma EndOk(s: System, id: Id, o: Outcome, j: Id)
    requires JobOk(s, j)
    ensures JobOk(DoEnd(s, id, o), j)
  {
  }

  lemma OutsideMovesOk(cfg: Config, s: System, c: Caller, id: Id, j: Id)
    requires JobOk(s, j)
    ensures JobOk(DoCheck(cfg, s, c), j) && JobOk(DoRegister(s, c), j)
    ensures JobOk(DoPersist(s, id), j) && JobOk(DoShutdown(s), j) && JobOk(DoStop(s), j)
  {
  }

  lemma StepJobOk(cfg: Config, s: System, e: Event, j: Id)
    requires JobOk(s, j) && CallersInv(s)
    ensures JobOk(Step(cfg, s, e), j)
  {
    hide JobOk, DoCheck, DoInsert, DoSubmit, DoRegister, DoCancel, DoTimeout, DoPick, DoStart, DoArm, DoCall,
         DoEnd, DoRecord, DoFinish, DoPersist, DoShutdown, DoStop, DoDrop;
    match e
    case EnqueueCheck(c) => OutsideMovesOk(cfg, s, c, j, j);
    case EnqueueInsert(c, id, now) => InsertOk(s, c, id, now, j);
    case EnqueueSubmit(c) => assert CallerOk(s, c); SubmitOk(s, c, j);
    case EnqueueRegister(c) => OutsideMovesOk(cfg, s, c, j, j);
    case CancelJob(id, reason, now) => CancelOk(s, id, reason, now, j);
    case TimerFires(id, now) => TimeoutOk(cfg, s, id, now, j);
    case Pick(id) => QueueMovesOk(s, id, j);
    case StartJob(id, now) => StartOk(s, id, now, j);
    case ArmTimer(id) => ArmOk(cfg, s, id, j);
    case CallWorker(id) => CallOk(s, id, j);
    case WorkerEnds(id, o) => EndOk(s, id, o, j);
    case RecordOutcome(id, now) => RecordOk(s, id, now, j);
    case FinishJob(id, now) => FinishOk(s, id, now, j);
    case Persist(id) => OutsideMovesOk(cfg, s, 0, id, j);
    case BeginShutdown => OutsideMovesOk(cfg, s, 0, j, j);
    case StopExecutor => OutsideMovesOk(cfg, s, 0, j, j);
    case DropPending(id) => QueueMovesOk(s, id, j);
  }

  /** Only submit moves an unsubmitted task on. */
  lemma CancelKeepsUnsubmitted(s: System, i: Id, reason: string, now: real, id: Id)
    requires At(s, id, NotSubmitted)
    ensures At(DoCancel(s, i, reason, now), id, NotSubmitted)
  {
  }

  lemma TimeoutKeepsUnsubmitted(cfg: Config, s: System, i: Id, now: real, id: Id)
    requires At(s, id, NotSubmitted)
    ensures At(DoTimeout(cfg, s, i, now), id, NotSubmitted)
  {
  }

  lemma BodyKeepsUnsubmitted(s: System, i: Id, now: real, id: Id)
    requires At(s, id, NotSubmitted)
    ensures At(DoStart(s, i, now), id, NotSubmitted)
    ensures At(DoFinish(s, i, now), id, NotSubmitted)
  {
  }

  lemma RecordKeepsUnsubmitted(s: System, i: Id, now: real, id: Id)
    requires At(s, id, NotSubmitted)
    ensures At(DoRecord(s, i, now), id, NotSubmitted)
  {
    hide FailureOf;
  }

  lemma EnqueueKeepsUnsubmitted(cfg: Config, s: System, c: Caller, i: Id, now: real, id: Id)
    requires At(s, id, NotSubmitted)
    ensures At(DoCheck(cfg, s, c), id, NotSubmitted) && At(DoInsert(s, c, i, now), id, NotSubmitted)
    ensures At(DoRegister(s, c), id, NotSubmitted)
  {
  }

  lemma MovesKeepUnsubmitted(cfg: Config, s: System, i: Id, o: Outcome, id: Id)
    requires At(s, id, NotSubmitted)
    ensures At(DoPick(s, i), id, NotSubmitted) && At(DoArm(cfg, s, i), id, NotSubmitted)
    ensures At(DoCall(s, i), id, NotSubmitted) && At(DoEnd(s, i, o), id, NotSubmitted)
  {
  }

  lemma RestKeepsUnsubmitted(s: System, i: Id, id: Id)
    requires At(s, id, NotSubmitted)
    ensures At(DoPersist(s, i), id, NotSubmitted) && At(DoShutdown(s), id, NotSubmitted)
    ensures At(DoStop(s), id, NotSubmitted) && At(DoDrop(s, i), id, NotSubmitted)
  {
  }

  lemma UnsubmittedStays(cfg: Config, s: System, e: Event, id: Id)
    requires At(s, id, NotSubmitted) && !e.EnqueueSubmit?
    ensures At(Step(cfg, s, e), id, NotSubmitted)
  {
    hide At, DoCheck, DoInsert, DoSubmit, DoRegister, DoCancel, DoTimeout, DoPick, DoStart, DoArm, DoCall, DoEnd,
         DoRecord, DoFinish, DoPersist, DoShutdown, DoStop, DoDrop;
    match e
    case EnqueueCheck(c) => EnqueueKeepsUnsubmitted(cfg, s, c, id, 0.0, id);
    case EnqueueInsert(c, i, now) => EnqueueKeepsUnsubmitted(cfg, s, c, i, now, id);
    case EnqueueSubmit(c) =>
    case EnqueueRegister(c) => EnqueueKeepsUnsubmitted(cfg, s, c, id, 0.0, id);
    case CancelJob(i, reason, now) => CancelKeepsUnsubmitted(s, i, reason, now, id);
    case TimerFires(i, now) => TimeoutKeepsUnsubmitted(cfg, s, i, now, id);
    case StartJob(i, now) => BodyKeepsUnsubmitted(s, i, now, id);
    case RecordOutcome(i, now) => RecordKeepsUnsubmitted(s, i, now, id);
    case FinishJob(i, now) => BodyKeepsUnsubmitted(s, i, now, id);
    case WorkerEnds(i, o) => MovesKeepUnsubmitted(cfg, s, i, o, id);
    case BeginShutdown => RestKeepsUnsubmitted(s, id, id);
    case StopExecutor => RestKeepsUnsubmitted(s, id, id);
    case Persist(i) => RestKeepsUnsubmitted(s, i, id);
    case DropPending(i) => RestKeepsUnsubmitted(s, i, id);
    case _ => MovesKeepUnsubmitted(cfg, s, e.id, Returned(""), id);
  }

  lemma BodyKeepsCallers(cfg: Config, s: System, e: Event)
    requires !e.EnqueueCheck? && !e.EnqueueInsert? && !e.EnqueueSubmit? && !e.EnqueueRegister?
    ensures Step(cfg, s, e).callers == s.callers
  {
    hide DoPick, DoCall, DoEnd, DoFinish, DoPersist, DoShutdown, DoStop, DoDrop, DoArm, DoStart, DoCancel,
         DoTimeout, DoRecord;
    match e
    case CancelJob(id, reason, now) => CancelKeepsCallers(cfg, s, id, reason, now);
    case TimerFires(id, now) => CancelKeepsCallers(cfg, s, id, "", now);
    case RecordOutcome(id, now) => RecordKeepsCallers(s, id, now);
    case StartJob(id, now) => StartKeepsCallers(s, id, now);
    case FinishJob(id, now) => StartKeepsCallers(s, id, now);
    case WorkerEnds(id, o) => QuietMoves(s, id, o);
    case Pick(id) => QuietMoves(s, id, Returned(""));
    case CallWorker(id) => QuietMoves(s, id, Returned(""));
    case Persist(id) => QuietMoves(s, id, Returned(""));
    case DropPending(id) => QuietMoves(s, id, Returned(""));
    case BeginShutdown => FlagMoves(cfg, s, "");
    case StopExecutor => FlagMoves(cfg, s, "");
    case ArmTimer(id) => FlagMoves(cfg, s, id);
    case EnqueueCheck(c) =>
    case EnqueueInsert(c, id, now) =>
    case EnqueueSubmit(c) =>
    case EnqueueRegister(c) =>
  }

  /** The steps that touch neither the job table nor a caller. */
  lemma QuietMoves(s: System, id: Id, o: Outcome)
    ensures DoPick(s, id).sh == s.sh && DoPick(s, id).callers == s.callers
    ensures DoCall(s, id).sh == s.sh && DoCall(s, id).callers == s.callers
    ensures DoEnd(s, id, o).sh == s.sh && DoEnd(s, id, o).callers == s.callers
    ensures DoPersist(s, id).sh == s.sh && DoPersist(s, id).callers == s.callers
    ensures DoDrop(s, id).sh == s.sh && DoDrop(s, id).callers == s.callers
  {
  }

  lemma FlagMoves(cfg: Config, s: System, id: Id)
    ensures DoArm(cfg, s, id).sh.jobs == s.sh.jobs && DoArm(cfg, s, id).sh.failureCounts == s.sh.failureCounts
    ensures DoArm(cfg, s, id).callers == s.callers
    ensures DoShutdown(s).sh.jobs == s.sh.jobs && DoShutdown(s).sh.failureCounts == s.sh.failureCounts
    ensures DoShutdown(s).callers == s.callers
    ensures DoStop(s).sh == s.sh && DoStop(s).callers == s.callers
  {
  }

  lemma EnqueueKeepsJobs(cfg: Config, s: System, c: Caller)
    ensures DoCheck(cfg, s, c).sh == s.sh && DoSubmit(s, c).sh == s.sh
    ensures DoRegister(s, c).sh.jobs == s.sh.jobs && DoRegister(s, c).sh.failureCounts == s.sh.failureCounts
  {
  }

  lemma StartKeepsCallers(s: System, id: Id, now: real)
    ensures DoStart(s, id, now).callers == s.callers
    ensures DoFinish(s, id, now).callers == s.callers
  {
    hide StartRegion, FinallyRegion;
  }

  lemma CancelKeepsCallers(cfg: Config, s: System, id: Id, reason: string, now: real)
    ensures DoCancel(s, id, reason, now).callers == s.callers
    ensures DoTimeout(cfg, s, id, now).callers == s.callers
  {
    hide CancelRegion, TimeoutRegion;
  }

  lemma RecordKeepsCallers(s: System, id: Id, now: real)
    ensures DoRecord(s, id, now).callers == s.callers
  {
    hide FailureOf;
    hide SucceedRegion, FailRegion;
  }

  lemma CallerKept(cfg: Config, s: System, e: Event, c: Caller)
    requires !e.EnqueueInsert? && !e.EnqueueSubmit?
    requires var s' := Step(cfg, s, e); c in s'.callers && s'.callers[c].PastInsert?
    ensures c in s.callers && Step(cfg, s, e).callers[c] == s.callers[c]
  {
    if e.EnqueueCheck? || e.EnqueueRegister? {
      hide DoInsert, DoSubmit, DoCancel, DoTimeout, DoPick, DoStart, DoArm, DoCall, DoEnd, DoRecord, DoFinish,
           DoPersist, DoShutdown, DoStop, DoDrop, CheckRegion, RegisterRegion;
    } else {
      hide Step;
      BodyKeepsCallers(cfg, s, e);
    }
  }

  lemma InsertCallerOk(s: System, d: Caller, id: Id, now: real, c: Caller)
    requires CallerOk(s, c)
    ensures CallerOk(DoInsert(s, d, id, now), c)
  {
  }

  lemma SubmitCallerOk(s: System, d: Caller, c: Caller)
    requires CallerOk(s, c) && CallersApart(s, c, d)
    ensures CallerOk(DoSubmit(s, d), c)
  {
  }

  lemma StepCallerOk(cfg: Config, s: System, e: Event, c: Caller)
    requires CallersInv(s)
    ensures CallerOk(Step(cfg, s, e), c)
  {
    hide DoInsert, DoSubmit, DoCancel, DoTimeout, DoStart, DoRecord, DoFinish;
    assert CallerOk(s, c);
    match e
    case EnqueueInsert(d, id, now) => InsertCallerOk(s, d, id, now, c);
    case EnqueueSubmit(d) => assert CallersApart(s, c, d); SubmitCallerOk(s, d, c);
    case _ =>
      var s' := Step(cfg, s, e);
      if c in s'.callers && s'.callers[c].PastInsert? {
        CallerKept(cfg, s, e, c);
        UnsubmittedStays(cfg, s, e, s.callers[c].id);
      }
  }

  lemma InsertCallersApart(s: System, d: Caller, id: Id, now: real, b: Caller, c: Caller)
    requires CallersApart(s, b, c) && CallerOk(s, b) && CallerOk(s, c)
    ensures CallersApart(DoInsert(s, d, id, now), b, c)
  {
  }

  lemma SubmitCallersApart(s: System, d: Caller, b: Caller, c: Caller)
    requires CallersApart(s, b, c)
    ensures CallersApart(DoSubmit(s, d), b, c)
  {
  }

  lemma StepCallersApart(cfg: Config, s: System, e: Event, c: Caller, d: Caller)
    requires CallersInv(s)
    ensures CallersApart(Step(cfg, s, e), c, d)
  {
    hide DoInsert, DoSubmit, DoCheck, DoRegister, DoCancel, DoTimeout, DoPick, DoStart, DoArm, DoCall, DoEnd,
         DoRecord, DoFinish, DoPersist, DoShutdown, DoStop, DoDrop;
    assert CallersApart(s, c, d) && CallerOk(s, c) && CallerOk(s, d);
    match e
    case EnqueueInsert(b, id, now) => InsertCallersApart(s, b, id, now, c, d);
    case EnqueueSubmit(b) => SubmitCallersApart(s, b, c, d);
    case _ =>
      var s' := Step(cfg, s, e);
      if c in s'.callers && s'.callers[c].PastInsert? && d in s'.callers && s'.callers[d].PastInsert? {
        CallerKept(cfg, s, e, c);
        CallerKept(cfg, s, e, d);
      }
  }

  /** Writing one record together with its count keeps the failure counters exact. */
  lemma CountsAfterFailure(sh: Shared, id: Id, f: Failure, now: real)
    requires id in sh.jobs && sh.jobs[id].status != Failed && CountsExact(sh)
    ensures CountsExact(FailJob(sh, id, f, now))
  {
    var sh' := FailJob(sh, id, f, now);
    forall c
      ensures CountExact(sh', c)
    {
      assert CountExact(sh, c);
      HavingUpdate(sh.jobs, id, sh'.jobs[id], FailureIs(c));
    }
  }

  /** A write that leaves the failure of the record alone keeps the counters too. */
  lemma CountsAfterWrite(sh: Shared, id: Id, r: JobRecord)
    requires CountsExact(sh) && r.status != Failed && (id in sh.jobs ==> sh.jobs[id].status != Failed)
    ensures CountsExact(sh.(jobs := sh.jobs[id := r]))
  {
    var sh' := sh.(jobs := sh.jobs[id := r]);
    forall c
      ensures CountExact(sh', c)
    {
      assert CountExact(sh, c);
      HavingUpdate(sh.jobs, id, r, FailureIs(c));
    }
  }

  lemma StepCounts(cfg: Config, s: System, e: Event)
    requires JobsInv(s) && CountsExact(s.sh)
    ensures CountsExact(Step(cfg, s, e).sh)
  {
    hide CountsExact, DoCancel, DoTimeout, DoStart, DoRecord;
    match e
    case EnqueueInsert(c, id, now) =>
      if id !in s.sh.jobs {
        CountsAfterWrite(s.sh, id, NewRecord(now));
        CountsSameJobs(s.sh.(jobs := s.sh.jobs[id := NewRecord(now)]), Step(cfg, s, e).sh);
      }
    case CancelJob(id, reason, now) => CancelCounts(s, id, reason, now);
    case TimerFires(id, now) => TimeoutCounts(cfg, s, id, now);
    case StartJob(id, now) => StartCounts(s, id, now);
    case RecordOutcome(id, now) => RecordCounts(s, id, now);
    case FinishJob(id, now) => assert JobOk(s, id); FinishCounts(s.sh, id, now);
    case _ =>
      hide Step;
      OthersKeepJobs(cfg, s, e);
      CountsSameJobs(s.sh, Step(cfg, s, e).sh);
  }

  lemma CountsSameJobs(sh: Shared, sh': Shared)
    requires CountsExact(sh)
    ensures sh'.jobs == sh.jobs && sh'.failureCounts == sh.failureCounts ==> CountsExact(sh')
  {
    if sh'.jobs == sh.jobs && sh'.failureCounts == sh.failureCounts {
      forall c
        ensures CountExact(sh', c)
      {
        assert CountExact(sh, c);
      }
    }
  }

  lemma CancelCounts(s: System, id: Id, reason: string, now: real)
    requires CountsExact(s.sh)
    ensures CountsExact(DoCancel(s, id, reason, now).sh)
  {
    if CancelApplies(s.sh, id) {
      CountsAfterFailure(s.sh, id, CancelFailure(reason), now);
      CountsSameJobs(FailJob(s.sh, id, CancelFailure(reason), now), DoCancel(s, id, reason, now).sh);
    }
  }

  lemma TimeoutCounts(cfg: Config, s: System, id: Id, now: real)
    requires CountsExact(s.sh)
    ensures CountsExact(DoTimeout(cfg, s, id, now).sh)
  {
    if IsRunning(s.sh, id) {
      CountsAfterFailure(s.sh, id, TimeoutFailure(), now);
      CountsSameJobs(FailJob(s.sh, id, TimeoutFailure(), now), TimeoutRegion(s.sh, id, now));
    }
  }

  lemma StartCounts(s: System, id: Id, now: real)
    requires CountsExact(s.sh)
    ensures CountsExact(DoStart(s, id, now).sh)
  {
    if StartApplies(s.sh, id) {
      CountsAfterWrite(s.sh, id, s.sh.jobs[id].(status := Running, startedAt := Some(now)));
    }
  }

  lemma RecordCounts(s: System, id: Id, now: real)
    requires CountsExact(s.sh)
    ensures CountsExact(DoRecord(s, id, now).sh)
  {
    hide FailureOf;
    if id in s.tasks && s.tasks[id].HasOutcome? && IsRunning(s.sh, id) {
      match s.tasks[id].outcome
      case Returned(v) => CountsAfterWrite(s.sh, id, s.sh.jobs[id].(status := Succeeded, result := Some(v)));
      case Raised(e) => CountsAfterFailure(s.sh, id, FailureOf(e), now);
    }
  }

  lemma FinishCounts(sh: Shared, id: Id, now: real)
    requires CountsExact(sh)
    requires id in sh.jobs && sh.jobs[id].status == Failed ==> sh.jobs[id].finishedAt.Some?
    ensures CountsExact(FinallyRegion(sh, id, now))
  {
    if id in sh.jobs && sh.jobs[id].finishedAt.None? && Terminal(sh.jobs[id]) {
      var r := sh.jobs[id].(finishedAt := Some(now));
      CountsAfterWrite(sh, id, r);
      CountsSameJobs(sh.(jobs := sh.jobs[id := r]), FinallyRegion(sh, id, now));
    } else {
      CountsSameJobs(sh, FinallyRegion(sh, id, now));
    }
  }

  lemma StepInv(cfg: Config, s: System, e: Event)
    requires Inv(s)
    ensures Inv(Step(cfg, s, e))
  {
    var s' := Step(cfg, s, e);
    forall j
      ensures JobOk(s', j)
    {
      StepJobOk(cfg, s, e, j);
    }
    forall c
      ensures CallerOk(s', c)
    {
      StepCallerOk(cfg, s, e, c);
    }
    forall c, d
      ensures CallersApart(s', c, d)
    {
      StepCallersApart(cfg, s, e, c, d);
    }
    StepCounts(cfg, s, e);
  }

  lemma {:induction false} ExecInv(cfg: Config, s: System, run: seq<Event>)
    requires Inv(s)
    ensures Inv(Exec(cfg, s, run))
    decreases |run|
  {
    if run != [] {
      ExecInv(cfg, s, run[..|run| - 1]);
      StepInv(cfg, Exec(cfg, s, run[..|run| - 1]), run[|run| - 1]);
    }
  }

  // ---------- First writer wins ----------

  /** Status, start, result and error fields of a terminal record; only finishedAt may still be filled in. */
  predicate Frozen(r: JobRecord, r': JobRecord) {
    Terminal(r) ==>
      r'.status == r.status && r'.startedAt == r.startedAt && r'.result == r.result && r'.failure == r.failure
      && (r.finishedAt.Some? ==> r'.finishedAt == r.finishedAt)
  }

  lemma CancelFreezes(s: System, id: Id, reason: string, now: real, j: Id)
    requires j in s.sh.jobs
    ensures var s' := DoCancel(s, id, reason, now); j in s'.sh.jobs && Frozen(s.sh.jobs[j], s'.sh.jobs[j])
  {
  }

  lemma TimeoutFreezes(cfg: Config, s: System, id: Id, now: real, j: Id)
    requires j in s.sh.jobs
    ensures var s' := DoTimeout(cfg, s, id, now); j in s'.sh.jobs && Frozen(s.sh.jobs[j], s'.sh.jobs[j])
  {
  }

  lemma StartFreezes(s: System, id: Id, now: real, j: Id)
    requires JobOk(s, j) && j in s.sh.jobs
    ensures var s' := DoStart(s, id, now); j in s'.sh.jobs && Frozen(s.sh.jobs[j], s'.sh.jobs[j])
  {
  }

  lemma RecordFreezes(s: System, id: Id, now: real, j: Id)
    requires j in s.sh.jobs
    ensures var s' := DoRecord(s, id, now); j in s'.sh.jobs && Frozen(s.sh.jobs[j], s'.sh.jobs[j])
  {
    hide FailureOf, Frozen, SucceedRegion, FailRegion;
    SelfFrozen(s.sh.jobs[j]);
    if id in s.tasks && s.tasks[id].HasOutcome? && id in s.sh.jobs {
      match s.tasks[id].outcome
      case Returned(v) => RegionsFreeze(s.sh, id, v, Failure(InternalError, "", "", None), now, j);
      case Raised(e) => RegionsFreeze(s.sh, id, "", FailureOf(e), now, j);
    }
  }

  lemma RegionsFreeze(sh: Shared, id: Id, v: string, f: Failure, now: real, j: Id)
    requires j in sh.jobs
    ensures j in SucceedRegion(sh, id, v).jobs && Frozen(sh.jobs[j], SucceedRegion(sh, id, v).jobs[j])
    ensures j in FailRegion(sh, id, f, now).jobs && Frozen(sh.jobs[j], FailRegion(sh, id, f, now).jobs[j])
  {
    hide Bump;
  }

  lemma FinishFreezes(s: System, id: Id, now: real, j: Id)
    requires j in s.sh.jobs
    ensures var s' := DoFinish(s, id, now); j in s'.sh.jobs && Frozen(s.sh.jobs[j], s'.sh.jobs[j])
  {
  }

  lemma InsertFreezes(s: System, c: Caller, id: Id, now: real, j: Id)
    requires j in s.sh.jobs
    ensures var s' := DoInsert(s, c, id, now); j in s'.sh.jobs && Frozen(s.sh.jobs[j], s'.sh.jobs[j])
  {
  }

  lemma StepFreezes(cfg: Config, s: System, e: Event, id: Id)
    requires JobOk(s, id) && id in s.sh.jobs
    ensures id in Step(cfg, s, e).sh.jobs && Frozen(s.sh.jobs[id], Step(cfg, s, e).sh.jobs[id])
  {
    hide Frozen, JobOk, DoCancel, DoTimeout, DoStart, DoRecord, DoInsert, DoFinish;
    SelfFrozen(s.sh.jobs[id]);
    match e
    case EnqueueInsert(c, j, now) => InsertFreezes(s, c, j, now, id);
    case CancelJob(j, reason, now) => CancelFreezes(s, j, reason, now, id);
    case TimerFires(j, now) => TimeoutFreezes(cfg, s, j, now, id);
    case StartJob(j, now) => StartFreezes(s, j, now, id);
    case RecordOutcome(j, now) => RecordFreezes(s, j, now, id);
    case FinishJob(j, now) => FinishFreezes(s, j, now, id);
    case _ => OthersKeepJobs(cfg, s, e);
  }

  lemma OthersKeepJobs(cfg: Config, s: System, e: Event)
    requires !e.EnqueueInsert? && !e.CancelJob? && !e.TimerFires? && !e.StartJob? && !e.RecordOutcome? && !e.FinishJob?
    ensures Step(cfg, s, e).sh.jobs == s.sh.jobs && Step(cfg, s, e).sh.failureCounts == s.sh.failureCounts
  {
    hide DoCheck, DoSubmit, DoRegister, DoPick, DoCall, DoEnd, DoPersist, DoShutdown, DoStop, DoDrop, DoArm;
    if e.EnqueueCheck? || e.EnqueueSubmit? || e.EnqueueRegister? {
      EnqueueKeepsJobs(cfg, s, e.c);
    } else if e.BeginShutdown? || e.StopExecutor? || e.ArmTimer? {
      FlagMoves(cfg, s, if e.ArmTimer? then e.id else "");
    } else {
      QuietMoves(s, e.id, if e.WorkerEnds? then e.outcome else Returned(""));
    }
  }

  lemma SelfFrozen(r: JobRecord)
    ensures Frozen(r, r)
  {
  }

  lemma {:induction false} ExecAppend(cfg: Config, s: System, before: seq<Event>, after: seq<Event>)
    ensures Exec(cfg, s, before + after) == Exec(cfg, Exec(cfg, s, before), after)
    decreases |after|
  {
    if after == [] {
      assert before + after == before;
    } else {
      var front := after[..|after| - 1];
      assert (before + after)[..|before + after| - 1] == before + front;
      ExecAppend(cfg, s, before, front);
    }
  }

  lemma {:induction false} ExecFreezes(cfg: Config, s: System, run: seq<Event>, id: Id)
    requires Inv(s) && id in s.sh.jobs
    ensures id in Exec(cfg, s, run).sh.jobs && Frozen(s.sh.jobs[id], Exec(cfg, s, run).sh.jobs[id])
    decreases |run|
  {
    if run != [] {
      var front := run[..|run| - 1];
      ExecFreezes(cfg, s, front, id);
      ExecInv(cfg, s, front);
      var m := Exec(cfg, s, front);
      assert JobOk(m, id);
      StepFreezes(cfg, m, run[|run| - 1], id);
    }
  }

  /**
   First writer wins: over every interleaving, once a job is terminal its status, result
   and error never change again, whatever cancels, timeouts and completions follow.
   */
  lemma {:induction false} FirstWriterWins(cfg: Config, s: System, before: seq<Event>, after: seq<Event>, id: Id)
    requires Initial(s)
    requires id in Exec(cfg, s, before).sh.jobs && Terminal(Exec(cfg, s, before).sh.jobs[id])
    ensures id in Exec(cfg, s, before + after).sh.jobs
    ensures Frozen(Exec(cfg, s, before).sh.jobs[id], Exec(cfg, s, before + after).sh.jobs[id])
  {
    InitialInv(s);
    ExecInv(cfg, s, before);
    ExecAppend(cfg, s, before, after);
    ExecFreezes(cfg, Exec(cfg, s, before), after, id);
  }

  /**
   What every reachable state satisfies for every job: error fields exactly when FAILED,
   a result exactly when SUCCEEDED, at most one worker call, none without a start, and
   exactly one hand-over to the store for a failure (none otherwise).
   */
  lemma {:induction false} ReachableJobs(cfg: Config, s: System, run: seq<Event>, id: Id)
    requires Initial(s) && id in Exec(cfg, s, run).sh.jobs
    ensures var t := Exec(cfg, s, run); var r := t.sh.jobs[id];
            && (r.failure.Some? <==> r.status == Failed)
            && (r.result.Some? <==> r.status == Succeeded)
            && t.calls[id] <= 1
            && (r.startedAt.None? ==> t.calls[id] == 0)
            && t.owed[id] + t.stored[id] == if r.status == Failed then 1 else 0
  {
    InitialInv(s);
    ExecInv(cfg, s, run);
    assert JobOk(Exec(cfg, s, run), id);
  }

  /** A job cancelled before it started is never given to the worker function. */
  lemma CancelledBeforeStartNeverRuns(cfg: Config, s: System, before: seq<Event>, after: seq<Event>, id: Id)
    requires Initial(s) && id in Exec(cfg, s, before).sh.jobs
    requires var r := Exec(cfg, s, before).sh.jobs[id]; r.status == Failed && r.startedAt.None?
    ensures Exec(cfg, s, before + after).calls[id] == 0
  {
    FirstWriterWins(cfg, s, before, after, id);
    ReachableJobs(cfg, s, before + after, id);
  }

  // ---------- Cancel events and timers ----------

  /**
   The cancel event of a job that has failed is set while its worker may still be running,
   only a job between its start and its clean-up has a timer, and after that it has a finish time.
   */
  predicate SideOk(s: System, id: Id) {
    && (id in s.sh.jobs && id in s.tasks && s.sh.jobs[id].status == Failed && !s.tasks[id].Recorded? &&
        !s.tasks[id].Done?
        ==> id in s.sh.signalled)
    && (id in s.sh.timers ==>
          id in s.tasks &&
          (s.tasks[id].Armed? || s.tasks[id].InWorker? || s.tasks[id].HasOutcome? || s.tasks[id].Recorded?))
    && (id in s.sh.jobs && id in s.tasks && s.tasks[id].Done? ==> s.sh.jobs[id].finishedAt.Some?)
  }

  lemma EnqueueSide(cfg: Config, s: System, c: Caller, id: Id, now: real, j: Id)
    requires JobOk(s, j) && SideOk(s, j) && CallerOk(s, c)
    ensures SideOk(DoCheck(cfg, s, c), j) && SideOk(DoInsert(s, c, id, now), j)
    ensures SideOk(DoSubmit(s, c), j) && SideOk(DoRegister(s, c), j)
  {
  }

  lemma CancelSide(s: System, id: Id, reason: string, now: real, j: Id)
    requires JobOk(s, j) && SideOk(s, j)
    ensures SideOk(DoCancel(s, id, reason, now), j)
  {
    hide Bump, CancelFailure;
  }

  lemma TimeoutSide(cfg: Config, s: System, id: Id, now: real, j: Id)
    requires JobOk(s, j) && SideOk(s, j)
    ensures SideOk(DoTimeout(cfg, s, id, now), j)
  {
    hide Bump, TimeoutFailure;
  }

  lemma StartSide(s: System, id: Id, now: real, j: Id)
    requires JobOk(s, j) && SideOk(s, j)
    ensures SideOk(DoStart(s, id, now), j)
  {
  }

  lemma ArmSide(cfg: Config, s: System, id: Id, j: Id)
    requires JobOk(s, j) && SideOk(s, j)
    ensures SideOk(DoPick(s, id), j) && SideOk(DoArm(cfg, s, id), j)
  {
  }

  lemma WorkerSide(s: System, id: Id, o: Outcome, j: Id)
    requires JobOk(s, j) && SideOk(s, j)
    ensures SideOk(DoCall(s, id), j) && SideOk(DoEnd(s, id, o), j)
  {
  }

  lemma FinishSide(s: System, id: Id, now: real, j: Id)
    requires JobOk(s, j) && SideOk(s, j)
    ensures SideOk(DoFinish(s, id, now), j)
  {
  }

  lemma RecordSide(s: System, id: Id, now: real, j: Id)
    requires JobOk(s, j) && SideOk(s, j)
    ensures SideOk(DoRecord(s, id, now), j)
  {
    hide Bump, FailureOf;
  }

  lemma RestSide(s: System, id: Id, j: Id)
    requires JobOk(s, j) && SideOk(s, j)
    ensures SideOk(DoPersist(s, id), j) && SideOk(DoShutdown(s), j)
    ensures SideOk(DoStop(s), j) && SideOk(DoDrop(s, id), j)
  {
  }

  lemma StepSide(cfg: Config, s: System, e: Event, j: Id)
    requires JobOk(s, j) && CallersInv(s) && SideOk(s, j)
    ensures SideOk(Step(cfg, s, e), j)
  {
    hide JobOk, SideOk, CallerOk, DoCheck, DoInsert, DoSubmit, DoRegister, DoCancel, DoTimeout, DoPick, DoStart,
         DoArm, DoCall, DoEnd, DoRecord, DoFinish, DoPersist, DoShutdown, DoStop, DoDrop;
    match e
    case EnqueueCheck(c) => assert CallerOk(s, c); EnqueueSide(cfg, s, c, j, 0.0, j);
    case EnqueueInsert(c, id, now) => assert CallerOk(s, c); EnqueueSide(cfg, s, c, id, now, j);
    case EnqueueSubmit(c) => assert CallerOk(s, c); EnqueueSide(cfg, s, c, j, 0.0, j);
    case EnqueueRegister(c) => assert CallerOk(s, c); EnqueueSide(cfg, s, c, j, 0.0, j);
    case CancelJob(id, reason, now) => CancelSide(s, id, reason, now, j);
    case TimerFires(id, now) => TimeoutSide(cfg, s, id, now, j);
    case Pick(id) => ArmSide(cfg, s, id, j);
    case StartJob(id, now) => StartSide(s, id, now, j);
    case ArmTimer(id) => ArmSide(cfg, s, id, j);
    case CallWorker(id) => WorkerSide(s, id, Returned(""), j);
    case WorkerEnds(id, o) => WorkerSide(s, id, o, j);
    case RecordOutcome(id, now) => RecordSide(s, id, now, j);
    case FinishJob(id, now) => FinishSide(s, id, now, j);
    case Persist(id) => RestSide(s, id, j);
    case BeginShutdown => RestSide(s, j, j);
    case StopExecutor => RestSide(s, j, j);
    case DropPending(id) => RestSide(s, id, j);
  }

  /**
   In every reachable state a job that a cancel or a timeout has failed under its worker
   has its cancel event set, no timer is left of a job that has not begun or is done, and a
   job that its thread is done with has a finish time.
   */
  lemma {:induction false} FailedWorkersAreSignalled(cfg: Config, s: System, run: seq<Event>, id: Id)
    requires Initial(s)
    ensures SideOk(Exec(cfg, s, run), id)
    decreases |run|
  {
    if run != [] {
      var front := run[..|run| - 1];
      FailedWorkersAreSignalled(cfg, s, front, id);
      InitialInv(s);
      ExecInv(cfg, s, front);
      assert JobOk(Exec(cfg, s, front), id);
      StepSide(cfg, Exec(cfg, s, front), run[|run| - 1], id);
    }
  }

  // ---------- Accounting ----------

  /** In every reachable state each failure counter is the number of FAILED jobs with that code. */
  lemma {:induction false} FailureCountsExact(cfg: Config, s: System, run: seq<Event>, c: ErrorCode)
    requires Initial(s)
    ensures var t := Exec(cfg, s, run);
            CountOf(t.sh.failureCounts, c) == |Having(t.sh.jobs, FailureIs(c))|
  {
    hide Exec;
    InitialInv(s);
    ExecInv(cfg, s, run);
    assert CountExact(Exec(cfg, s, run).sh, c);
  }
}
