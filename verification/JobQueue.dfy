/**
 The thread-pool JobQueue. Every lock region of the original is one atomic function on
 the shared fields, and the class methods below compute exactly these functions.
 */
module JobQueue {
  import opened Wrappers
  import opened Models

  /** error_code, error, error_message and action_hint, which are always written together. */
  datatype Failure = Failure(code: ErrorCode, error: string, message: string, hint: Option<string>)

  datatype JobRecord = JobRecord(
    status: Status,
    createdAt: real,
    startedAt: Option<real>,
    finishedAt: Option<real>,
    result: Option<string>,
    failure: Option<Failure>)

  function NewRecord(now: real): JobRecord {
    JobRecord(Queued, now, None, None, None, None)
  }

  /** The fields guarded by the lock. */
  datatype Shared = Shared(
    jobs: map<Id, JobRecord>,
    futures: set<Id>,
    signalled: set<Id>,
    timers: set<Id>,
    failureCounts: map<ErrorCode, nat>,
    shutdown: bool)

  predicate Terminal(r: JobRecord) {
    r.status == Succeeded || r.status == Failed
  }

  predicate IsActive(r: JobRecord) {
    r.status == Queued || r.status == Running
  }

  predicate FailedWith(c: ErrorCode, r: JobRecord) {
    r.status == Failed && r.failure.Some? && r.failure.value.code == c
  }

  function InStatus(s: Status): JobRecord -> bool {
    (r: JobRecord) => r.status == s
  }

  /** The ids whose record satisfies p. */
  ghost function Having(jobs: map<Id, JobRecord>, p: JobRecord -> bool): set<Id> {
    set id | id in jobs && p(jobs[id])
  }

  ghost function ActiveCount(jobs: map<Id, JobRecord>): nat {
    |Having(jobs, IsActive)|
  }

  // ---------- Lock regions ----------

  datatype EnqueueError = ShuttingDown | QueueFull

  ghost function CheckRegion(sh: Shared, maxPending: int): Option<EnqueueError> {
    if sh.shutdown then Some(ShuttingDown)
    else if ActiveCount(sh.jobs) >= maxPending then Some(QueueFull)
    else None
  }

  function InsertRegion(sh: Shared, id: Id, created: real): Shared {
    sh.(jobs := sh.jobs[id := NewRecord(created)], futures := sh.futures - {id})
  }

  function RegisterRegion(sh: Shared, id: Id): Shared {
    sh.(futures := sh.futures + {id})
  }

  function Bump(counts: map<ErrorCode, nat>, c: ErrorCode): map<ErrorCode, nat> {
    counts[c := (if c in counts then counts[c] else 0) + 1]
  }

  /** Writes a failure into a record and counts it. */
  function FailJob(sh: Shared, id: Id, f: Failure, now: real): Shared
    requires id in sh.jobs
  {
    sh.(jobs := sh.jobs[id := sh.jobs[id].(status := Failed, failure := Some(f), finishedAt := Some(now))],
        failureCounts := Bump(sh.failureCounts, f.code))
  }

  function CancelFailure(reason: string): Failure {
    Failure(Cancelled, reason, reason, Some("Retry the run or clear the queue if the workflow is stuck."))
  }

  function TimeoutFailure(): Failure {
    Failure(TimedOut, "Timed out", "Job exceeded timeout",
            Some("Try again with a smaller shot budget or fewer queued jobs."))
  }

  /** What the worker function may raise, by the handlers of _run_job. */
  datatype WorkerError =
    | OverBudget(message: string)
    | Provider(code: ErrorCode, message: string, hint: string)
    | BadValue(message: string)
    | Crash(message: string)

  /** The codes, messages and hints of the handlers, in order. */
  function FailureOf(e: WorkerError): (f: Failure)
    ensures f.error == e.message && f.message == e.message && f.hint.Some?
    ensures e.OverBudget? ==> f.code == BudgetExhausted
    ensures e.Provider? ==> f.code == e.code && (e.hint != "" ==> f.hint == Some(e.hint))
    ensures e.BadValue? ==> f.code == InvalidRequest
    ensures e.Crash? ==> f.code == InternalError
  {
    match e
    case OverBudget(m) =>
      Failure(BudgetExhausted, m, m, Some("Lower the shot budget or wait for the session budget to reset."))
    case Provider(c, m, h) =>
      Failure(c, m, m, Some(if h == "" then "Check provider credentials or select a simulator backend." else h))
    case BadValue(m) => Failure(InvalidRequest, m, m, Some("Verify the request payload and try again."))
    case Crash(m) => Failure(InternalError, m, m, Some("Check backend logs for details and retry after remediation."))
  }

  predicate CancelApplies(sh: Shared, id: Id) {
    id in sh.jobs && !Terminal(sh.jobs[id])
  }

  function CancelRegion(sh: Shared, id: Id, reason: string, now: real): Shared {
    if CancelApplies(sh, id)
    then FailJob(sh, id, CancelFailure(reason), now).(signalled := sh.signalled + {id})
    else sh
  }

  predicate IsRunning(sh: Shared, id: Id) {
    id in sh.jobs && sh.jobs[id].status == Running
  }

  function TimeoutRegion(sh: Shared, id: Id, now: real): Shared {
    if IsRunning(sh, id)
    then FailJob(sh, id, TimeoutFailure(), now).(signalled := sh.signalled + {id})
    else sh
  }

  predicate StartApplies(sh: Shared, id: Id) {
    id in sh.jobs && sh.jobs[id].status != Failed
  }

  function StartRegion(sh: Shared, id: Id, now: real): Shared {
    if StartApplies(sh, id)
    then sh.(jobs := sh.jobs[id := sh.jobs[id].(status := Running, startedAt := Some(now))])
    else sh
  }

  function ArmRegion(sh: Shared, id: Id): Shared {
    sh.(timers := sh.timers + {id})
  }

  function SucceedRegion(sh: Shared, id: Id, result: string): Shared {
    if IsRunning(sh, id)
    then sh.(jobs := sh.jobs[id := sh.jobs[id].(status := Succeeded, result := Some(result))])
    else sh
  }

  function FailRegion(sh: Shared, id: Id, f: Failure, now: real): Shared {
    if IsRunning(sh, id) then FailJob(sh, id, f, now) else sh
  }

  function FinallyRegion(sh: Shared, id: Id, now: real): Shared {
    var popped := sh.(timers := sh.timers - {id});
    if id in sh.jobs && sh.jobs[id].finishedAt.None? && Terminal(sh.jobs[id])
    then popped.(jobs := sh.jobs[id := sh.jobs[id].(finishedAt := Some(now))])
    else popped
  }

  function ShutdownRegion(sh: Shared): Shared {
    sh.(shutdown := true, signalled := sh.signalled + sh.jobs.Keys)
  }

  // ---------- The class ----------

  datatype Counts = Counts(queued: nat, running: nat, succeeded: nat, failed: nat)

  function Increment(c: Counts, s: Status): Counts {
    match s
    case Queued => c.(queued := c.queued + 1)
    case Running => c.(running := c.running + 1)
    case Succeeded => c.(succeeded := c.succeeded + 1)
    case Failed => c.(failed := c.failed + 1)
  }

  datatype Stats = Stats(total: nat, counts: Counts, failureCodes: map<ErrorCode, nat>)

  class JobQueueObject {
    var jobs: map<Id, JobRecord>
    var futures: set<Id>
    var signalled: set<Id>
    var timers: set<Id>
    var failureCounts: map<ErrorCode, nat>
    var shutdown: bool
    const maxPending: int

    function View(): Shared
      reads this
    {
      Shared(jobs, futures, signalled, timers, failureCounts, shutdown)
    }

    constructor (maxPending: int)
      ensures View() == Empty() && this.maxPending == maxPending
    {
      jobs, futures, signalled, timers := map[], {}, {}, {};
      failureCounts, shutdown := map[], false;
      this.maxPending := maxPending;
    }

    /** First lock region of enqueue: refuse when shutting down or when too many jobs are active. */
    method Check() returns (r: Option<EnqueueError>)
      ensures r == CheckRegion(View(), maxPending)
      ensures r == Some(ShuttingDown) <==> shutdown
      ensures r == Some(QueueFull) <==>
                !shutdown
                && |set id | id in jobs && (jobs[id].status == Queued || jobs[id].status == Running)| >= maxPending
    {
      if shutdown {
        return Some(ShuttingDown);
      }
      var active := CountActive();
      if active >= maxPending {
        return Some(QueueFull);
      }
      return None;
    }

    method CountActive() returns (n: nat)
      ensures n == ActiveCount(jobs)
      ensures n == |set id | id in jobs && (jobs[id].status == Queued || jobs[id].status == Running)|
    {
      n := 0;
      var rest := jobs.Keys;
      ghost var seen: set<Id> := {};
      while rest != {}
        invariant rest <= jobs.Keys && seen == jobs.Keys - rest
        invariant n == |set id | id in seen && IsActive(jobs[id])|
        decreases rest
      {
        var id :| id in rest;
        ghost var before := set i | i in seen && IsActive(jobs[i]);
        rest := rest - {id};
        seen := seen + {id};
        if IsActive(jobs[id]) {
          n := n + 1;
          assert (set i | i in seen && IsActive(jobs[i])) == before + {id};
        } else {
          assert (set i | i in seen && IsActive(jobs[i])) == before;
        }
      }
      assert (set id | id in seen && IsActive(jobs[id])) == Having(jobs, IsActive);
      assert (set id | id in jobs && (jobs[id].status == Queued || jobs[id].status == Running))
             == Having(jobs, IsActive);
    }

    method Insert(id: Id, created: real)
      modifies this
      ensures View() == InsertRegion(old(View()), id, created)
      ensures jobs == old(jobs)[id := JobRecord(Queued, created, None, None, None, None)]
      ensures futures == old(futures) - {id} && timers == old(timers) && signalled == old(signalled)
    {
      jobs := jobs[id := NewRecord(created)];
      futures := futures - {id};
    }

    method Register(id: Id)
      modifies this
      ensures View() == RegisterRegion(old(View()), id)
      ensures futures == old(futures) + {id} && jobs == old(jobs)
    {
      futures := futures + {id};
    }

    /** cancel: besides its answer, whether future.cancel() was called. */
    method Cancel(id: Id, reason: string, now: real) returns (ok: bool, cancelFuture: bool)
      modifies this
      ensures ok == old(CancelApplies(View(), id)) && cancelFuture == (ok && id in old(futures))
      ensures View() == CancelRegion(old(View()), id, reason, now)
      ensures ok <==> id in old(jobs) && old(jobs)[id].status != Succeeded && old(jobs)[id].status != Failed
      ensures ok ==> var r := old(jobs)[id];
                     jobs == old(jobs)[id := JobRecord(Failed, r.createdAt, r.startedAt, Some(now), r.result,
                       Some(Failure(ErrorCode.Cancelled, reason, reason,
                                    Some("Retry the run or clear the queue if the workflow is stuck."))))]
      ensures ok ==> id in signalled && failureCounts == Bump(old(failureCounts), ErrorCode.Cancelled)
      ensures !ok ==> View() == old(View())
    {
      if id !in jobs {
        return false, false;
      }
      if jobs[id].status == Succeeded || jobs[id].status == Failed {
        return false, false;
      }
      jobs := jobs[id := jobs[id].(status := Failed, failure := Some(CancelFailure(reason)), finishedAt := Some(now))];
      failureCounts := Bump(failureCounts, Cancelled);
      signalled := signalled + {id};
      return true, id in futures;
    }

    method Timeout(id: Id, now: real) returns (fired: bool, cancelFuture: bool)
      modifies this
      ensures fired == old(IsRunning(View(), id)) && cancelFuture == (fired && id in old(futures))
      ensures View() == TimeoutRegion(old(View()), id, now)
      ensures fired <==> id in old(jobs) && old(jobs)[id].status == Running
      ensures fired ==> var r := old(jobs)[id];
                        jobs == old(jobs)[id := JobRecord(Failed, r.createdAt, r.startedAt, Some(now), r.result,
                          Some(Failure(TimedOut, "Timed out", "Job exceeded timeout",
                                       Some("Try again with a smaller shot budget or fewer queued jobs."))))]
      ensures fired ==> id in signalled && failureCounts == Bump(old(failureCounts), TimedOut)
      ensures !fired ==> View() == old(View())
    {
      if id !in jobs {
        return false, false;
      }
      if jobs[id].status != Running {
        return false, false;
      }
      jobs := jobs[id := jobs[id].(status := Failed, failure := Some(TimeoutFailure()), finishedAt := Some(now))];
      failureCounts := Bump(failureCounts, TimedOut);
      signalled := signalled + {id};
      return true, id in futures;
    }

    /** First lock region of _run_job. */
    method Start(id: Id, now: real) returns (started: bool)
      requires id in jobs
      modifies this
      ensures started == old(StartApplies(View(), id))
      ensures View() == StartRegion(old(View()), id, now)
      ensures started <==> old(jobs)[id].status != Failed
      ensures started ==> var r := old(jobs)[id];
                          jobs == old(jobs)[id := JobRecord(Running, r.createdAt, Some(now), r.finishedAt,
                                                            r.result, r.failure)]
      ensures !started ==> View() == old(View())
    {
      if jobs[id].status == Failed {
        return false;
      }
      jobs := jobs[id := jobs[id].(status := Running, startedAt := Some(now))];
      return true;
    }

    method Arm(id: Id)
      modifies this
      ensures View() == ArmRegion(old(View()), id)
      ensures timers == old(timers) + {id} && jobs == old(jobs)
    {
      timers := timers + {id};
    }

    method Succeed(id: Id, result: string)
      requires id in jobs
      modifies this
      ensures View() == SucceedRegion(old(View()), id, result)
      ensures old(jobs)[id].status == Running ==>
                var r := old(jobs)[id];
                jobs == old(jobs)[id := JobRecord(Succeeded, r.createdAt, r.startedAt, r.finishedAt,
                                                  Some(result), r.failure)]
      ensures old(jobs)[id].status != Running ==> View() == old(View())
    {
      if jobs[id].status != Running {
        return;
      }
      jobs := jobs[id := jobs[id].(status := Succeeded, result := Some(result))];
    }

    /** The lock region of _fail_record. */
    method Fail(id: Id, f: Failure, now: real) returns (recorded: bool)
      requires id in jobs
      modifies this
      ensures recorded == old(IsRunning(View(), id))
      ensures View() == FailRegion(old(View()), id, f, now)
      ensures recorded <==> old(jobs)[id].status == Running
      ensures recorded ==> var r := old(jobs)[id];
                           jobs == old(jobs)[id := JobRecord(Failed, r.createdAt, r.startedAt, Some(now),
                                                             r.result, Some(f))]
      ensures recorded ==> failureCounts == Bump(old(failureCounts), f.code)
      ensures !recorded ==> View() == old(View())
    {
      if jobs[id].status != Running {
        return false;
      }
      jobs := jobs[id := jobs[id].(status := Failed, failure := Some(f), finishedAt := Some(now))];
      failureCounts := Bump(failureCounts, f.code);
      return true;
    }

    method Finally(id: Id, now: real)
      requires id in jobs
      modifies this
      ensures View() == FinallyRegion(old(View()), id, now)
      ensures timers == old(timers) - {id}
      ensures var r := old(jobs)[id];
              jobs == if r.finishedAt.None? && (r.status == Succeeded || r.status == Failed)
                      then old(jobs)[id := JobRecord(r.status, r.createdAt, r.startedAt, Some(now), r.result,
                                                     r.failure)]
                      else old(jobs)
    {
      timers := timers - {id};
      if jobs[id].finishedAt.None? && (jobs[id].status == Succeeded || jobs[id].status == Failed) {
        jobs := jobs[id := jobs[id].(finishedAt := Some(now))];
      }
    }

    method Shutdown()
      modifies this
      ensures View() == ShutdownRegion(old(View()))
      ensures shutdown && signalled == old(signalled) + jobs.Keys && jobs == old(jobs)
    {
      shutdown := true;
      signalled := signalled + jobs.Keys;
    }

    /** stats: one pass over the records. */
    method GetStats() returns (s: Stats)
      ensures Tally(jobs, s.counts)
      ensures s.total == |jobs|
      ensures s.failureCodes == failureCounts
    {
      var all := jobs;
      var counts := Counts(0, 0, 0, 0);
      var rest := all.Keys;
      ghost var seen: map<Id, JobRecord> := map[];
      while rest != {}
        invariant rest <= all.Keys && seen == all - rest
        invariant Tally(seen, counts)
        decreases rest
      {
        var id :| id in rest;
        rest := rest - {id};
        TallyStep(seen, id, all[id], counts);
        counts := Increment(counts, all[id].status);
        seen := seen[id := all[id]];
      }
      assert seen == all;
      s := Stats(|all|, counts, failureCounts);
    }
  }

  /** Each failure code is counted one up, from 0 when it is new, and no other count changes. */
  lemma BumpExact(counts: map<ErrorCode, nat>, c: ErrorCode, d: ErrorCode)
    ensures c in Bump(counts, c) && Bump(counts, c)[c] == if c in counts then counts[c] + 1 else 1
    ensures d != c ==> (d in Bump(counts, c) <==> d in counts) && (d in counts ==> Bump(counts, c)[d] == counts[d])
  {
  }

  /** The active jobs are the queued and the running ones. */
  lemma ActiveExact(jobs: map<Id, JobRecord>)
    ensures ActiveCount(jobs) == |Having(jobs, InStatus(Queued))| + |Having(jobs, InStatus(Running))|
  {
    var q, r := Having(jobs, InStatus(Queued)), Having(jobs, InStatus(Running));
    assert Having(jobs, IsActive) == q + r && q !! r;
  }

  /** Each counter is the number of jobs with its status. */
  ghost predicate Tally(jobs: map<Id, JobRecord>, c: Counts) {
    && c.queued == |Having(jobs, InStatus(Queued))|
    && c.running == |Having(jobs, InStatus(Running))|
    && c.succeeded == |Having(jobs, InStatus(Succeeded))|
    && c.failed == |Having(jobs, InStatus(Failed))|
  }

  lemma TallyStep(jobs: map<Id, JobRecord>, id: Id, r: JobRecord, c: Counts)
    requires id !in jobs && Tally(jobs, c)
    ensures Tally(jobs[id := r], Increment(c, r.status))
  {
    HavingUpdate(jobs, id, r, InStatus(Queued));
    HavingUpdate(jobs, id, r, InStatus(Running));
    HavingUpdate(jobs, id, r, InStatus(Succeeded));
    HavingUpdate(jobs, id, r, InStatus(Failed));
  }

  /** The four status counts of any job table sum to its size. */
  lemma {:induction false} StatusPartition(jobs: map<Id, JobRecord>, c: Counts)
    requires Tally(jobs, c)
    ensures c.queued + c.running + c.succeeded + c.failed == |jobs|
    decreases |jobs|
  {
    hide Tally;
    if jobs == map[] {
      TallyOfNone(c);
    } else {
      var id :| id in jobs;
      var rest := jobs - {id};
      assert jobs == rest[id := jobs[id]];
      assert |jobs| == |rest| + 1;
      var d := TallyExists(rest);
      TallyStep(rest, id, jobs[id], d);
      TallyUnique(jobs, c, Increment(d, jobs[id].status));
      StatusPartition(rest, d);
    }
  }

  lemma TallyOfNone(c: Counts)
    requires Tally(map[], c)
    ensures c == Counts(0, 0, 0, 0)
  {
    assert Having(map[], InStatus(Queued)) == {} && Having(map[], InStatus(Running)) == {};
    assert Having(map[], InStatus(Succeeded)) == {} && Having(map[], InStatus(Failed)) == {};
  }

  lemma TallyExists(jobs: map<Id, JobRecord>) returns (c: Counts)
    ensures Tally(jobs, c)
  {
    c := Counts(|Having(jobs, InStatus(Queued))|, |Having(jobs, InStatus(Running))|,
                |Having(jobs, InStatus(Succeeded))|, |Having(jobs, InStatus(Failed))|);
  }

  lemma TallyUnique(jobs: map<Id, JobRecord>, c: Counts, d: Counts)
    requires Tally(jobs, c) && Tally(jobs, d)
    ensures c == d
  {
  }

  function Empty(): Shared {
    Shared(map[], {}, {}, {}, map[], false)
  }

  /** Replacing one record moves a count by what the old and the new record contribute. */
  lemma HavingUpdate(jobs: map<Id, JobRecord>, id: Id, r: JobRecord, p: JobRecord -> bool)
    ensures |Having(jobs[id := r], p)|
         == |Having(jobs, p)| + (if p(r) then 1 else 0) - (if id in jobs && p(jobs[id]) then 1 else 0)
  {
    var s, s' := Having(jobs, p), Having(jobs[id := r], p);
    if p(r) {
      assert s' == s + {id};
    } else {
      assert s' == s - {id};
    }
  }
}
