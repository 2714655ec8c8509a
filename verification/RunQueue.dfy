/**
 The Redis run queue shared by API and worker processes. One Redis command, or one
 MULTI/EXEC pipeline, is one atomic function on the keys; the class computes the same.
 */
module RunQueue {
  import opened Wrappers
  import opened Models

  datatype Failure = Failure(code: ErrorCode, message: string, hint: string)

  /** The job hash. */
  datatype RunHash = RunHash(
    status: Status,
    createdAt: real,
    sessionId: string,
    target: string,
    request: string,
    startedAt: Option<real>,
    finishedAt: Option<real>,
    result: Option<string>,
    failure: Option<Failure>)

  datatype Request = Request(target: string, body: string)

  datatype Keys = Keys(
    pending: seq<Id>,
    jobs: map<Id, RunHash>,
    statusCounts: map<Status, int>,
    failureCodes: map<ErrorCode, int>,
    failuresByTarget: map<string, int>)

  /** HINCRBY, which starts a missing field at 0. */
  function Incr<K>(m: map<K, int>, k: K, amount: int): map<K, int> {
    m[k := Field(m, k) + amount]
  }

  function Field<K>(m: map<K, int>, k: K): int {
    if k in m then m[k] else 0
  }

  // ---------- Atomic commands ----------

  function EnqueueCmd(k: Keys, id: Id, req: Request, session: string, now: real): Keys {
    k.(jobs := k.jobs[id := RunHash(Queued, now, session, req.target, req.body, None, None, None, None)],
       pending := k.pending + [id],
       statusCounts := Incr(k.statusCounts, Queued, 1))
  }

  /** BLPOP. */
  function PopCmd(k: Keys): Keys
    requires k.pending != []
  {
    k.(pending := k.pending[1..])
  }

  function MarkHashCmd(k: Keys, id: Id, now: real): Keys
    requires id in k.jobs
  {
    k.(jobs := k.jobs[id := k.jobs[id].(status := Running, startedAt := Some(now))])
  }

  function MarkCountsCmd(k: Keys): Keys {
    k.(statusCounts := Incr(Incr(k.statusCounts, Queued, -1), Running, 1))
  }

  function SucceedCmd(k: Keys, id: Id, result: string, now: real): Keys
    requires id in k.jobs
  {
    k.(jobs := k.jobs[id := k.jobs[id].(status := Succeeded, finishedAt := Some(now), result := Some(result))],
       statusCounts := Incr(Incr(k.statusCounts, Running, -1), Succeeded, 1))
  }

  function FailCmd(k: Keys, id: Id, f: Failure, now: real): Keys
    requires id in k.jobs
  {
    k.(jobs := k.jobs[id := k.jobs[id].(status := Failed, finishedAt := Some(now), failure := Some(f))],
       statusCounts := Incr(Incr(k.statusCounts, Running, -1), Failed, 1),
       failureCodes := Incr(k.failureCodes, f.code, 1),
       failuresByTarget := if k.jobs[id].target == "" then k.failuresByTarget
                           else Incr(k.failuresByTarget, k.jobs[id].target, 1))
  }

  // ---------- What a run can end in ----------

  datatype Outcome =
    | Result(result: string)
    | Timeout
    | OverBudget(message: string)
    | Provider(code: Option<ErrorCode>, message: string, hint: string)
    | BadValue(message: string)
    | Crash(message: string)

  /** The exception handlers of _process_job, in order. */
  function FailureOf(o: Outcome): Failure
    requires !o.Result?
  {
    match o
    case Timeout => Failure(TimedOut, "Job exceeded timeout", "Reduce shot budget or wait for fewer concurrent jobs.")
    case OverBudget(m) => Failure(BudgetExhausted, m, "Lower the shot budget or wait for the session budget to reset.")
    case Provider(c, m, h) => Failure(if c.Some? then c.value else ProviderError, m, h)
    case BadValue(m) => Failure(InvalidRequest, m, "Verify the request payload and try again.")
    case Crash(m) => Failure(InternalError, m, "Check worker logs for details and retry after remediation.")
  }

  /** Every outcome ends in one completion command. */
  function CompleteCmd(k: Keys, id: Id, o: Outcome, now: real): Keys
    requires id in k.jobs
  {
    match o
    case Result(r) => SucceedCmd(k, id, r, now)
    case _ => FailCmd(k, id, FailureOf(o), now)
  }

  // ---------- The class ----------

  class RedisRunQueue {
    var pending: seq<Id>
    var jobs: map<Id, RunHash>
    var statusCounts: map<Status, int>
    var failureCodes: map<ErrorCode, int>
    var failuresByTarget: map<string, int>

    function View(): Keys
      reads this
    {
      Keys(pending, jobs, statusCounts, failureCodes, failuresByTarget)
    }

    constructor ()
      ensures View() == Keys([], map[], map[], map[], map[])
    {
      pending, jobs, statusCounts, failureCodes, failuresByTarget := [], map[], map[], map[], map[];
    }

    method Enqueue(id: Id, req: Request, session: string, now: real)
      modifies this
      ensures View() == EnqueueCmd(old(View()), id, req, session, now)
      ensures jobs == old(jobs)[id := RunHash(Queued, now, session, req.target, req.body, None, None, None, None)]
      ensures pending == old(pending) + [id]
    {
      jobs := jobs[id := RunHash(Queued, now, session, req.target, req.body, None, None, None, None)];
      pending := pending + [id];
      statusCounts := Incr(statusCounts, Queued, 1);
    }

    /** The BLPOP of claim_next; None when the wait times out on an empty list. */
    method Pop() returns (r: Option<Id>)
      modifies this
      ensures old(pending) == [] ==> r == None && View() == old(View())
      ensures old(pending) != [] ==> r == Some(old(pending)[0]) && View() == PopCmd(old(View()))
    {
      if pending == [] {
        return None;
      }
      r := Some(pending[0]);
      pending := pending[1..];
    }

    method MarkHash(id: Id, now: real)
      requires id in jobs
      modifies this
      ensures View() == MarkHashCmd(old(View()), id, now)
      ensures jobs == old(jobs)[id := old(jobs)[id].(status := Running, startedAt := Some(now))]
      ensures statusCounts == old(statusCounts) && pending == old(pending)
    {
      jobs := jobs[id := jobs[id].(status := Running, startedAt := Some(now))];
    }

    method MarkCounts()
      modifies this
      ensures View() == MarkCountsCmd(old(View()))
      ensures forall st :: Field(statusCounts, st)
                           == Field(old(statusCounts), st)
                              + (if st == Running then 1 else if st == Queued then -1 else 0)
      ensures jobs == old(jobs) && pending == old(pending)
    {
      statusCounts := Incr(statusCounts, Queued, -1);
      statusCounts := Incr(statusCounts, Running, 1);
    }

    method CompleteSuccess(id: Id, result: string, now: real)
      requires id in jobs
      modifies this
      ensures View() == SucceedCmd(old(View()), id, result, now)
      ensures var r := old(jobs)[id];
              jobs == old(jobs)[id := r.(status := Succeeded, finishedAt := Some(now), result := Some(result))]
      ensures forall st :: Field(statusCounts, st)
                           == Field(old(statusCounts), st)
                              + (if st == Succeeded then 1 else if st == Running then -1 else 0)
      ensures failureCodes == old(failureCodes) && failuresByTarget == old(failuresByTarget)
    {
      jobs := jobs[id := jobs[id].(status := Succeeded, finishedAt := Some(now), result := Some(result))];
      statusCounts := Incr(statusCounts, Running, -1);
      statusCounts := Incr(statusCounts, Succeeded, 1);
    }

    method CompleteFailure(id: Id, f: Failure, now: real)
      requires id in jobs
      modifies this
      ensures View() == FailCmd(old(View()), id, f, now)
      ensures jobs == old(jobs)[id := old(jobs)[id].(status := Failed, finishedAt := Some(now), failure := Some(f))]
      ensures forall st :: Field(statusCounts, st)
                           == Field(old(statusCounts), st)
                              + (if st == Failed then 1 else if st == Running then -1 else 0)
      ensures forall c :: Field(failureCodes, c) == Field(old(failureCodes), c) + (if c == f.code then 1 else 0)
      ensures forall t :: Field(failuresByTarget, t)
                          == Field(old(failuresByTarget), t)
                             + (if t == old(jobs)[id].target && t != "" then 1 else 0)
    {
      var target := jobs[id].target;
      jobs := jobs[id := jobs[id].(status := Failed, finishedAt := Some(now), failure := Some(f))];
      statusCounts := Incr(statusCounts, Running, -1);
      statusCounts := Incr(statusCounts, Failed, 1);
      failureCodes := Incr(failureCodes, f.code, 1);
      if target != "" {
        failuresByTarget := Incr(failuresByTarget, target, 1);
      }
    }

    /** stats: the status hash, a missing field counting 0, and the two failure hashes. */
    method GetStats() returns (s: Stats)
      ensures s == StatsOf(View())
    {
      var counts := View().statusCounts;
      var queued := if Queued in counts then counts[Queued] else 0;
      var running := if Running in counts then counts[Running] else 0;
      var succeeded := if Succeeded in counts then counts[Succeeded] else 0;
      var failed := if Failed in counts then counts[Failed] else 0;
      s := Stats(queued + running + succeeded + failed, queued, running, succeeded, failed,
                 failureCodes, failuresByTarget);
    }

    /** The exception handlers, one per way a run can fail. */
    method Classify(o: Outcome) returns (f: Failure)
      requires !o.Result?
      ensures f == FailureOf(o)
      ensures o.Timeout? ==> f.code == TimedOut && f.message == "Job exceeded timeout"
      ensures o.OverBudget? ==> f.code == BudgetExhausted && f.message == o.message
      ensures o.Provider? ==> f.code == (if o.code.Some? then o.code.value else ProviderError)
                              && f.message == o.message && f.hint == o.hint
      ensures o.BadValue? ==> f.code == InvalidRequest && f.message == o.message
      ensures o.Crash? ==> f.code == InternalError && f.message == o.message
    {
      match o
      case Timeout =>
        f := Failure(TimedOut, "Job exceeded timeout", "Reduce shot budget or wait for fewer concurrent jobs.");
      case OverBudget(m) =>
        f := Failure(BudgetExhausted, m, "Lower the shot budget or wait for the session budget to reset.");
      case Provider(c, m, h) =>
        f := Failure(if c.Some? then c.value else ProviderError, m, h);
      case BadValue(m) =>
        f := Failure(InvalidRequest, m, "Verify the request payload and try again.");
      case Crash(m) =>
        f := Failure(InternalError, m, "Check worker logs for details and retry after remediation.");
    }

    /** _process_job without interference: each way a run can end issues exactly one completion. */
    method ProcessJob(id: Id, o: Outcome, started: real, finished: real)
      requires id in jobs
      modifies this
      ensures View() == CompleteCmd(MarkCountsCmd(MarkHashCmd(old(View()), id, started)), id, o, finished)
      ensures jobs.Keys == old(jobs).Keys && forall j :: j in jobs && j != id ==> jobs[j] == old(jobs)[j]
      ensures jobs[id].startedAt == Some(started) && jobs[id].finishedAt == Some(finished)
      ensures o.Result? ==> jobs[id].status == Succeeded && jobs[id].result == Some(o.result)
      ensures !o.Result? ==> jobs[id].status == Failed && jobs[id].failure.Some?
      ensures o.Timeout? ==> jobs[id].failure.value.code == TimedOut
      ensures o.OverBudget? ==> jobs[id].failure.value.code == BudgetExhausted
      ensures o.Provider? ==> jobs[id].failure.value.code == if o.code.Some? then o.code.value else ProviderError
      ensures o.BadValue? ==> jobs[id].failure.value.code == InvalidRequest
      ensures o.Crash? ==> jobs[id].failure.value.code == InternalError
      ensures !o.Result? && !o.Timeout? ==> jobs[id].failure.value.message == o.message
    {
      hide Incr, SucceedCmd, FailCmd, FailureOf;
      MarkHash(id, started);
      MarkCounts();
      if o.Result? {
        CompleteSuccess(id, o.result, finished);
      } else {
        var f := Classify(o);
        CompleteFailure(id, f, finished);
      }
    }
  }

  datatype Stats = Stats(
    total: int,
    queued: int,
    running: int,
    succeeded: int,
    failed: int,
    failureCodes: map<ErrorCode, int>,
    failuresByTarget: map<string, int>)

  function StatsOf(k: Keys): Stats {
    var q, r := Field(k.statusCounts, Queued), Field(k.statusCounts, Running);
    var s, f := Field(k.statusCounts, Succeeded), Field(k.statusCounts, Failed);
    Stats(q + r + s + f, q, r, s, f, k.failureCodes, k.failuresByTarget)
  }

  // ---------- Interleavings ----------

  type Worker = nat

  /** Where a worker stands; MidMark is between the two writes of mark_running. */
  datatype Phase =
    | Idle
    | Popped(id: Id)
    | Claimed(id: Id)
    | MidMark(id: Id)
    | Working(id: Id)
    | Finished(id: Id, outcome: Outcome)

  /**
   The keys and the workers, with the history of the run: the order of enqueues and of
   claims, who popped each id, and how often each id was completed.
   */
  datatype System = System(
    keys: Keys,
    workers: map<Worker, Phase>,
    enqueued: seq<Id>,
    claimed: seq<Id>,
    owner: map<Id, Worker>,
    completions: multiset<Id>)

  datatype Event =
    | Enqueue(id: Id, req: Request, session: string, now: real)
    | Pop(w: Worker)
    | Read(w: Worker)
    | MarkHash(w: Worker, now: real)
    | MarkCounts(w: Worker)
    | RunEnds(w: Worker, outcome: Outcome)
    | Complete(w: Worker, now: real)

  predicate In(s: System, w: Worker, p: Phase) {
    w in s.workers && s.workers[w] == p
  }

  function Go(s: System, w: Worker, p: Phase): System {
    s.(workers := s.workers[w := p])
  }

  function DoEnqueue(s: System, id: Id, req: Request, session: string, now: real): System {
    if id !in s.keys.jobs
    then s.(keys := EnqueueCmd(s.keys, id, req, session, now), enqueued := s.enqueued + [id])
    else s
  }

  function DoPop(s: System, w: Worker): System {
    if In(s, w, Idle) && s.keys.pending != [] then
      var id := s.keys.pending[0];
      Go(s, w, Popped(id)).(keys := PopCmd(s.keys), claimed := s.claimed + [id], owner := s.owner[id := w])
    else s
  }

  /** HGETALL; a job without data would be dropped here. */
  function DoRead(s: System, w: Worker): System {
    if w in s.workers && s.workers[w].Popped?
    then Go(s, w, if s.workers[w].id in s.keys.jobs then Claimed(s.workers[w].id) else Idle)
    else s
  }

  function DoMarkHash(s: System, w: Worker, now: real): System {
    if w in s.workers && s.workers[w].Claimed? && s.workers[w].id in s.keys.jobs
    then Go(s, w, MidMark(s.workers[w].id)).(keys := MarkHashCmd(s.keys, s.workers[w].id, now))
    else s
  }

  function DoMarkCounts(s: System, w: Worker): System {
    if w in s.workers && s.workers[w].MidMark?
    then Go(s, w, Working(s.workers[w].id)).(keys := MarkCountsCmd(s.keys))
    else s
  }

  function DoRunEnds(s: System, w: Worker, o: Outcome): System {
    if w in s.workers && s.workers[w].Working? then Go(s, w, Finished(s.workers[w].id, o)) else s
  }

  function DoComplete(s: System, w: Worker, now: real): System {
    if w in s.workers && s.workers[w].Finished? && s.workers[w].id in s.keys.jobs
    then Go(s, w, Idle).(keys := CompleteCmd(s.keys, s.workers[w].id, s.workers[w].outcome, now),
                         completions := s.completions + multiset{s.workers[w].id})
    else s
  }

  function Step(s: System, e: Event): System {
    match e
    case Enqueue(id, req, session, now) => DoEnqueue(s, id, req, session, now)
    case Pop(w) => DoPop(s, w)
    case Read(w) => DoRead(s, w)
    case MarkHash(w, now) => DoMarkHash(s, w, now)
    case MarkCounts(w) => DoMarkCounts(s, w)
    case RunEnds(w, o) => DoRunEnds(s, w, o)
    case Complete(w, now) => DoComplete(s, w, now)
  }

  function Exec(s: System, run: seq<Event>): System {
    if run == [] then s else Step(Exec(s, run[..|run| - 1]), run[|run| - 1])
  }

  predicate Initial(s: System) {
    && s.keys == Keys([], map[], map[], map[], map[])
    && (forall w :: w in s.workers ==> s.workers[w] == Idle)
    && s.enqueued == [] && s.claimed == [] && s.owner == map[] && s.completions == multiset{}
  }

  // ---------- Invariants: FIFO and conservation ----------

  predicate Terminal(r: RunHash) {
    r.status == Succeeded || r.status == Failed
  }

  predicate Holds(p: Phase, id: Id) {
    !p.Idle? && p.id == id
  }

  predicate StatusFits(p: Phase, st: Status) {
    match p
    case Idle => true
    case Popped(_) => st == Queued
    case Claimed(_) => st == Queued
    case _ => st == Running
  }

  /** Claims follow the enqueue order: nothing is lost, duplicated or overtaken. */
  predicate Fifo(s: System) {
    s.claimed + s.keys.pending == s.enqueued
  }

  /** One id: enqueued once or never, and if claimed then completed once or still in its claimer's hand. */
  predicate IdOk(s: System, id: Id) {
    && multiset(s.enqueued)[id] == (if id in s.keys.jobs then 1 else 0)
    && multiset(s.claimed)[id] == (if id in s.owner then 1 else 0)
    && (id in s.owner ==> id in s.keys.jobs && s.owner[id] in s.workers)
    && s.completions[id] == (if id in s.keys.jobs && Terminal(s.keys.jobs[id]) then 1 else 0)
    && (id in s.keys.jobs && id !in s.owner ==> s.keys.jobs[id].status == Queued)
    && (id in s.owner && !Terminal(s.keys.jobs[id]) ==>
          Holds(s.workers[s.owner[id]], id) && StatusFits(s.workers[s.owner[id]], s.keys.jobs[id].status))
    && (id in s.keys.jobs ==> (s.keys.jobs[id].failure.Some? <==> s.keys.jobs[id].status == Failed))
  }

  /** A worker holds only an unfinished job that it popped itself. */
  predicate WorkerOk(s: System, w: Worker) {
    w in s.workers && !s.workers[w].Idle? ==>
      var id := s.workers[w].id;
      id in s.owner && s.owner[id] == w && id in s.keys.jobs && !Terminal(s.keys.jobs[id])
  }

  ghost predicate Inv(s: System) {
    Fifo(s) && (forall id :: IdOk(s, id)) && (forall w :: WorkerOk(s, w))
  }

  lemma InitialInv(s: System)
    requires Initial(s)
    ensures Inv(s)
  {
  }

  lemma EnqueueOk(s: System, id: Id, req: Request, session: string, now: real, j: Id, v: Worker)
    requires Fifo(s) && IdOk(s, j) && WorkerOk(s, v)
    ensures var s' := DoEnqueue(s, id, req, session, now); Fifo(s') && IdOk(s', j) && WorkerOk(s', v)
  {
    if id !in s.keys.jobs {
      assert s.claimed + (s.keys.pending + [id]) == (s.claimed + s.keys.pending) + [id];
    }
  }

  lemma PopOk(s: System, w: Worker, j: Id, v: Worker)
    requires Inv(s)
    ensures var s' := DoPop(s, w); Fifo(s') && IdOk(s', j) && WorkerOk(s', v)
  {
    assert IdOk(s, j) && WorkerOk(s, v);
    if In(s, w, Idle) && s.keys.pending != [] {
      var id := s.keys.pending[0];
      assert IdOk(s, id);
      assert s.keys.pending == [id] + s.keys.pending[1..];
      assert s.claimed + s.keys.pending == (s.claimed + [id]) + s.keys.pending[1..];
      assert multiset(s.enqueued) == multiset(s.claimed) + multiset(s.keys.pending);
      assert multiset(s.keys.pending)[id] > 0;
    }
  }

  lemma WorkerStepOk(s: System, e: Event, j: Id, v: Worker)
    requires e.Read? || e.MarkHash? || e.MarkCounts? || e.RunEnds?
    requires Fifo(s) && IdOk(s, j) && WorkerOk(s, v) && WorkerOk(s, e.w)
    ensures Fifo(Step(s, e)) && IdOk(Step(s, e), j) && WorkerOk(Step(s, e), v)
  {
    hide DoEnqueue, DoPop, DoComplete, DoRead, DoMarkHash, DoMarkCounts, DoRunEnds, Fifo, IdOk, WorkerOk;
    match e
    case Enqueue(id, req, session, now) =>
    case Pop(w) =>
    case Read(w) => ReadOk(s, w, j, v);
    case MarkHash(w, now) => MarkHashOk(s, w, now, j, v);
    case MarkCounts(w) => MarkCountsOk(s, w, j, v);
    case RunEnds(w, o) => RunEndsOk(s, w, o, j, v);
    case Complete(w, now) =>
  }

  lemma ReadOk(s: System, w: Worker, j: Id, v: Worker)
    requires Fifo(s) && IdOk(s, j) && WorkerOk(s, v) && WorkerOk(s, w)
    ensures var s' := DoRead(s, w); Fifo(s') && IdOk(s', j) && WorkerOk(s', v)
  {
  }

  lemma MarkHashOk(s: System, w: Worker, now: real, j: Id, v: Worker)
    requires Fifo(s) && IdOk(s, j) && WorkerOk(s, v) && WorkerOk(s, w)
    ensures var s' := DoMarkHash(s, w, now); Fifo(s') && IdOk(s', j) && WorkerOk(s', v)
  {
  }

  lemma MarkCountsOk(s: System, w: Worker, j: Id, v: Worker)
    requires Fifo(s) && IdOk(s, j) && WorkerOk(s, v) && WorkerOk(s, w)
    ensures var s' := DoMarkCounts(s, w); Fifo(s') && IdOk(s', j) && WorkerOk(s', v)
  {
  }

  lemma RunEndsOk(s: System, w: Worker, o: Outcome, j: Id, v: Worker)
    requires Fifo(s) && IdOk(s, j) && WorkerOk(s, v) && WorkerOk(s, w)
    ensures var s' := DoRunEnds(s, w, o); Fifo(s') && IdOk(s', j) && WorkerOk(s', v)
  {
  }

  lemma CompleteOk(s: System, w: Worker, now: real, j: Id, v: Worker)
    requires Fifo(s) && IdOk(s, j) && WorkerOk(s, v) && WorkerOk(s, w)
    ensures var s' := DoComplete(s, w, now); Fifo(s') && IdOk(s', j) && WorkerOk(s', v)
  {
    hide FailureOf, Incr;
  }

  lemma StepOk(s: System, e: Event, j: Id, v: Worker)
    requires Inv(s)
    ensures Fifo(Step(s, e)) && IdOk(Step(s, e), j) && WorkerOk(Step(s, e), v)
  {
    assert IdOk(s, j) && WorkerOk(s, v);
    match e
    case Enqueue(id, req, session, now) => EnqueueOk(s, id, req, session, now, j, v);
    case Pop(w) => PopOk(s, w, j, v);
    case Complete(w, now) => assert WorkerOk(s, w); CompleteOk(s, w, now, j, v);
    case _ => assert WorkerOk(s, e.w); WorkerStepOk(s, e, j, v);
  }

  lemma StepInv(s: System, e: Event)
    requires Inv(s)
    ensures Inv(Step(s, e))
  {
    StepOk(s, e, "", 0);
    forall j
      ensures IdOk(Step(s, e), j)
    {
      StepOk(s, e, j, 0);
    }
    forall v
      ensures WorkerOk(Step(s, e), v)
    {
      StepOk(s, e, "", v);
    }
  }

  lemma {:induction false} ExecInv(s: System, run: seq<Event>)
    requires Initial(s)
    ensures Inv(Exec(s, run))
    decreases |run|
  {
    if run == [] {
      InitialInv(s);
    } else {
      ExecInv(s, run[..|run| - 1]);
      StepInv(Exec(s, run[..|run| - 1]), run[|run| - 1]);
    }
  }

  /** With any number of API and worker processes, claimed ids then pending ids are the enqueue order. */
  lemma {:induction false} ClaimsAreFifo(s: System, run: seq<Event>)
    requires Initial(s)
    ensures var t := Exec(s, run); t.claimed + t.keys.pending == t.enqueued
  {
    ExecInv(s, run);
  }

  /**
   Conservation: in every reachable state an enqueued job is pending and untouched, or in
   the hand of exactly one worker and not completed, or completed exactly once and in no hand.
   */
  lemma {:induction false} Conservation(s: System, run: seq<Event>, id: Id)
    requires Initial(s)
    ensures var t := Exec(s, run);
            && t.completions[id] <= 1
            && (t.completions[id] == 1 <==> id in t.keys.jobs && Terminal(t.keys.jobs[id]))
            && multiset(t.enqueued)[id] == multiset(t.claimed)[id] + multiset(t.keys.pending)[id] <= 1
            && (id in t.claimed && t.completions[id] == 0 ==>
                  exists w :: w in t.workers && Holds(t.workers[w], id))
            && (forall w, v :: w in t.workers && v in t.workers && Holds(t.workers[w], id) && Holds(t.workers[v], id)
                  ==> w == v && id in t.claimed && t.completions[id] == 0)
  {
    ExecInv(s, run);
    var t := Exec(s, run);
    assert IdOk(t, id);
    assert multiset(t.claimed + t.keys.pending) == multiset(t.claimed) + multiset(t.keys.pending);
    if id in t.claimed && t.completions[id] == 0 {
      assert multiset(t.claimed)[id] > 0;
      assert Holds(t.workers[t.owner[id]], id);
    }
    forall w, v | w in t.workers && v in t.workers && Holds(t.workers[w], id) && Holds(t.workers[v], id)
      ensures w == v && id in t.claimed && t.completions[id] == 0
    {
      assert WorkerOk(t, w) && WorkerOk(t, v);
      assert multiset(t.claimed)[id] == 1;
    }
  }

  // ---------- Counters ----------

  ghost function Having(jobs: map<Id, RunHash>, p: RunHash -> bool): set<Id> {
    set id | id in jobs && p(jobs[id])
  }

  function InStatus(st: Status): RunHash -> bool {
    (r: RunHash) => r.status == st
  }

  function FailedWith(c: ErrorCode): RunHash -> bool {
    (r: RunHash) => r.status == Failed && r.failure.Some? && r.failure.value.code == c
  }

  function FailedOn(target: string): RunHash -> bool {
    (r: RunHash) => r.status == Failed && r.target == target
  }

  lemma HavingUpdate(jobs: map<Id, RunHash>, id: Id, r: RunHash, p: RunHash -> bool)
    ensures |Having(jobs[id := r], p)|
         == |Having(jobs, p)| + (if p(r) then 1 else 0) - (if id in jobs && p(jobs[id]) then 1 else 0)
  {
    var a, b := Having(jobs, p), Having(jobs[id := r], p);
    if p(r) {
      assert b == a + {id};
    } else {
      assert b == a - {id};
    }
  }

  /** Workers between the two writes of mark_running. */
  ghost function Mid(workers: map<Worker, Phase>): set<Worker> {
    set w | w in workers && workers[w].MidMark?
  }

  lemma MidUpdate(workers: map<Worker, Phase>, w: Worker, p: Phase)
    requires w in workers
    ensures |Mid(workers[w := p])|
         == |Mid(workers)| + (if p.MidMark? then 1 else 0) - (if workers[w].MidMark? then 1 else 0)
  {
    if p.MidMark? {
      assert Mid(workers[w := p]) == Mid(workers) + {w};
    } else {
      assert Mid(workers[w := p]) == Mid(workers) - {w};
    }
  }

  function Offset(st: Status): int {
    match st
    case Queued => 1
    case Running => -1
    case _ => 0
  }

  /** A status counter is the histogram entry, off by one unit per worker in the middle of mark_running. */
  ghost predicate StatusExact(s: System, st: Status) {
    Field(s.keys.statusCounts, st) == |Having(s.keys.jobs, InStatus(st))| + Offset(st) * |Mid(s.workers)|
  }

  ghost predicate CodeExact(k: Keys, c: ErrorCode) {
    Field(k.failureCodes, c) == |Having(k.jobs, FailedWith(c))|
  }

  ghost predicate TargetExact(k: Keys, t: string) {
    t != "" ==> Field(k.failuresByTarget, t) == |Having(k.jobs, FailedOn(t))|
  }

  lemma EnqueueCounts(s: System, id: Id, req: Request, session: string, now: real, st: Status)
    requires StatusExact(s, st)
    ensures StatusExact(DoEnqueue(s, id, req, session, now), st)
  {
    if id !in s.keys.jobs {
      var s' := DoEnqueue(s, id, req, session, now);
      HavingUpdate(s.keys.jobs, id, s'.keys.jobs[id], InStatus(st));
    }
  }

  lemma PopCounts(s: System, w: Worker, st: Status)
    requires StatusExact(s, st)
    ensures StatusExact(DoPop(s, w), st)
  {
    if In(s, w, Idle) && s.keys.pending != [] {
      MidUpdate(s.workers, w, Popped(s.keys.pending[0]));
    }
  }

  lemma ReadCounts(s: System, w: Worker, st: Status)
    requires StatusExact(s, st)
    ensures StatusExact(DoRead(s, w), st)
  {
    if w in s.workers && s.workers[w].Popped? {
      MidUpdate(s.workers, w, DoRead(s, w).workers[w]);
    }
  }

  lemma MarkHashCounts(s: System, w: Worker, now: real, st: Status)
    requires StatusExact(s, st)
    requires w in s.workers && s.workers[w].Claimed? && s.workers[w].id in s.keys.jobs
             ==> s.keys.jobs[s.workers[w].id].status == Queued
    ensures StatusExact(DoMarkHash(s, w, now), st)
  {
    if w in s.workers && s.workers[w].Claimed? && s.workers[w].id in s.keys.jobs {
      var id := s.workers[w].id;
      MidUpdate(s.workers, w, MidMark(id));
      HavingUpdate(s.keys.jobs, id, DoMarkHash(s, w, now).keys.jobs[id], InStatus(st));
    }
  }

  lemma MarkCountsCounts(s: System, w: Worker, st: Status)
    requires StatusExact(s, st)
    ensures StatusExact(DoMarkCounts(s, w), st)
  {
    if w in s.workers && s.workers[w].MidMark? {
      MidUpdate(s.workers, w, Working(s.workers[w].id));
    }
  }

  lemma RunEndsCounts(s: System, w: Worker, o: Outcome, st: Status)
    requires StatusExact(s, st)
    ensures StatusExact(DoRunEnds(s, w, o), st)
  {
    if w in s.workers && s.workers[w].Working? {
      MidUpdate(s.workers, w, Finished(s.workers[w].id, o));
    }
  }

  lemma CompleteCounts(s: System, w: Worker, now: real, st: Status)
    requires StatusExact(s, st)
    requires w in s.workers && s.workers[w].Finished? && s.workers[w].id in s.keys.jobs
             ==> s.keys.jobs[s.workers[w].id].status == Running
    ensures StatusExact(DoComplete(s, w, now), st)
  {
    if w in s.workers && s.workers[w].Finished? && s.workers[w].id in s.keys.jobs {
      var id := s.workers[w].id;
      MidUpdate(s.workers, w, Idle);
      hide FailureOf, Mid;
      HavingUpdate(s.keys.jobs, id, DoComplete(s, w, now).keys.jobs[id], InStatus(st));
    }
  }

  lemma StepStatusCounts(s: System, e: Event, st: Status)
    requires Inv(s) && StatusExact(s, st)
    ensures StatusExact(Step(s, e), st)
  {
    match e
    case Enqueue(id, req, session, now) => EnqueueCounts(s, id, req, session, now, st);
    case Pop(w) => PopCounts(s, w, st);
    case Read(w) => ReadCounts(s, w, st);
    case MarkHash(w, now) => HolderStatus(s, w); MarkHashCounts(s, w, now, st);
    case MarkCounts(w) => MarkCountsCounts(s, w, st);
    case RunEnds(w, o) => RunEndsCounts(s, w, o, st);
    case Complete(w, now) => HolderStatus(s, w); CompleteCounts(s, w, now, st);
  }

  lemma HolderStatus(s: System, w: Worker)
    requires Inv(s)
    ensures w in s.workers && !s.workers[w].Idle? ==>
              s.workers[w].id in s.keys.jobs && StatusFits(s.workers[w], s.keys.jobs[s.workers[w].id].status)
  {
    assert WorkerOk(s, w);
    if w in s.workers && !s.workers[w].Idle? {
      assert IdOk(s, s.workers[w].id);
    }
  }

  lemma WriteCounts(k: Keys, id: Id, r: RunHash, c: ErrorCode, t: string)
    requires CodeExact(k, c) && TargetExact(k, t)
    requires r.status != Failed && (id in k.jobs ==> k.jobs[id].status != Failed)
    ensures CodeExact(k.(jobs := k.jobs[id := r]), c) && TargetExact(k.(jobs := k.jobs[id := r]), t)
  {
    HavingUpdate(k.jobs, id, r, FailedWith(c));
    HavingUpdate(k.jobs, id, r, FailedOn(t));
  }

  lemma FailCounts(k: Keys, id: Id, f: Failure, now: real, c: ErrorCode, t: string)
    requires CodeExact(k, c) && TargetExact(k, t) && id in k.jobs && k.jobs[id].status != Failed
    ensures CodeExact(FailCmd(k, id, f, now), c) && TargetExact(FailCmd(k, id, f, now), t)
  {
    var r := FailCmd(k, id, f, now).jobs[id];
    HavingUpdate(k.jobs, id, r, FailedWith(c));
    HavingUpdate(k.jobs, id, r, FailedOn(t));
  }

  lemma CompleteFailureCounts(k: Keys, id: Id, o: Outcome, now: real, c: ErrorCode, t: string)
    requires CodeExact(k, c) && TargetExact(k, t) && id in k.jobs && k.jobs[id].status == Running
    ensures CodeExact(CompleteCmd(k, id, o, now), c) && TargetExact(CompleteCmd(k, id, o, now), t)
  {
    if o.Result? {
      hide FailCmd;
      WriteCounts(k, id, SucceedCmd(k, id, o.result, now).jobs[id], c, t);
    } else {
      hide SucceedCmd, FailureOf;
      FailCounts(k, id, FailureOf(o), now, c, t);
    }
  }

  lemma StepFailureCounts(s: System, e: Event, c: ErrorCode, t: string)
    requires Inv(s) && CodeExact(s.keys, c) && TargetExact(s.keys, t)
    ensures CodeExact(Step(s, e).keys, c) && TargetExact(Step(s, e).keys, t)
  {
    hide CompleteCmd;
    match e
    case Enqueue(id, req, session, now) =>
      if id !in s.keys.jobs {
        WriteCounts(s.keys, id, Step(s, e).keys.jobs[id], c, t);
      }
    case MarkHash(w, now) =>
      HolderStatus(s, w);
      if w in s.workers && s.workers[w].Claimed? {
        var id := s.workers[w].id;
        WriteCounts(s.keys, id, Step(s, e).keys.jobs[id], c, t);
      }
    case Complete(w, now) =>
      HolderStatus(s, w);
      if w in s.workers && s.workers[w].Finished? {
        CompleteFailureCounts(s.keys, s.workers[w].id, s.workers[w].outcome, now, c, t);
      }
    case _ =>
  }

  /**
   In every reachable state each status counter equals the number of jobs with that status,
   plus (queued) or minus (running) one per worker between the two writes of mark_running.
   */
  lemma {:induction false} StatusCountersExact(s: System, run: seq<Event>, st: Status)
    requires Initial(s)
    ensures StatusExact(Exec(s, run), st)
    decreases |run|
  {
    if run == [] {
      assert Having(s.keys.jobs, InStatus(st)) == {} && Mid(s.workers) == {};
    } else {
      var front := run[..|run| - 1];
      StatusCountersExact(s, front, st);
      ExecInv(s, front);
      StepStatusCounts(Exec(s, front), run[|run| - 1], st);
    }
  }

  /** Failure counters, per code and per named target, equal the numbers of such FAILED jobs. */
  lemma {:induction false} FailureCountersExact(s: System, run: seq<Event>, c: ErrorCode, t: string)
    requires Initial(s)
    ensures CodeExact(Exec(s, run).keys, c) && TargetExact(Exec(s, run).keys, t)
    decreases |run|
  {
    if run == [] {
      assert Having(s.keys.jobs, FailedWith(c)) == {} && Having(s.keys.jobs, FailedOn(t)) == {};
    } else {
      var front := run[..|run| - 1];
      FailureCountersExact(s, front, c, t);
      ExecInv(s, front);
      StepFailureCounts(Exec(s, front), run[|run| - 1], c, t);
    }
  }

  // ---------- The failure-code counters sum to the failed count ----------

  function SumCodes(m: map<ErrorCode, int>): int {
    Field(m, AuthRequired) + Field(m, RemoteDisabled) + Field(m, ProviderSimDisabled) + Field(m, ProviderCredentials)
    + Field(m, ProviderCapacity) + Field(m, ProviderQueueBackpressure)
    + Field(m, InvalidTarget) + Field(m, InvalidRequest)
    + Field(m, BudgetExhausted) + Field(m, RateLimited) + Field(m, BudgetGuardrail) + Field(m, TimedOut)
    + Field(m, Cancelled) + Field(m, InternalError) + Field(m, ProviderError)
  }

  lemma FieldIncr(m: map<ErrorCode, int>, c: ErrorCode, k: ErrorCode)
    ensures Field(Incr(m, c, 1), k) == Field(m, k) + if k == c then 1 else 0
  {
  }

  lemma SumIncr(m: map<ErrorCode, int>, c: ErrorCode)
    ensures SumCodes(Incr(m, c, 1)) == SumCodes(m) + 1
  {
    forall k: ErrorCode
      ensures Field(Incr(m, c, 1), k) == Field(m, k) + if k == c then 1 else 0
    {
      FieldIncr(m, c, k);
    }
    hide Incr, Field;
    match c
    case AuthRequired => case RemoteDisabled => case ProviderSimDisabled => case ProviderCredentials =>
    case ProviderCapacity => case ProviderQueueBackpressure => case InvalidTarget => case InvalidRequest =>
    case BudgetExhausted => case RateLimited => case BudgetGuardrail => case TimedOut =>
    case Cancelled => case InternalError => case ProviderError =>
  }

  ghost predicate SumExact(k: Keys) {
    SumCodes(k.failureCodes) == Field(k.statusCounts, Failed)
  }

  lemma CompleteSum(k: Keys, id: Id, o: Outcome, now: real)
    requires SumExact(k) && id in k.jobs
    ensures SumExact(CompleteCmd(k, id, o, now))
  {
    if !o.Result? {
      SumIncr(k.failureCodes, FailureOf(o).code);
    }
  }

  lemma StepSum(s: System, e: Event)
    requires SumExact(s.keys)
    ensures SumExact(Step(s, e).keys)
  {
    hide SumCodes, CompleteCmd;
    match e
    case Complete(w, now) =>
      if w in s.workers && s.workers[w].Finished? && s.workers[w].id in s.keys.jobs {
        CompleteSum(s.keys, s.workers[w].id, s.workers[w].outcome, now);
      }
    case _ =>
  }

  /** The failure-code counters always sum to the failed counter. */
  lemma {:induction false} CodesSumToFailed(s: System, run: seq<Event>)
    requires Initial(s)
    ensures SumExact(Exec(s, run).keys)
    decreases |run|
  {
    if run != [] {
      CodesSumToFailed(s, run[..|run| - 1]);
      StepSum(Exec(s, run[..|run| - 1]), run[|run| - 1]);
    }
  }

  // ---------- What stats reports ----------

  lemma CommandTotals(k: Keys, id: Id, req: Request, session: string, now: real)
    ensures StatsOf(EnqueueCmd(k, id, req, session, now)).total == StatsOf(k).total + 1
    ensures StatsOf(MarkCountsCmd(k)).total == StatsOf(k).total
    ensures id in k.jobs ==> StatsOf(MarkHashCmd(k, id, now)).total == StatsOf(k).total
  {
  }

  lemma CompletionTotals(k: Keys, id: Id, o: Outcome, now: real)
    requires id in k.jobs
    ensures StatsOf(CompleteCmd(k, id, o, now)).total == StatsOf(k).total
    ensures CompleteCmd(k, id, o, now).jobs.Keys == k.jobs.Keys
  {
    hide FailureOf;
    if o.Result? {
      hide FailCmd;
    } else {
      hide SucceedCmd;
    }
  }

  lemma StepTotal(s: System, e: Event)
    requires StatsOf(s.keys).total == |s.keys.jobs|
    ensures StatsOf(Step(s, e).keys).total == |Step(s, e).keys.jobs|
  {
    hide StatsOf, CompleteCmd;
    match e
    case Enqueue(id, req, session, now) => CommandTotals(s.keys, id, req, session, now);
    case MarkHash(w, now) =>
      if w in s.workers && s.workers[w].Claimed? && s.workers[w].id in s.keys.jobs {
        var id := s.workers[w].id;
        CommandTotals(s.keys, id, Request("", ""), "", now);
        assert MarkHashCmd(s.keys, id, now).jobs.Keys == s.keys.jobs.Keys;
        SameKeysSameSize(MarkHashCmd(s.keys, id, now).jobs, s.keys.jobs);
      }
    case MarkCounts(w) => CommandTotals(s.keys, "", Request("", ""), "", 0.0);
    case Complete(w, now) =>
      if w in s.workers && s.workers[w].Finished? && s.workers[w].id in s.keys.jobs {
        var id, o := s.workers[w].id, s.workers[w].outcome;
        CompletionTotals(s.keys, id, o, now);
        SameKeysSameSize(CompleteCmd(s.keys, id, o, now).jobs, s.keys.jobs);
      }
    case Pop(w) => TotalOfCounts(Step(s, e).keys, s.keys);
    case _ =>
  }

  lemma TotalOfCounts(k: Keys, k': Keys)
    ensures k.statusCounts == k'.statusCounts ==> StatsOf(k).total == StatsOf(k').total
  {
  }

  lemma SameKeysSameSize(a: map<Id, RunHash>, b: map<Id, RunHash>)
    requires a.Keys == b.Keys
    ensures |a| == |b|
  {
    assert |a| == |a.Keys| && |b| == |b.Keys|;
  }

  /** The total that stats reports is the number of jobs, also in the middle of a mark_running. */
  lemma {:induction false} StatsTotalExact(s: System, run: seq<Event>)
    requires Initial(s)
    ensures StatsOf(Exec(s, run).keys).total == |Exec(s, run).keys.jobs|
    decreases |run|
  {
    if run != [] {
      var front := run[..|run| - 1];
      StatsTotalExact(s, front);
      StepTotal(Exec(s, front), run[|run| - 1]);
    }
  }

  /** What the counts of stats mean: each against the jobs that have that status. */
  ghost predicate CountsMean(k: Keys, mid: nat) {
    var st := StatsOf(k);
    && st.total == |k.jobs|
    && st.queued == |Having(k.jobs, InStatus(Queued))| + mid
    && st.running == |Having(k.jobs, InStatus(Running))| - mid
    && st.succeeded == |Having(k.jobs, InStatus(Succeeded))|
    && st.failed == |Having(k.jobs, InStatus(Failed))|
    && SumCodes(st.failureCodes) == st.failed
  }

  /** What its two maps mean, for one code and one named target. */
  ghost predicate MapsMean(k: Keys, c: ErrorCode, t: string) {
    && Field(StatsOf(k).failureCodes, c) == |Having(k.jobs, FailedWith(c))|
    && (t != "" ==> Field(StatsOf(k).failuresByTarget, t) == |Having(k.jobs, FailedOn(t))|)
  }

  lemma CountsMeanFrom(s: System)
    requires StatsOf(s.keys).total == |s.keys.jobs| && SumExact(s.keys)
    requires StatusExact(s, Queued) && StatusExact(s, Running) && StatusExact(s, Succeeded) && StatusExact(s, Failed)
    ensures CountsMean(s.keys, |Mid(s.workers)|)
  {
    hide Having, SumCodes, Field, Mid;
  }

  /**
   In every reachable state stats reports the number of jobs in each status, except that one
   job per worker in the middle of mark_running counts as queued and not as running; its
   failure codes sum to the failed count, and both failure maps are exact.
   */
  lemma {:induction false} StatsExact(s: System, run: seq<Event>, c: ErrorCode, t: string)
    requires Initial(s)
    ensures CountsMean(Exec(s, run).keys, |Mid(Exec(s, run).workers)|)
    ensures MapsMean(Exec(s, run).keys, c, t)
  {
    hide Exec, StatusExact, SumExact, CountsMean, Initial, Having, Field, Mid;
    StatsTotalExact(s, run);
    StatusCountersExact(s, run, Queued);
    StatusCountersExact(s, run, Running);
    StatusCountersExact(s, run, Succeeded);
    StatusCountersExact(s, run, Failed);
    CodesSumToFailed(s, run);
    CountsMeanFrom(Exec(s, run));
    FailureCountersExact(s, run, c, t);
  }
}
