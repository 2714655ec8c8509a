/** Where the outcome and the schedule of every agent job come from, over all interleavings. */
module AgentOutcomes {
  import opened Wrappers
  import opened AgentStore
  import opened AgentProtocol

  // ---------- Events that take effect ----------

  /** Event i is run number a of the job, and ends with outcome o. */
  ghost predicate RanAt(s: System, run: seq<Event>, i: nat, id: Id, o: Outcome, a: nat) {
    && i < |run| && run[i].Run? && run[i].outcome == o
    && var ph := PhaseOf(Exec(s, run[..i]), run[i].p);
       ph.Counted? && ph.id == id && ph.attempt == a
  }

  ghost predicate Ran(s: System, run: seq<Event>, id: Id, o: Outcome, a: nat) {
    exists i: nat :: RanAt(s, run, i, id, o, a)
  }

  ghost predicate Requested(run: seq<Event>, id: Id) {
    exists i :: 0 <= i < |run| && run[i] == RequestCancel(id)
  }

  function Limit(maxAttempts: int): int {
    if maxAttempts == 0 then 3 else maxAttempts
  }

  /** The error of a job that failed for good: the outcome of one of its runs, with no retry left. */
  ghost predicate FailedBy(s: System, run: seq<Event>, id: Id, e: ErrorInfo, maxAttempts: int) {
    exists o, a :: Ran(s, run, id, o, a) && FinalOf(o, a, e, maxAttempts)
  }

  predicate FinalOf(o: Outcome, a: nat, e: ErrorInfo, maxAttempts: int) {
    && !o.Ok?
    && (o.Hung? ==> e.code == "timeout")
    && (o.NoPayload? ==> e.code == "worker_error")
    && (o.Error? ==> e == ErrorInfo("agent_failed", o.message) && (!o.transient || a >= Limit(maxAttempts)))
  }

  /** A run of the job ended in a transient error, with a retry left. */
  ghost predicate Transient(s: System, run: seq<Event>, id: Id, maxAttempts: int) {
    exists m: string, a: nat :: Ran(s, run, id, Error(true, m), a) && a < Limit(maxAttempts)
  }

  // ---------- What the records and the processes know ----------

  ghost predicate JobKnown(s: System, run: seq<Event>, t: System, id: Id) {
    && (id in t.keys.jobs ==>
          var r := t.keys.jobs[id];
          && (r.result.Some? ==> exists a: nat :: Ran(s, run, id, Outcome.Ok(r.result.value), a))
          && (r.status == Failed ==> r.error.Some? && FailedBy(s, run, id, r.error.value, r.maxAttempts))
          && (r.cancelRequested || r.status == Cancelled ==> Requested(run, id))
          && (id in t.notBefore ==> Transient(s, run, id, r.maxAttempts)))
  }

  ghost predicate ProcKnown(s: System, run: seq<Event>, t: System, p: Proc) {
    match PhaseOf(t, p)
    case Loaded(id, snap) => snap.cancelRequested ==> Requested(run, id)
    case Ended(id, _, a, o) => Ran(s, run, id, o, a)
    case ErrorSet(id) =>
      id in t.keys.jobs && t.keys.jobs[id].error.Some?
      && FailedBy(s, run, id, t.keys.jobs[id].error.value, t.keys.jobs[id].maxAttempts)
    case RetrySet(id, _) => id in t.keys.jobs && Transient(s, run, id, t.keys.jobs[id].maxAttempts)
    case Requeued(id, _) => id in t.keys.jobs && Transient(s, run, id, t.keys.jobs[id].maxAttempts)
    case DueRead(id, _) => id in t.keys.jobs && Transient(s, run, id, t.keys.jobs[id].maxAttempts)
    case _ => true
  }

  // ---------- Knowledge is kept as the run grows ----------

  lemma RanLater(s: System, front: seq<Event>, e: Event, id: Id, o: Outcome, a: nat)
    requires Ran(s, front, id, o, a)
    ensures Ran(s, front + [e], id, o, a)
  {
    var i: nat :| RanAt(s, front, i, id, o, a);
    assert (front + [e])[..i] == front[..i];
    assert RanAt(s, front + [e], i, id, o, a);
  }

  lemma RequestedLater(front: seq<Event>, e: Event, id: Id)
    requires Requested(front, id)
    ensures Requested(front + [e], id)
  {
    var i :| 0 <= i < |front| && front[i] == RequestCancel(id);
    assert (front + [e])[i] == RequestCancel(id);
  }

  lemma FailedLater(s: System, front: seq<Event>, e: Event, id: Id, err: ErrorInfo, m: int)
    requires FailedBy(s, front, id, err, m)
    ensures FailedBy(s, front + [e], id, err, m)
  {
    var o, a :| Ran(s, front, id, o, a) && FinalOf(o, a, err, m);
    RanLater(s, front, e, id, o, a);
  }

  lemma TransientLater(s: System, front: seq<Event>, e: Event, id: Id, m: int)
    requires Transient(s, front, id, m)
    ensures Transient(s, front + [e], id, m)
  {
    var x: string, a: nat :| Ran(s, front, id, Error(true, x), a) && a < Limit(m);
    RanLater(s, front, e, id, Error(true, x), a);
  }

  lemma JobKnownLater(s: System, front: seq<Event>, e: Event, t: System, id: Id)
    requires JobKnown(s, front, t, id)
    ensures JobKnown(s, front + [e], t, id)
  {
    hide Ran, FailedBy, Transient, Requested;
    if id in t.keys.jobs {
      var r := t.keys.jobs[id];
      if r.result.Some? {
        var a: nat :| Ran(s, front, id, Outcome.Ok(r.result.value), a);
        RanLater(s, front, e, id, Outcome.Ok(r.result.value), a);
      }
      if r.status == Failed {
        FailedLater(s, front, e, id, r.error.value, r.maxAttempts);
      }
      if r.cancelRequested || r.status == Cancelled {
        RequestedLater(front, e, id);
      }
      if id in t.notBefore {
        TransientLater(s, front, e, id, r.maxAttempts);
      }
    }
  }

  lemma ProcKnownLater(s: System, front: seq<Event>, e: Event, t: System, p: Proc)
    requires ProcKnown(s, front, t, p)
    ensures ProcKnown(s, front + [e], t, p)
  {
    hide Ran, FailedBy, Transient, Requested;
    match PhaseOf(t, p)
    case Loaded(id, snap) => if snap.cancelRequested { RequestedLater(front, e, id); }
    case Ended(id, _, a, o) => RanLater(s, front, e, id, o, a);
    case ErrorSet(id) => FailedLater(s, front, e, id, t.keys.jobs[id].error.value, t.keys.jobs[id].maxAttempts);
    case RetrySet(id, _) => TransientLater(s, front, e, id, t.keys.jobs[id].maxAttempts);
    case Requeued(id, _) => TransientLater(s, front, e, id, t.keys.jobs[id].maxAttempts);
    case DueRead(id, _) => TransientLater(s, front, e, id, t.keys.jobs[id].maxAttempts);
    case _ =>
  }

  // ---------- Each command ----------

  /** A record that changes neither outcome fields nor into a failed or cancelled status. */
  predicate Quiet(r: AgentJob, r': AgentJob) {
    && r'.result == r.result && r'.maxAttempts == r.maxAttempts
    && (r'.status == Failed ==> r.status == Failed && r'.error == r.error)
    && (r'.cancelRequested ==> r.cancelRequested)
    && (r'.status == Cancelled ==> r.status == Cancelled)
  }

  lemma QuietKnown(s: System, run: seq<Event>, m: System, t: System, id: Id)
    requires JobKnown(s, run, m, id)
    requires id in t.keys.jobs ==> id in m.keys.jobs && Quiet(m.keys.jobs[id], t.keys.jobs[id])
    requires id in t.notBefore ==> id in m.notBefore
    ensures JobKnown(s, run, t, id)
  {
    hide Ran, FailedBy, Transient, Requested;
  }

  lemma CreateKnown(s: System, run: seq<Event>, m: System, p: Proc, i: Id, max: int, id: Id)
    requires JobKnown(s, run, m, id) && AgentProtocol.JobOk(m, id)
    ensures JobKnown(s, run, DoCreate(m, p, i, max), id)
  {
    hide Ran, FailedBy, Transient, Requested;
  }

  lemma MarkKnown(s: System, run: seq<Event>, m: System, p: Proc, id: Id)
    requires JobKnown(s, run, m, id) && ProcKnown(s, run, m, p)
    ensures JobKnown(s, run, DoMark(m, p), id)
  {
    hide Ran, FailedBy, Transient, Requested;
  }

  lemma CountKnown(s: System, run: seq<Event>, m: System, p: Proc, id: Id)
    requires JobKnown(s, run, m, id)
    ensures JobKnown(s, run, DoCount(m, p), id)
  {
    QuietKnown(s, run, m, DoCount(m, p), id);
  }

  lemma CloseKnown(s: System, run: seq<Event>, m: System, p: Proc, id: Id)
    requires JobKnown(s, run, m, id) && ProcKnown(s, run, m, p)
    ensures JobKnown(s, run, DoClose(m, p), id)
  {
    hide Ran, FailedBy, Transient, Requested;
  }

  lemma ScheduleKnown(s: System, run: seq<Event>, m: System, p: Proc, id: Id)
    requires JobKnown(s, run, m, id) && ProcKnown(s, run, m, p)
    ensures JobKnown(s, run, DoSchedule(m, p), id)
  {
    hide Ran, FailedBy, Transient, Requested;
  }

  lemma RecordKnown(s: System, run: seq<Event>, m: System, p: Proc, id: Id)
    requires JobKnown(s, run, m, id) && ProcKnown(s, run, m, p) && ProcOk(m, p)
    ensures JobKnown(s, run, DoRecord(m, p), id)
  {
    hide Ran, FailedBy, Transient, Requested, FinalError, RetryError, Raises, Retries;
  }

  // ---------- The process that acts ----------

  lemma OwnLoad(s: System, run: seq<Event>, m: System, p: Proc)
    requires ProcKnown(s, run, m, p) && (PhaseOf(m, p).Popped? ==> JobKnown(s, run, m, PhaseOf(m, p).id))
    ensures ProcKnown(s, run, DoLoad(m, p), p)
  {
    hide Ran, FailedBy, Transient, Requested;
  }

  lemma OwnRecord(s: System, run: seq<Event>, m: System, p: Proc)
    requires ProcKnown(s, run, m, p) && ProcOk(m, p)
    ensures ProcKnown(s, run, DoRecord(m, p), p)
  {
    var ph := PhaseOf(m, p);
    if ph.Ended? && ph.id in m.keys.jobs && !ph.outcome.Ok? {
      OwnError(s, run, m, p, ph.id, ph.attempt, ph.outcome);
    } else {
      hide Ran, FailedBy, Transient, Requested, RunCap, Retries, Raises, FinalError, RetryError;
    }
  }

  lemma OwnError(s: System, run: seq<Event>, m: System, p: Proc, id: Id, a: nat, o: Outcome)
    requires PhaseOf(m, p).Ended? && PhaseOf(m, p).id == id && PhaseOf(m, p).attempt == a && PhaseOf(m, p).outcome == o
    requires ProcKnown(s, run, m, p) && ProcOk(m, p) && id in m.keys.jobs && !o.Ok?
    ensures ProcKnown(s, run, DoRecord(m, p), p)
  {
    var max := m.keys.jobs[id].maxAttempts;
    if Retries(a, max, o) {
      RetryIsTransient(s, run, id, o, a, max);
    } else {
      FinalIsFailure(s, run, id, o, a, max);
    }
    hide Ran, FailedBy, Transient, Requested, RunCap, FinalError, RetryError, Retries;
  }

  lemma RetryIsTransient(s: System, run: seq<Event>, id: Id, o: Outcome, a: nat, max: int)
    requires Ran(s, run, id, o, a) && Retries(a, max, o)
    ensures Transient(s, run, id, max)
  {
    hide Ran;
    assert o == Error(true, o.message);
    assert Ran(s, run, id, Error(true, o.message), a) && a < Limit(max);
  }

  lemma FinalIsFailure(s: System, run: seq<Event>, id: Id, o: Outcome, a: nat, max: int)
    requires Ran(s, run, id, o, a) && !o.Ok? && !Retries(a, max, o)
    ensures FailedBy(s, run, id, FinalError(o), max)
  {
    hide Ran;
    assert FinalOf(o, a, FinalError(o), max);
  }

  lemma OwnClose(s: System, run: seq<Event>, m: System, p: Proc)
    requires ProcKnown(s, run, m, p)
    ensures ProcKnown(s, run, DoClose(m, p), p)
  {
    hide Ran, FailedBy, Transient, Requested;
  }

  lemma OwnMoves(s: System, run: seq<Event>, m: System, p: Proc, i: Id, max: int)
    requires ProcKnown(s, run, m, p)
    ensures ProcKnown(s, run, DoCreate(m, p, i, max), p) && ProcKnown(s, run, DoPush(m, p), p)
    ensures ProcKnown(s, run, DoPumpPop(m, p, i), p) && ProcKnown(s, run, DoPumpPlace(m, p), p)
    ensures ProcKnown(s, run, DoPumpEnds(m, p), p) && ProcKnown(s, run, DoDequeue(m, p), p)
  {
    hide Ran, FailedBy, Transient, Requested;
  }

  lemma OwnWork(s: System, run: seq<Event>, m: System, p: Proc)
    requires ProcKnown(s, run, m, p)
    ensures ProcKnown(s, run, DoMark(m, p), p) && ProcKnown(s, run, DoCount(m, p), p)
    ensures ProcKnown(s, run, DoReadDue(m, p), p) && ProcKnown(s, run, DoSchedule(m, p), p)
    ensures ProcKnown(s, run, DoRaise(m, p), p)
  {
    hide Ran, FailedBy, Transient, Requested, Raises, Backoff;
  }

  lemma OwnRun(s: System, front: seq<Event>, p: Proc, o: Outcome)
    requires ProcKnown(s, front + [Run(p, o)], Exec(s, front), p)
    ensures ProcKnown(s, front + [Run(p, o)], DoRun(Exec(s, front), p, o), p)
  {
    var m, run := Exec(s, front), front + [Run(p, o)];
    assert run[..|front|] == front;
    if PhaseOf(m, p).Counted? && PhaseOf(m, p).attempt >= 0 {
      assert RanAt(s, run, |front|, PhaseOf(m, p).id, o, PhaseOf(m, p).attempt);
    }
    hide Exec, FailedBy, Transient, Requested;
  }

  // ---------- The other processes ----------

  /** The record keeps its error and its limit. */
  predicate ErrorKept(m: System, t: System, id: Id) {
    id in m.keys.jobs ==>
      && id in t.keys.jobs && t.keys.jobs[id].error == m.keys.jobs[id].error
      && t.keys.jobs[id].maxAttempts == m.keys.jobs[id].maxAttempts
  }

  lemma BystanderKnown(s: System, run: seq<Event>, m: System, t: System, q: Proc)
    requires ProcKnown(s, run, m, q) && PhaseOf(t, q) == PhaseOf(m, q)
    requires !Free(PhaseOf(m, q)) ==> ErrorKept(m, t, PhaseOf(m, q).id)
    ensures ProcKnown(s, run, t, q)
  {
    hide Ran, FailedBy, Transient, Requested;
  }

  lemma HandsApart(m: System, p: Proc, q: Proc)
    requires Inv(m) && p != q && !Free(PhaseOf(m, q))
    ensures PhaseOf(m, q).id in m.keys.jobs && (Free(PhaseOf(m, p)) || PhaseOf(m, p).id != PhaseOf(m, q).id)
  {
    assert AgentProtocol.Ok(m, "", p) && AgentProtocol.Ok(m, "", q);
  }

  lemma PhasesApart(m: System, e: Event, p: Proc, q: Proc)
    requires p != q && !e.Tick? && !e.RequestCancel? && e.p == p
    ensures PhaseOf(Step(m, e), q) == PhaseOf(m, q)
  {
    hide CreateCmd, PushCmd, DelayCmd, StatusCmd, CountCmd, ResultCmd, ErrorCmd, Raises, Retries, Backoff, FinalError,
         RetryError, Earliest;
  }

  lemma KeptBySame(m: System, t: System, id: Id)
    requires id in m.keys.jobs ==> id in t.keys.jobs && t.keys.jobs[id] == m.keys.jobs[id]
    ensures ErrorKept(m, t, id)
  {
  }

  lemma ErrorsApart(m: System, e: Event, p: Proc, q: Proc)
    requires Inv(m) && p != q && !e.Tick? && !e.RequestCancel? && e.p == p && !Free(PhaseOf(m, q))
    ensures ErrorKept(m, Step(m, e), PhaseOf(m, q).id)
  {
    HandsApart(m, p, q);
    hide Inv;
    RecordsApart(m, e, p, PhaseOf(m, q).id);
  }

  lemma RecordsApart(m: System, e: Event, p: Proc, id: Id)
    requires id in m.keys.jobs && (Free(PhaseOf(m, p)) || PhaseOf(m, p).id != id)
    requires !e.Tick? && !e.RequestCancel? && e.p == p
    ensures ErrorKept(m, Step(m, e), id)
  {
    hide ErrorKept, DoCreate, DoMark, DoCount, DoRecord, DoRaise, DoClose, DoPush, DoPumpPop, DoPumpPlace, DoDequeue,
         DoLoad, DoRun, DoReadDue, DoSchedule, DoPumpEnds;
    match e
    case Mark(_) => OthersUntouched(m, p, id); KeptBySame(m, DoMark(m, p), id);
    case Count(_) => OthersUntouched(m, p, id); KeptBySame(m, DoCount(m, p), id);
    case Record(_) => OutcomesUntouched(m, p, id); KeptBySame(m, DoRecord(m, p), id);
    case Close(_) => OutcomesUntouched(m, p, id); KeptBySame(m, DoClose(m, p), id);
    case Create(_, i, max) => CreateKeeps(m, p, i, max, id);
    case Schedule(_) => OnlyPhasesMove(m, p, Hung); KeptBySame(m, DoSchedule(m, p), id);
    case _ =>
      hide Step;
      QuietEvents(m, e);
      KeptBySame(m, Step(m, e), id);
  }

  lemma CreateKeeps(m: System, p: Proc, i: Id, max: int, id: Id)
    ensures ErrorKept(m, DoCreate(m, p, i, max), id)
  {
  }

  lemma ProcStep(s: System, front: seq<Event>, e: Event, q: Proc)
    requires var m := Exec(s, front); Inv(m) && ProcKnown(s, front, m, q)
    requires var ph := PhaseOf(Exec(s, front), q);
             ph.Popped? ==> JobKnown(s, front, Exec(s, front), ph.id)
    ensures ProcKnown(s, front + [e], Step(Exec(s, front), e), q)
  {
    var m, run := Exec(s, front), front + [e];
    ProcKnownLater(s, front, e, m, q);
    if PhaseOf(m, q).Popped? {
      JobKnownLater(s, front, e, m, PhaseOf(m, q).id);
    }
    if e.Tick? || e.RequestCancel? {
      ClientSpares(s, run, m, e, q);
    } else if e.p != q {
      PhasesApart(m, e, e.p, q);
      if !Free(PhaseOf(m, q)) {
        ErrorsApart(m, e, e.p, q);
      }
      hide Step;
      BystanderKnown(s, run, m, Step(m, e), q);
    } else {
      assert AgentProtocol.Ok(m, "", q);
      hide Inv;
      OwnStep(s, front, e, q);
    }
  }

  lemma ClientSpares(s: System, run: seq<Event>, m: System, e: Event, q: Proc)
    requires ProcKnown(s, run, m, q) && (e.Tick? || e.RequestCancel?)
    ensures ProcKnown(s, run, Step(m, e), q)
  {
    hide Ran, FailedBy, Transient, Requested;
  }

  lemma OwnStep(s: System, front: seq<Event>, e: Event, p: Proc)
    requires !e.Tick? && !e.RequestCancel? && e.p == p
    requires ProcKnown(s, front + [e], Exec(s, front), p) && ProcOk(Exec(s, front), p)
    requires var ph := PhaseOf(Exec(s, front), p);
             ph.Popped? ==> JobKnown(s, front + [e], Exec(s, front), ph.id)
    ensures ProcKnown(s, front + [e], Step(Exec(s, front), e), p)
  {
    hide Exec, ProcKnown, JobKnown, ProcOk, DoCreate, DoMark, DoCount, DoRecord, DoRaise, DoClose, DoPush, DoPumpPop,
         DoPumpPlace, DoDequeue, DoLoad, DoRun, DoReadDue, DoSchedule, DoPumpEnds;
    var m, run := Exec(s, front), front + [e];
    match e
    case Load(_) => OwnLoad(s, run, m, p);
    case Record(_) => OwnRecord(s, run, m, p);
    case Close(_) => OwnClose(s, run, m, p);
    case Run(_, o) => OwnRun(s, front, p, o);
    case Create(_, i, max) => OwnMoves(s, run, m, p, i, max);
    case PumpPop(_, i) => OwnMoves(s, run, m, p, i, 0);
    case Push(_) => OwnMoves(s, run, m, p, "", 0);
    case PumpPlace(_) => OwnMoves(s, run, m, p, "", 0);
    case PumpEnds(_) => OwnMoves(s, run, m, p, "", 0);
    case Dequeue(_) => OwnMoves(s, run, m, p, "", 0);
    case BeginPump(_, limit) => OwnBegin(s, run, m, p, limit);
    case Mark(_) => OwnWork(s, run, m, p);
    case Count(_) => OwnWork(s, run, m, p);
    case ReadDue(_) => OwnWork(s, run, m, p);
    case Schedule(_) => OwnWork(s, run, m, p);
    case Raise(_) => OwnWork(s, run, m, p);
  }

  lemma OwnBegin(s: System, run: seq<Event>, m: System, p: Proc, limit: nat)
    requires ProcKnown(s, run, m, p)
    ensures ProcKnown(s, run, Step(m, BeginPump(p, limit)), p)
  {
    hide Ran, FailedBy, Transient, Requested;
  }

  // ---------- Every run ----------

  lemma JobStep(s: System, front: seq<Event>, e: Event, id: Id)
    requires var m := Exec(s, front); Inv(m) && JobKnown(s, front, m, id)
    requires !e.Tick? && !e.RequestCancel? ==> ProcKnown(s, front, Exec(s, front), e.p)
    ensures JobKnown(s, front + [e], Step(Exec(s, front), e), id)
  {
    var m, run := Exec(s, front), front + [e];
    JobKnownLater(s, front, e, m, id);
    assert AgentProtocol.Ok(m, id, if e.Tick? || e.RequestCancel? then 0 else e.p);
    if !e.Tick? && !e.RequestCancel? {
      ProcKnownLater(s, front, e, m, e.p);
    }
    hide Exec, Inv, ProcKnown, JobKnown, ProcOk, AgentProtocol.JobOk, DoCreate, DoMark, DoCount, DoRecord, DoRaise,
         DoClose, DoPush, DoPumpPop, DoPumpPlace, DoDequeue, DoLoad, DoRun, DoReadDue, DoSchedule, DoPumpEnds;
    match e
    case Create(p, i, max) => CreateKnown(s, run, m, p, i, max, id);
    case Mark(p) => MarkKnown(s, run, m, p, id);
    case Count(p) => CountKnown(s, run, m, p, id);
    case Record(p) => RecordKnown(s, run, m, p, id);
    case Close(p) => CloseKnown(s, run, m, p, id);
    case Schedule(p) => ScheduleKnown(s, run, m, p, id);
    case RequestCancel(i) => CancelKnown(s, front, i, id);
    case _ =>
      hide Step;
      QuietEvents(m, e);
      QuietStep(s, run, m, Step(m, e), id);
  }

  /** The steps that leave every record and every schedule alone. */
  lemma QuietEvents(m: System, e: Event)
    requires !e.Create? && !e.Mark? && !e.Count? && !e.Record? && !e.Close? && !e.Schedule? && !e.RequestCancel?
    ensures Step(m, e).keys.jobs == m.keys.jobs && Step(m, e).notBefore == m.notBefore
  {
    hide DoPush, DoPumpPop, DoPumpPlace, DoDequeue, DoLoad, DoRun, DoReadDue, DoRaise, DoPumpEnds;
    match e
    case Tick(x) =>
    case BeginPump(p, limit) =>
    case PumpPop(p, i) => OnlyPlacesMove(m, p, i); NothingScheduled(m, p, i, Hung);
    case Run(p, o) => OnlyPhasesMove(m, p, o); NothingScheduled(m, p, "", o);
    case ReadDue(p) => OnlyPhasesMove(m, p, Hung); NothingScheduled(m, p, "", Hung);
    case Raise(p) => OnlyPhasesMove(m, p, Hung); NothingScheduled(m, p, "", Hung);
    case Push(p) => OnlyPlacesMove(m, p, ""); NothingScheduled(m, p, "", Hung);
    case PumpPlace(p) => OnlyPlacesMove(m, p, ""); NothingScheduled(m, p, "", Hung);
    case PumpEnds(p) => OnlyPlacesMove(m, p, ""); NothingScheduled(m, p, "", Hung);
    case Dequeue(p) => OnlyPlacesMove(m, p, ""); NothingScheduled(m, p, "", Hung);
    case Load(p) => OnlyPlacesMove(m, p, ""); NothingScheduled(m, p, "", Hung);
    case _ =>
  }

  lemma NothingScheduled(m: System, p: Proc, i: Id, o: Outcome)
    ensures DoPush(m, p).notBefore == m.notBefore && DoPumpPop(m, p, i).notBefore == m.notBefore
    ensures DoPumpPlace(m, p).notBefore == m.notBefore && DoPumpEnds(m, p).notBefore == m.notBefore
    ensures DoDequeue(m, p).notBefore == m.notBefore && DoLoad(m, p).notBefore == m.notBefore
    ensures DoRun(m, p, o).notBefore == m.notBefore && DoReadDue(m, p).notBefore == m.notBefore
    ensures DoRaise(m, p).notBefore == m.notBefore
  {
    hide PushCmd, DelayCmd, Raises, Backoff, Earliest;
  }

  lemma QuietStep(s: System, run: seq<Event>, m: System, t: System, id: Id)
    requires JobKnown(s, run, m, id) && t.keys.jobs == m.keys.jobs && t.notBefore == m.notBefore
    ensures JobKnown(s, run, t, id)
  {
    hide Ran, FailedBy, Transient, Requested;
  }

  lemma CancelKnown(s: System, front: seq<Event>, i: Id, id: Id)
    requires JobKnown(s, front + [RequestCancel(i)], Exec(s, front), id)
    ensures JobKnown(s, front + [RequestCancel(i)], Step(Exec(s, front), RequestCancel(i)), id)
  {
    var run := front + [RequestCancel(i)];
    assert run[|front|] == RequestCancel(i);
    hide Exec, Ran, FailedBy, Transient;
  }

  lemma {:induction false} RunKnown(s: System, run: seq<Event>, id: Id, q: Proc)
    requires Initial(s)
    ensures JobKnown(s, run, Exec(s, run), id) && ProcKnown(s, run, Exec(s, run), q)
    decreases |run|
  {
    if run != [] {
      var front, e := run[..|run| - 1], run[|run| - 1];
      assert run == front + [e];
      RunKnown(s, front, id, q);
      ExecInv(s, front);
      ExecSnoc(s, front, e);
      hide Exec, Inv, Initial, ProcKnown, JobKnown, Step;
      if !e.Tick? && !e.RequestCancel? {
        RunKnown(s, front, id, e.p);
      }
      JobStep(s, front, e, id);
      if PhaseOf(Exec(s, front), q).Popped? {
        RunKnown(s, front, PhaseOf(Exec(s, front), q).id, q);
      }
      ProcStep(s, front, e, q);
    }
  }

  /**
   Where every outcome comes from: a succeeded job's result is what one of its own runs
   returned; a failed job's error is that of one of its own runs that hung, came back empty,
   or raised an error that is not transient or had no retry left; a cancelled job was asked
   to cancel; and a job is in the delayed set only after a run of it ended in a transient
   error with a retry left.
   */
  lemma {:induction false} OutcomesAreOwn(s: System, run: seq<Event>, id: Id)
    requires Initial(s) && id in Exec(s, run).keys.jobs
    ensures var t := Exec(s, run); var r := t.keys.jobs[id];
            && (r.status == Succeeded ==>
                  r.result.Some? && exists a: nat :: Ran(s, run, id, Outcome.Ok(r.result.value), a))
            && (r.status == Failed ==> r.error.Some? && FailedBy(s, run, id, r.error.value, r.maxAttempts))
            && (r.status == Cancelled ==> Requested(run, id))
            && (id in t.keys.delayed ==> Transient(s, run, id, r.maxAttempts))
  {
    RunKnown(s, run, id, 0);
    TerminalHasOutcome(s, run, id);
    ExecInv(s, run);
    assert AgentProtocol.Ok(Exec(s, run), id, 0);
    if id in Exec(s, run).keys.delayed {
      DelayedWasScheduled(Exec(s, run), id);
    }
    hide Exec, Inv, Ran, FailedBy, Transient, Requested;
  }

  lemma DelayedWasScheduled(t: System, id: Id)
    requires AgentProtocol.JobOk(t, id) && id in t.keys.delayed
    ensures id in t.notBefore
  {
  }
}
