/**
 All interleavings of API processes and workers over the agent queue. Each Redis command
 is one event, and an event that is not enabled leaves the state as it is. Processes do
 not crash and the sandbox route, which finishes jobs outside the queue, is not a step.
 */
module AgentProtocol {
  import opened Wrappers
  import opened Basics
  import opened AgentStore

  type Proc = nat

  datatype Phase =
    | Idle
    | Pumping(now: real, left: nat)
    | Pumped
    | Created(id: Id)
    | PumpHolds(now: real, left: nat, id: Id, due: real)
    | Popped(id: Id)
    | Loaded(id: Id, snap: AgentJob)
    | Marked(id: Id, snap: AgentJob)
    | Counted(id: Id, snap: AgentJob, attempt: nat)
    | Ended(id: Id, snap: AgentJob, attempt: nat, outcome: Outcome)
    | ResultSet(id: Id)
    | ErrorSet(id: Id)
    | RetrySet(id: Id, attempt: nat)
    | Requeued(id: Id, attempt: nat)
    | DueRead(id: Id, due: real)

  /** The one place a job is in: Gone when it is finished, Lost when its worker dropped it unfinished. */
  datatype Place = InReady | InDelayed | InHand(p: Proc) | Gone | Lost

  /** The keys, the clock and the processes, with the history of places, runs and due times. */
  datatype System = System(
    keys: Keys,
    clock: real,
    procs: map<Proc, Phase>,
    place: map<Id, Place>,
    runs: multiset<Id>,
    notBefore: map<Id, real>)

  datatype Event =
    | Tick(t: real)
    | RequestCancel(id: Id)
    | Create(p: Proc, id: Id, maxAttempts: int)
    | Push(p: Proc)
    | BeginPump(p: Proc, limit: nat)
    | PumpPop(p: Proc, id: Id)
    | PumpPlace(p: Proc)
    | PumpEnds(p: Proc)
    | Dequeue(p: Proc)
    | Load(p: Proc)
    | Mark(p: Proc)
    | Count(p: Proc)
    | Run(p: Proc, outcome: Outcome)
    | Record(p: Proc)
    | Raise(p: Proc)
    | Close(p: Proc)
    | ReadDue(p: Proc)
    | Schedule(p: Proc)

  predicate Free(ph: Phase) {
    ph.Idle? || ph.Pumping? || ph.Pumped?
  }

  predicate Holds(ph: Phase, id: Id) {
    !Free(ph) && ph.id == id
  }

  function Go(s: System, p: Proc, ph: Phase): System {
    s.(procs := s.procs[p := ph])
  }

  function PhaseOf(s: System, p: Proc): Phase {
    if p in s.procs then s.procs[p] else Idle
  }

  // ---------- Steps ----------

  function DoCreate(s: System, p: Proc, id: Id, maxAttempts: int): System {
    if p in s.procs && s.procs[p].Idle? && id !in s.keys.jobs
    then Go(s, p, Created(id)).(keys := CreateCmd(s.keys, id, maxAttempts), place := s.place[id := InHand(p)])
    else s
  }

  function DoPush(s: System, p: Proc): System {
    var ph := PhaseOf(s, p);
    if ph.Created?
    then Go(s, p, Idle).(keys := PushCmd(s.keys, ph.id), place := s.place[ph.id := InReady])
    else s
  }

  function DoPumpPop(s: System, p: Proc, id: Id): System {
    var ph := PhaseOf(s, p);
    if ph.Pumping? && ph.left > 0 && Earliest(s.keys.delayed, id)
    then Go(s, p, PumpHolds(ph.now, ph.left, id, s.keys.delayed[id])).(
           keys := s.keys.(delayed := s.keys.delayed - {id}), place := s.place[id := InHand(p)])
    else s
  }

  function DoPumpPlace(s: System, p: Proc): System {
    var ph := PhaseOf(s, p);
    if ph.PumpHolds? then
      if ph.due > ph.now
      then Go(s, p, Pumped).(keys := DelayCmd(s.keys, ph.id, ph.due), place := s.place[ph.id := InDelayed])
      else Go(s, p, Pumping(ph.now, if ph.left > 0 then ph.left - 1 else 0)).(
             keys := PushCmd(s.keys, ph.id), place := s.place[ph.id := InReady])
    else s
  }

  function DoDequeue(s: System, p: Proc): System {
    if PhaseOf(s, p).Pumped? then
      if s.keys.ready == [] then Go(s, p, Idle)
      else
        var id := s.keys.ready[|s.keys.ready| - 1];
        Go(s, p, Popped(id)).(
            keys := s.keys.(ready := s.keys.ready[..|s.keys.ready| - 1]), place := s.place[id := InHand(p)])
    else s
  }

  function DoLoad(s: System, p: Proc): System {
    var ph := PhaseOf(s, p);
    if ph.Popped? then
      if ph.id in s.keys.jobs then Go(s, p, Loaded(ph.id, s.keys.jobs[ph.id])) else Go(s, p, Idle)
    else s
  }

  function DoMark(s: System, p: Proc): System {
    var ph := PhaseOf(s, p);
    if ph.Loaded? && ph.id in s.keys.jobs then
      if ph.snap.cancelRequested
      then Go(s, p, Idle).(
             keys := StatusCmd(s.keys, ph.id, Cancelled, false, true, s.clock), place := s.place[ph.id := Gone])
      else Go(s, p, Marked(ph.id, ph.snap)).(keys := StatusCmd(s.keys, ph.id, Running, true, false, s.clock))
    else s
  }

  function DoCount(s: System, p: Proc): System {
    var ph := PhaseOf(s, p);
    if ph.Marked? && ph.id in s.keys.jobs
    then Go(s, p, Counted(ph.id, ph.snap, s.keys.jobs[ph.id].attempts + 1)).(keys := CountCmd(s.keys, ph.id))
    else s
  }

  function DoRun(s: System, p: Proc, o: Outcome): System {
    var ph := PhaseOf(s, p);
    if ph.Counted?
    then Go(s, p, Ended(ph.id, ph.snap, ph.attempt, o)).(runs := s.runs + multiset{ph.id})
    else s
  }

  function DoRecord(s: System, p: Proc): System {
    var ph := PhaseOf(s, p);
    if ph.Ended? && ph.id in s.keys.jobs then
      if ph.outcome.Ok? then Go(s, p, ResultSet(ph.id)).(keys := ResultCmd(s.keys, ph.id, ph.outcome.result))
      else if Raises(ph.attempt, ph.snap.maxAttempts, ph.outcome) then s
      else if Retries(ph.attempt, ph.snap.maxAttempts, ph.outcome)
      then Go(s, p, RetrySet(ph.id, ph.attempt)).(keys := ErrorCmd(s.keys, ph.id, RetryError()))
      else Go(s, p, ErrorSet(ph.id)).(keys := ErrorCmd(s.keys, ph.id, FinalError(ph.outcome)))
    else s
  }

  /** The delay overflows: the worker's loop swallows the exception, and the job stays running. */
  function DoRaise(s: System, p: Proc): System {
    var ph := PhaseOf(s, p);
    if ph.Ended? && Raises(ph.attempt, ph.snap.maxAttempts, ph.outcome)
    then Go(s, p, Idle).(place := s.place[ph.id := Lost])
    else s
  }

  function DoClose(s: System, p: Proc): System {
    var ph := PhaseOf(s, p);
    if (ph.ResultSet? || ph.ErrorSet?) && ph.id in s.keys.jobs
    then Go(s, p, Idle).(
           keys := StatusCmd(s.keys, ph.id, if ph.ResultSet? then Succeeded else Failed, false, true, s.clock),
           place := s.place[ph.id := Gone])
    else if ph.RetrySet? && ph.id in s.keys.jobs
    then Go(s, p, Requeued(ph.id, ph.attempt)).(keys := StatusCmd(s.keys, ph.id, Queued, false, false, s.clock))
    else s
  }

  function DoReadDue(s: System, p: Proc): System {
    var ph := PhaseOf(s, p);
    if ph.Requeued? && ph.attempt >= 1 && Backoff(ph.attempt).Some?
    then Go(s, p, DueRead(ph.id, s.clock + Backoff(ph.attempt).value))
    else s
  }

  function DoSchedule(s: System, p: Proc): System {
    var ph := PhaseOf(s, p);
    if ph.DueRead?
    then Go(s, p, Idle).(keys := DelayCmd(s.keys, ph.id, ph.due), place := s.place[ph.id := InDelayed],
                         notBefore := s.notBefore[ph.id := ph.due])
    else s
  }

  function DoPumpEnds(s: System, p: Proc): System {
    var ph := PhaseOf(s, p);
    if ph.Pumping? && (ph.left == 0 || s.keys.delayed == map[]) then Go(s, p, Pumped) else s
  }

  function Step(s: System, e: Event): System {
    match e
    case Tick(t) => if t > s.clock then s.(clock := t) else s
    case RequestCancel(id) => if id in s.keys.jobs then s.(keys := CancelCmd(s.keys, id)) else s
    case Create(p, id, m) => DoCreate(s, p, id, m)
    case Push(p) => DoPush(s, p)
    case BeginPump(p, limit) => if p in s.procs && s.procs[p].Idle? then Go(s, p, Pumping(s.clock, limit)) else s
    case PumpPop(p, id) => DoPumpPop(s, p, id)
    case PumpPlace(p) => DoPumpPlace(s, p)
    case PumpEnds(p) => DoPumpEnds(s, p)
    case Dequeue(p) => DoDequeue(s, p)
    case Load(p) => DoLoad(s, p)
    case Mark(p) => DoMark(s, p)
    case Count(p) => DoCount(s, p)
    case Run(p, o) => DoRun(s, p, o)
    case Record(p) => DoRecord(s, p)
    case Raise(p) => DoRaise(s, p)
    case Close(p) => DoClose(s, p)
    case ReadDue(p) => DoReadDue(s, p)
    case Schedule(p) => DoSchedule(s, p)
  }

  function Exec(s: System, run: seq<Event>): System {
    if run == [] then s else Step(Exec(s, run[..|run| - 1]), run[|run| - 1])
  }

  lemma ExecSnoc(s: System, run: seq<Event>, e: Event)
    ensures Exec(s, run + [e]) == Step(Exec(s, run), e)
  {
    assert (run + [e])[..|run + [e]| - 1] == run;
  }

  predicate Initial(s: System) {
    && s.keys == Keys(map[], [], map[])
    && (forall p :: p in s.procs ==> s.procs[p] == Idle)
    && s.place == map[] && s.runs == multiset{} && s.notBefore == map[]
  }

  // ---------- The invariant ----------

  /** The most runs a job really gets: no delay is left after attempt 1024. */
  function RunCap(maxAttempts: int): int {
    Min(RunLimit(maxAttempts), FLOAT_EXPONENTS + 1)
  }

  /** A job's place, status and run count agree. */
  predicate PlaceOk(s: System, j: Id) {
    && (j in s.keys.jobs <==> j in s.place)
    && (j in s.notBefore ==> j in s.keys.jobs)
    && multiset(s.keys.ready)[j] == (if j in s.place && s.place[j] == InReady then 1 else 0)
    && (j in s.keys.delayed <==> j in s.place && s.place[j] == InDelayed)
    && (j in s.place && s.place[j].InHand? ==> s.place[j].p in s.procs && Holds(s.procs[s.place[j].p], j))
    && (j in s.place ==> (s.place[j] == Gone <==> Terminal(s.keys.jobs[j])))
  }

  predicate RecordOk(s: System, j: Id) {
    j in s.keys.jobs && j in s.place ==>
      var r := s.keys.jobs[j];
      var limit := RunCap(r.maxAttempts);
      && (r.status == Succeeded ==> r.result.Some?)
      && (r.status == Failed ==> r.error.Some?)
      && (s.place[j].InReady? || s.place[j].InDelayed? ==> r.status == Queued && r.attempts < limit)
      && r.attempts <= limit
      && (s.place[j].Lost? ==> r.status == Running && r.attempts == FLOAT_EXPONENTS + 1 < RunLimit(r.maxAttempts))
      && (s.place[j].InReady? && j in s.notBefore ==> s.notBefore[j] <= s.clock)
      && (s.place[j].InDelayed? && j in s.keys.delayed ==> j in s.notBefore && s.keys.delayed[j] == s.notBefore[j])
  }

  /** attempts counts the runs, plus one for a worker that has counted but not yet started. */
  predicate RunsOk(s: System, j: Id) {
    if j in s.keys.jobs && j in s.place
    then s.keys.jobs[j].attempts
         == s.runs[j] + (if s.place[j].InHand? && PhaseOf(s, s.place[j].p).Counted? then 1 else 0)
    else s.runs[j] == 0
  }

  /** What a process in each phase knows about the job it holds. */
  predicate ProcOk(s: System, p: Proc) {
    var ph := PhaseOf(s, p);
    if Free(ph) then ph.Pumping? ==> ph.now <= s.clock
    else
      && ph.id in s.keys.jobs && ph.id in s.place && s.place[ph.id] == InHand(p)
      && var r := s.keys.jobs[ph.id];
      var limit := RunCap(r.maxAttempts);
      var ready := ph.id in s.notBefore ==> s.notBefore[ph.id] <= s.clock;
      match ph
      case Created(id) => r.status == Queued && r.attempts < limit && id !in s.notBefore
      case PumpHolds(now, _, id, due) =>
        now <= s.clock && r.status == Queued && r.attempts < limit && id in s.notBefore && due == s.notBefore[id]
      case Popped(_) => r.status == Queued && r.attempts < limit && ready
      case Loaded(_, snap) => r.status == Queued && r.attempts < limit && ready && snap.maxAttempts == r.maxAttempts
      case Marked(_, snap) =>
        r.status == Running && r.attempts < limit && ready && snap.maxAttempts == r.maxAttempts && !snap.cancelRequested
      case Counted(_, snap, a) =>
        && r.status == Running && 1 <= a == r.attempts && ready && snap.maxAttempts == r.maxAttempts
        && !snap.cancelRequested
      case Ended(_, snap, a, _) => r.status == Running && 1 <= a == r.attempts && snap.maxAttempts == r.maxAttempts
      case ResultSet(_) => r.status == Running && r.result.Some?
      case ErrorSet(_) => r.status == Running && r.error.Some?
      case RetrySet(_, a) => r.status == Running && 1 <= a == r.attempts < limit
      case Requeued(_, a) => r.status == Queued && 1 <= a == r.attempts < limit
      case DueRead(_, _) => r.status == Queued && r.attempts < limit
  }

  predicate JobOk(s: System, j: Id) {
    PlaceOk(s, j) && RecordOk(s, j) && RunsOk(s, j)
  }

  predicate Ok(s: System, j: Id, q: Proc) {
    JobOk(s, j) && ProcOk(s, q)
  }

  ghost predicate Inv(s: System) {
    forall j, q :: Ok(s, j, q)
  }

  /** A process is unaffected by a step that leaves its phase and the job it holds alone. */
  lemma SameProc(s: System, s': System, q: Proc)
    requires ProcOk(s, q) && PhaseOf(s', q) == PhaseOf(s, q) && s'.clock == s.clock
    requires !Free(PhaseOf(s, q)) ==>
               var id := PhaseOf(s, q).id;
               && id in s'.keys.jobs && s'.keys.jobs[id] == s.keys.jobs[id]
               && id in s'.place && s'.place[id] == s.place[id]
               && (id in s'.notBefore ==> id in s.notBefore && s'.notBefore[id] == s.notBefore[id])
               && (id in s.notBefore ==> id in s'.notBefore)
    ensures ProcOk(s', q)
  {
  }

  lemma CreateKeepsJob(s: System, p: Proc, id: Id, m: int, j: Id)
    requires JobOk(s, j) && ProcOk(s, p) && JobOk(s, id)
    ensures JobOk(DoCreate(s, p, id, m), j)
  {
  }

  lemma CreateKeepsProc(s: System, p: Proc, id: Id, m: int, q: Proc)
    requires ProcOk(s, q) && ProcOk(s, p) && JobOk(s, id)
    ensures ProcOk(DoCreate(s, p, id, m), q)
  {
    if q != p {
      SameProc(s, DoCreate(s, p, id, m), q);
    }
  }

  lemma PushKeepsJob(s: System, p: Proc, j: Id)
    requires JobOk(s, j) && ProcOk(s, p)
    ensures JobOk(DoPush(s, p), j)
  {
  }

  lemma PushKeepsProc(s: System, p: Proc, q: Proc)
    requires ProcOk(s, q) && ProcOk(s, p)
    ensures ProcOk(DoPush(s, p), q)
  {
    if q != p {
      SameProc(s, DoPush(s, p), q);
    }
  }

  lemma PumpPopKeepsJob(s: System, p: Proc, id: Id, j: Id)
    requires JobOk(s, j) && ProcOk(s, p) && JobOk(s, id)
    ensures JobOk(DoPumpPop(s, p, id), j)
  {
  }

  lemma PumpPopKeepsProc(s: System, p: Proc, id: Id, q: Proc)
    requires ProcOk(s, q) && ProcOk(s, p) && JobOk(s, id)
    ensures ProcOk(DoPumpPop(s, p, id), q)
  {
    if q != p {
      SameProc(s, DoPumpPop(s, p, id), q);
    }
  }

  lemma PumpPlaceKeepsJob(s: System, p: Proc, j: Id)
    requires JobOk(s, j) && ProcOk(s, p)
    ensures JobOk(DoPumpPlace(s, p), j)
  {
    PumpPlaceKeepsPlace(s, p, j);
    PumpPlaceKeepsRecord(s, p, j);
    PumpPlaceKeepsRuns(s, p, j);
    hide PlaceOk, RecordOk, RunsOk, DoPumpPlace;
  }

  lemma PumpPlaceKeepsPlace(s: System, p: Proc, j: Id)
    requires PlaceOk(s, j) && ProcOk(s, p)
    ensures PlaceOk(DoPumpPlace(s, p), j)
  {
    hide RunCap;
    var ph := PhaseOf(s, p);
    if ph.PumpHolds? {
      if ph.due > ph.now {
        hide PushCmd;
      } else {
        hide DelayCmd;
        PushedOnce(ph.id, s.keys.ready, j);
      }
    }
  }

  lemma PushedOnce(id: Id, ready: seq<Id>, j: Id)
    ensures multiset([id] + ready)[j] == multiset(ready)[j] + if j == id then 1 else 0
  {
    assert multiset([id] + ready) == multiset{id} + multiset(ready);
  }

  lemma PumpPlaceKeepsRecord(s: System, p: Proc, j: Id)
    requires PlaceOk(s, j) && RecordOk(s, j) && ProcOk(s, p)
    ensures RecordOk(DoPumpPlace(s, p), j)
  {
    hide RunCap;
  }

  lemma PumpPlaceKeepsRuns(s: System, p: Proc, j: Id)
    requires RunsOk(s, j) && ProcOk(s, p)
    ensures RunsOk(DoPumpPlace(s, p), j)
  {
    hide RunCap;
  }

  lemma PumpPlaceKeepsProc(s: System, p: Proc, q: Proc)
    requires ProcOk(s, q) && ProcOk(s, p)
    ensures ProcOk(DoPumpPlace(s, p), q)
  {
    if q != p {
      SameProc(s, DoPumpPlace(s, p), q);
    }
  }

  lemma DequeueKeepsJob(s: System, p: Proc, id: Id, j: Id)
    requires JobOk(s, j) && JobOk(s, id) && ProcOk(s, p)
    requires s.keys.ready != [] && id == s.keys.ready[|s.keys.ready| - 1]
    ensures JobOk(DoDequeue(s, p), j)
  {
    LastOut(s.keys.ready);
  }

  lemma DequeueKeepsProc(s: System, p: Proc, id: Id, q: Proc)
    requires ProcOk(s, q) && ProcOk(s, p) && JobOk(s, id)
    requires s.keys.ready != [] && id == s.keys.ready[|s.keys.ready| - 1]
    ensures ProcOk(DoDequeue(s, p), q)
  {
    LastOut(s.keys.ready);
    if q != p {
      SameProc(s, DoDequeue(s, p), q);
    }
  }

  lemma LastOut(ready: seq<Id>)
    requires ready != []
    ensures multiset(ready) == multiset(ready[..|ready| - 1]) + multiset{ready[|ready| - 1]}
  {
    assert ready == ready[..|ready| - 1] + [ready[|ready| - 1]];
  }

  lemma DequeueEmptyOk(s: System, p: Proc, j: Id, q: Proc)
    requires Ok(s, j, q) && ProcOk(s, p) && s.keys.ready == []
    ensures Ok(DoDequeue(s, p), j, q)
  {
  }

  lemma LoadKeepsJob(s: System, p: Proc, j: Id)
    requires JobOk(s, j) && ProcOk(s, p)
    ensures JobOk(DoLoad(s, p), j)
  {
  }

  lemma LoadKeepsProc(s: System, p: Proc, q: Proc)
    requires ProcOk(s, q) && ProcOk(s, p)
    ensures ProcOk(DoLoad(s, p), q)
  {
    if q != p {
      SameProc(s, DoLoad(s, p), q);
    }
  }

  lemma MarkKeepsJob(s: System, p: Proc, j: Id)
    requires JobOk(s, j) && ProcOk(s, p)
    ensures JobOk(DoMark(s, p), j)
  {
    MarkKeepsPlace(s, p, j);
    MarkKeepsRecord(s, p, j);
    hide PlaceOk, RecordOk;
  }

  lemma MarkKeepsPlace(s: System, p: Proc, j: Id)
    requires PlaceOk(s, j) && ProcOk(s, p)
    ensures PlaceOk(DoMark(s, p), j)
  {
  }

  lemma MarkKeepsRecord(s: System, p: Proc, j: Id)
    requires PlaceOk(s, j) && RecordOk(s, j) && ProcOk(s, p)
    ensures RecordOk(DoMark(s, p), j)
  {
  }

  lemma MarkKeepsProc(s: System, p: Proc, q: Proc)
    requires ProcOk(s, q) && ProcOk(s, p)
    ensures ProcOk(DoMark(s, p), q)
  {
    if q != p {
      SameProc(s, DoMark(s, p), q);
    }
  }

  lemma CountKeepsJob(s: System, p: Proc, j: Id)
    requires JobOk(s, j) && ProcOk(s, p)
    ensures JobOk(DoCount(s, p), j)
  {
  }

  lemma CountKeepsProc(s: System, p: Proc, q: Proc)
    requires ProcOk(s, q) && ProcOk(s, p)
    ensures ProcOk(DoCount(s, p), q)
  {
    if q != p {
      SameProc(s, DoCount(s, p), q);
    }
  }

  lemma RunKeepsJob(s: System, p: Proc, o: Outcome, j: Id)
    requires JobOk(s, j) && ProcOk(s, p)
    ensures JobOk(DoRun(s, p, o), j)
  {
  }

  lemma RunKeepsProc(s: System, p: Proc, o: Outcome, q: Proc)
    requires ProcOk(s, q) && ProcOk(s, p)
    ensures ProcOk(DoRun(s, p, o), q)
  {
    if q != p {
      SameProc(s, DoRun(s, p, o), q);
    }
  }

  lemma RecordKeepsJob(s: System, p: Proc, j: Id)
    requires JobOk(s, j) && ProcOk(s, p)
    ensures JobOk(DoRecord(s, p), j)
  {
    RecordKeepsPlace(s, p, j);
    RecordKeepsRecord(s, p, j);
    RecordKeepsRuns(s, p, j);
    hide PlaceOk, RecordOk, RunsOk, DoRecord;
  }

  /** Recording an outcome writes one unfinished record and moves its holder on. */
  lemma RecordKeepsPlace(s: System, p: Proc, j: Id)
    requires PlaceOk(s, j) && ProcOk(s, p)
    ensures PlaceOk(DoRecord(s, p), j)
  {
    RecordFrame(s, p, j);
    RecordHolds(s, p);
    hide DoRecord, ProcOk;
  }

  /** Only an outcome field of the record may have been filled. */
  predicate OutcomeWritten(r: AgentJob, r': AgentJob) {
    && r'.status == r.status && r'.attempts == r.attempts && r'.maxAttempts == r.maxAttempts
    && (r.result.Some? ==> r'.result.Some?) && (r.error.Some? ==> r'.error.Some?)
  }

  lemma RecordFrame(s: System, p: Proc, j: Id)
    requires ProcOk(s, p)
    ensures var s' := DoRecord(s, p);
            && s'.keys.ready == s.keys.ready && s'.keys.delayed == s.keys.delayed
            && s'.place == s.place && s'.notBefore == s.notBefore
            && (j in s'.keys.jobs <==> j in s.keys.jobs)
            && (j in s.keys.jobs ==> OutcomeWritten(s.keys.jobs[j], s'.keys.jobs[j]))
  {
    hide FinalError, RetryError, RunLimit, Raises;
  }

  /** Whoever held a job before the outcome was recorded still does. */
  lemma RecordHolds(s: System, p: Proc)
    ensures var s' := DoRecord(s, p);
            (forall q, i :: q in s.procs && Holds(s.procs[q], i) ==> q in s'.procs && Holds(s'.procs[q], i))
  {
    hide FinalError, RetryError, RunLimit, Raises;
  }

  lemma RecordKeepsRecord(s: System, p: Proc, j: Id)
    requires PlaceOk(s, j) && RecordOk(s, j) && ProcOk(s, p)
    ensures RecordOk(DoRecord(s, p), j)
  {
    RecordFrame(s, p, j);
    RecordHolds(s, p);
    hide DoRecord, ProcOk, RunCap;
  }

  lemma RecordKeepsRuns(s: System, p: Proc, j: Id)
    requires RunsOk(s, j) && ProcOk(s, p)
    ensures RunsOk(DoRecord(s, p), j)
  {
    hide FinalError, RetryError;
  }

  lemma RecordKeepsProc(s: System, p: Proc, q: Proc)
    requires ProcOk(s, q) && ProcOk(s, p)
    ensures ProcOk(DoRecord(s, p), q)
  {
    if q == p {
      RecordKeepsOwn(s, p);
    } else {
      RecordSpares(s, p, q);
      SameProc(s, DoRecord(s, p), q);
    }
  }

  lemma RecordKeepsOwn(s: System, p: Proc)
    requires ProcOk(s, p)
    ensures ProcOk(DoRecord(s, p), p)
  {
    hide FinalError, RetryError;
  }

  /** Another process and its job are left alone. */
  lemma RecordSpares(s: System, p: Proc, q: Proc)
    requires ProcOk(s, p) && ProcOk(s, q) && p != q
    ensures var s' := DoRecord(s, p);
            && PhaseOf(s', q) == PhaseOf(s, q) && s'.clock == s.clock
            && s'.place == s.place && s'.notBefore == s.notBefore
            && (!Free(PhaseOf(s, q)) ==>
                  PhaseOf(s, q).id in s'.keys.jobs && s'.keys.jobs[PhaseOf(s, q).id] == s.keys.jobs[PhaseOf(s, q).id])
  {
    hide FinalError, RetryError, RunLimit, Retries, Raises;
  }

  lemma RaiseKeepsJob(s: System, p: Proc, j: Id)
    requires JobOk(s, j) && ProcOk(s, p)
    ensures JobOk(DoRaise(s, p), j)
  {
  }

  lemma RaiseKeepsProc(s: System, p: Proc, q: Proc)
    requires ProcOk(s, q) && ProcOk(s, p)
    ensures ProcOk(DoRaise(s, p), q)
  {
    if q != p {
      SameProc(s, DoRaise(s, p), q);
    }
  }

  lemma CloseKeepsJob(s: System, p: Proc, j: Id)
    requires JobOk(s, j) && ProcOk(s, p)
    ensures JobOk(DoClose(s, p), j)
  {
    CloseKeepsPlace(s, p, j);
    CloseKeepsRecord(s, p, j);
    hide PlaceOk, RecordOk;
  }

  lemma CloseKeepsPlace(s: System, p: Proc, j: Id)
    requires PlaceOk(s, j) && ProcOk(s, p)
    ensures PlaceOk(DoClose(s, p), j)
  {
  }

  lemma CloseKeepsRecord(s: System, p: Proc, j: Id)
    requires PlaceOk(s, j) && RecordOk(s, j) && ProcOk(s, p)
    ensures RecordOk(DoClose(s, p), j)
  {
  }

  lemma CloseKeepsProc(s: System, p: Proc, q: Proc)
    requires ProcOk(s, q) && ProcOk(s, p)
    ensures ProcOk(DoClose(s, p), q)
  {
    if q != p {
      SameProc(s, DoClose(s, p), q);
    }
  }

  lemma ReadDueKeepsJob(s: System, p: Proc, j: Id)
    requires JobOk(s, j) && ProcOk(s, p)
    ensures JobOk(DoReadDue(s, p), j)
  {
  }

  lemma ReadDueKeepsProc(s: System, p: Proc, q: Proc)
    requires ProcOk(s, q) && ProcOk(s, p)
    ensures ProcOk(DoReadDue(s, p), q)
  {
    if q != p {
      SameProc(s, DoReadDue(s, p), q);
    }
  }

  lemma ScheduleKeepsJob(s: System, p: Proc, j: Id)
    requires JobOk(s, j) && ProcOk(s, p)
    ensures JobOk(DoSchedule(s, p), j)
  {
  }

  lemma ScheduleKeepsProc(s: System, p: Proc, q: Proc)
    requires ProcOk(s, q) && ProcOk(s, p)
    ensures ProcOk(DoSchedule(s, p), q)
  {
    if q != p {
      SameProc(s, DoSchedule(s, p), q);
    }
  }

  lemma PumpEndsKeepsJob(s: System, p: Proc, j: Id)
    requires JobOk(s, j) && ProcOk(s, p)
    ensures JobOk(DoPumpEnds(s, p), j)
  {
  }

  lemma PumpEndsKeepsProc(s: System, p: Proc, q: Proc)
    requires ProcOk(s, q) && ProcOk(s, p)
    ensures ProcOk(DoPumpEnds(s, p), q)
  {
    if q != p {
      SameProc(s, DoPumpEnds(s, p), q);
    }
  }

  lemma TickOk(s: System, t: real, j: Id, q: Proc)
    requires Ok(s, j, q)
    ensures Ok(Step(s, Tick(t)), j, q)
  {
  }

  lemma CancelOk(s: System, id: Id, j: Id, q: Proc)
    requires Ok(s, j, q)
    ensures Ok(Step(s, RequestCancel(id)), j, q)
  {
  }

  lemma BeginPumpOk(s: System, p: Proc, limit: nat, j: Id, q: Proc)
    requires Ok(s, j, q) && ProcOk(s, p)
    ensures Ok(Step(s, BeginPump(p, limit)), j, q)
  {
  }

  lemma DequeueOk(s: System, p: Proc, j: Id, q: Proc)
    requires Inv(s)
    ensures Ok(DoDequeue(s, p), j, q)
  {
    assert Ok(s, j, q) && Ok(s, j, p);
    if s.keys.ready == [] {
      DequeueEmptyOk(s, p, j, q);
    } else {
      var id := s.keys.ready[|s.keys.ready| - 1];
      assert Ok(s, id, p);
      DequeueKeepsJob(s, p, id, j);
      DequeueKeepsProc(s, p, id, q);
    }
  }

  lemma StepOk(s: System, e: Event, j: Id, q: Proc)
    requires Inv(s)
    ensures Ok(Step(s, e), j, q)
  {
    hide JobOk, ProcOk, Go, PhaseOf, CancelCmd, DoCreate, DoPush, DoPumpPop, DoPumpPlace, DoPumpEnds, DoDequeue,
         DoLoad, DoMark, DoCount, DoRun, DoRecord, DoRaise, DoClose, DoReadDue, DoSchedule;
    assert Ok(s, j, q);
    match e
    case Tick(t) => TickOk(s, t, j, q);
    case RequestCancel(id) => CancelOk(s, id, j, q);
    case Create(p, id, m) => assert Ok(s, id, p); CreateKeepsJob(s, p, id, m, j); CreateKeepsProc(s, p, id, m, q);
    case Push(p) => assert Ok(s, j, p); PushKeepsJob(s, p, j); PushKeepsProc(s, p, q);
    case BeginPump(p, limit) => assert Ok(s, j, p); BeginPumpOk(s, p, limit, j, q);
    case PumpPop(p, id) => assert Ok(s, id, p); PumpPopKeepsJob(s, p, id, j); PumpPopKeepsProc(s, p, id, q);
    case PumpPlace(p) => assert Ok(s, j, p); PumpPlaceKeepsJob(s, p, j); PumpPlaceKeepsProc(s, p, q);
    case PumpEnds(p) => assert Ok(s, j, p); PumpEndsKeepsJob(s, p, j); PumpEndsKeepsProc(s, p, q);
    case Dequeue(p) => DequeueOk(s, p, j, q);
    case Load(p) => assert Ok(s, j, p); LoadKeepsJob(s, p, j); LoadKeepsProc(s, p, q);
    case Mark(p) => assert Ok(s, j, p); MarkKeepsJob(s, p, j); MarkKeepsProc(s, p, q);
    case Count(p) => assert Ok(s, j, p); CountKeepsJob(s, p, j); CountKeepsProc(s, p, q);
    case Run(p, o) => assert Ok(s, j, p); RunKeepsJob(s, p, o, j); RunKeepsProc(s, p, o, q);
    case Record(p) => assert Ok(s, j, p); RecordKeepsJob(s, p, j); RecordKeepsProc(s, p, q);
    case Raise(p) => assert Ok(s, j, p); RaiseKeepsJob(s, p, j); RaiseKeepsProc(s, p, q);
    case Close(p) => assert Ok(s, j, p); CloseKeepsJob(s, p, j); CloseKeepsProc(s, p, q);
    case ReadDue(p) => assert Ok(s, j, p); ReadDueKeepsJob(s, p, j); ReadDueKeepsProc(s, p, q);
    case Schedule(p) => assert Ok(s, j, p); ScheduleKeepsJob(s, p, j); ScheduleKeepsProc(s, p, q);
  }

  lemma {:induction false} ExecInv(s: System, run: seq<Event>)
    requires Initial(s)
    ensures Inv(Exec(s, run))
    decreases |run|
  {
    if run != [] {
      var front := run[..|run| - 1];
      ExecInv(s, front);
      forall j, q
        ensures Ok(Exec(s, run), j, q)
      {
        StepOk(Exec(s, front), run[|run| - 1], j, q);
      }
    }
  }

  // ---------- The promises ----------

  predicate HeldBySome(s: System, id: Id) {
    exists p :: p in s.procs && Holds(s.procs[p], id)
  }

  /** An unfinished job that is nowhere: no later command of any process can find it. */
  predicate Stranded(s: System, id: Id) {
    && id in s.keys.jobs && !Terminal(s.keys.jobs[id])
    && id !in s.keys.ready && id !in s.keys.delayed && !HeldBySome(s, id)
  }

  /**
   Every job whose limit is at most 1025 and that is not finished is in exactly one place:
   once on the ready list, or in the delayed set, or in one process's hand. With a greater
   limit it may also be stranded, but only after its run 1025. A finished job is nowhere.
   */
  lemma {:induction false} ExactlyOnePlace(s: System, run: seq<Event>, id: Id)
    requires Initial(s) && id in Exec(s, run).keys.jobs
    ensures var t := Exec(s, run);
            var ready, delayed, held := multiset(t.keys.ready)[id], id in t.keys.delayed, HeldBySome(t, id);
            && (ready == 0 || (ready == 1 && !delayed && !held))
            && !(delayed && held)
            && (Terminal(t.keys.jobs[id]) ==> ready == 0 && !delayed && !held)
            && (!Terminal(t.keys.jobs[id]) && RunLimit(t.keys.jobs[id].maxAttempts) <= 1025
                ==> ready == 1 || delayed || held)
            && (Stranded(t, id) ==> t.keys.jobs[id].status == Running && t.runs[id] == 1025)
    ensures var t := Exec(s, run);
            forall p, q :: p in t.procs && q in t.procs && Holds(t.procs[p], id) && Holds(t.procs[q], id) ==> p == q
  {
    ExecInv(s, run);
    var t := Exec(s, run);
    assert Ok(t, id, 0);
    forall p | p in t.procs && Holds(t.procs[p], id)
      ensures t.place[id] == InHand(p)
    {
      assert Ok(t, id, p);
    }
    StrandedIsLost(t, id);
  }

  /** The history calls exactly the stranded jobs lost. */
  lemma StrandedIsLost(s: System, id: Id)
    requires Inv(s) && id in s.keys.jobs
    ensures id in s.place && (Stranded(s, id) <==> s.place[id] == Lost)
  {
    assert Ok(s, id, 0);
    assert id in s.keys.ready <==> multiset(s.keys.ready)[id] > 0;
    if HeldBySome(s, id) {
      var p :| p in s.procs && Holds(s.procs[p], id);
      assert Ok(s, id, p);
    }
  }

  /**
   attempts equals the number of runs (one ahead only while a worker has counted and not
   started), and never exceeds max(1, max_attempts), where 0 means 3, nor 1025.
   */
  lemma AttemptsBounded(s: System, run: seq<Event>, id: Id)
    requires Initial(s) && id in Exec(s, run).keys.jobs
    ensures var t := Exec(s, run); var r := t.keys.jobs[id];
            && t.runs[id] <= r.attempts <= Min(RunLimit(r.maxAttempts), 1025)
            && (r.attempts == t.runs[id]
                || (r.attempts == t.runs[id] + 1 &&
                    exists p :: p in t.procs && Holds(t.procs[p], id) && t.procs[p].Counted?))
  {
    ExecInv(s, run);
    assert Ok(Exec(s, run), id, 0);
  }

  /** Any reader that sees succeeded also sees a result, and any that sees failed sees an error. */
  lemma {:induction false} TerminalHasOutcome(s: System, run: seq<Event>, id: Id)
    requires Initial(s) && id in Exec(s, run).keys.jobs
    ensures var r := Exec(s, run).keys.jobs[id];
            (r.status == Succeeded ==> r.result.Some?) && (r.status == Failed ==> r.error.Some?)
  {
    ExecInv(s, run);
    assert Ok(Exec(s, run), id, 0);
  }

  /** A worker about to start a retry does so no earlier than the due time it was scheduled for. */
  lemma {:induction false} RetriesAreNotEarly(s: System, run: seq<Event>, p: Proc)
    requires Initial(s)
    ensures var t := Exec(s, run);
            PhaseOf(t, p).Counted? && PhaseOf(t, p).id in t.notBefore ==> t.notBefore[PhaseOf(t, p).id] <= t.clock
  {
    ExecInv(s, run);
    assert Ok(Exec(s, run), "", p);
  }

  /** No worker runs a job that was cancelled when it loaded it. */
  lemma {:induction false} RunsAreUncancelled(s: System, run: seq<Event>, p: Proc)
    requires Initial(s)
    ensures var t := Exec(s, run);
            PhaseOf(t, p).Counted? ==> !PhaseOf(t, p).snap.cancelRequested
  {
    ExecInv(s, run);
    assert Ok(Exec(s, run), "", p);
  }

  /** Loading takes the record as it is, and a cancelled one is closed at once, without a run. */
  lemma CancelledIsClosed(s: System, p: Proc)
    requires PhaseOf(s, p).Popped? && PhaseOf(s, p).id in s.keys.jobs
    requires s.keys.jobs[PhaseOf(s, p).id].cancelRequested
    ensures var id := PhaseOf(s, p).id; var t := Step(Step(s, Load(p)), Mark(p));
            && id in t.keys.jobs && t.keys.jobs[id].status == Cancelled && t.keys.jobs[id].finishedAt == Some(s.clock)
            && t.keys.jobs[id].attempts == s.keys.jobs[id].attempts && t.runs == s.runs && PhaseOf(t, p) == Idle
  {
  }

  /**
   Only a worker's pump puts a scheduled job back on the ready list, and only once it is due.
   */
  lemma {:induction false} PumpMovesDueJobs(s: System, run: seq<Event>, e: Event, id: Id)
    requires Initial(s) && id in Exec(s, run).notBefore
    requires id in Exec(s, run).place && Exec(s, run).place[id] != InReady
    requires id in Exec(s, run + [e]).place && Exec(s, run + [e]).place[id] == InReady
    ensures e.PumpPlace? && Exec(s, run).notBefore[id] <= Exec(s, run).clock
  {
    assert (run + [e])[..|run|] == run;
    ExecInv(s, run);
    var t := Exec(s, run);
    assert Ok(t, id, 0);
    assert !ReadyNow(t, id) && ReadyNow(Step(t, e), id);
    hide Ok, ReadyNow, Inv, Exec, DoCreate, DoMark, DoCount, DoRecord, DoRaise, DoClose, DoPush, DoPumpPop, DoDequeue,
         DoLoad, DoRun, DoReadDue, DoSchedule, DoPumpEnds;
    match e
    case PumpPlace(p) => HeldIsDue(t, p, id);
    case Push(p) => PushIsFirst(t, p, id);
    case Create(p, i, m) => NeverMadeReady(t, p, i, m, id);
    case PumpPop(p, i) => NeverMadeReady(t, p, i, 0, id);
    case Dequeue(p) => NeverMadeReady(t, p, id, 0, id);
    case Mark(p) => NeverMadeReadyByRun(t, p, id);
    case Close(p) => NeverMadeReadyByRun(t, p, id);
    case Schedule(p) => NeverMadeReadyByRun(t, p, id);
    case Raise(p) => NeverMadeReadyByRun(t, p, id);
    case Run(p, o) => SamePlaces(t, p, o); SameReady(t, Step(t, e), id);
    case Tick(x) => SameReady(t, Step(t, e), id);
    case RequestCancel(i) => SameReady(t, Step(t, e), id);
    case BeginPump(p, limit) => SameReady(t, Step(t, e), id);
    case _ => SamePlaces(t, e.p, Hung); SameReady(t, Step(t, e), id);
  }

  lemma SameReady(s: System, t: System, id: Id)
    requires t.place == s.place
    ensures ReadyNow(t, id) == ReadyNow(s, id)
  {
  }

  predicate ReadyNow(s: System, id: Id) {
    id in s.place && s.place[id] == InReady
  }

  lemma HeldIsDue(t: System, p: Proc, id: Id)
    requires Inv(t) && id in t.notBefore && !ReadyNow(t, id) && ReadyNow(DoPumpPlace(t, p), id)
    ensures t.notBefore[id] <= t.clock
  {
    assert Ok(t, id, p);
  }

  lemma NeverMadeReady(t: System, p: Proc, i: Id, m: int, id: Id)
    requires !ReadyNow(t, id)
    ensures !ReadyNow(DoCreate(t, p, i, m), id) && !ReadyNow(DoPumpPop(t, p, i), id) && !ReadyNow(DoDequeue(t, p), id)
  {
  }

  lemma NeverMadeReadyByRun(t: System, p: Proc, id: Id)
    requires !ReadyNow(t, id)
    ensures !ReadyNow(DoMark(t, p), id) && !ReadyNow(DoClose(t, p), id)
    ensures !ReadyNow(DoSchedule(t, p), id) && !ReadyNow(DoRaise(t, p), id)
  {
    hide Raises;
  }

  /** An API process pushes only a job that was never scheduled. */
  lemma PushIsFirst(t: System, p: Proc, id: Id)
    requires Inv(t) && id in t.notBefore
    ensures id in DoPush(t, p).place <==> id in t.place
    ensures id in t.place ==> DoPush(t, p).place[id] == t.place[id]
    ensures ReadyNow(DoPush(t, p), id) == ReadyNow(t, id)
  {
    assert Ok(t, id, p);
  }

  /** Terminal is absorbing: no later step changes anything but the cancel flag. */
  predicate Absorbed(r: AgentJob, k: Keys, id: Id) {
    id in k.jobs && k.jobs[id].(cancelRequested := r.cancelRequested) == r
  }

  /** A job that no command can find any more. */
  predicate Settled(s: System, id: Id) {
    id in s.place && (s.place[id] == Gone || s.place[id] == Lost)
  }

  /** A process holds only jobs that are in its hand, so its commands touch no settled record. */
  lemma HolderNotSettled(s: System, p: Proc, id: Id)
    requires Inv(s) && Settled(s, id)
    ensures id in s.keys.jobs && (Free(PhaseOf(s, p)) || PhaseOf(s, p).id != id)
  {
    assert Ok(s, id, p);
  }

  lemma HandsOff(s: System, p: Proc, id: Id)
    requires id in s.place && (Free(PhaseOf(s, p)) || PhaseOf(s, p).id != id)
    ensures id in DoPush(s, p).place && DoPush(s, p).place[id] == s.place[id]
    ensures id in DoPumpPlace(s, p).place && DoPumpPlace(s, p).place[id] == s.place[id]
    ensures id in DoMark(s, p).place && DoMark(s, p).place[id] == s.place[id]
  {
  }

  lemma HandsOffEnd(s: System, p: Proc, id: Id)
    requires id in s.place && (Free(PhaseOf(s, p)) || PhaseOf(s, p).id != id)
    ensures id in DoClose(s, p).place && DoClose(s, p).place[id] == s.place[id]
    ensures id in DoSchedule(s, p).place && DoSchedule(s, p).place[id] == s.place[id]
    ensures id in DoRaise(s, p).place && DoRaise(s, p).place[id] == s.place[id]
  {
  }

  /** Neither list nor set leads to a settled job. */
  lemma NothingToTake(s: System, p: Proc, i: Id, m: int, id: Id)
    requires Inv(s) && Settled(s, id)
    ensures id in DoCreate(s, p, i, m).place && DoCreate(s, p, i, m).place[id] == s.place[id]
    ensures id in DoPumpPop(s, p, i).place && DoPumpPop(s, p, i).place[id] == s.place[id]
    ensures id in DoDequeue(s, p).place && DoDequeue(s, p).place[id] == s.place[id]
  {
    assert Ok(s, id, p);
    assert id in s.keys.ready <==> multiset(s.keys.ready)[id] > 0;
  }

  lemma SamePlaces(s: System, p: Proc, o: Outcome)
    ensures DoLoad(s, p).place == s.place && DoCount(s, p).place == s.place && DoRun(s, p, o).place == s.place
    ensures DoRecord(s, p).place == s.place && DoReadDue(s, p).place == s.place && DoPumpEnds(s, p).place == s.place
  {
    hide FinalError, RetryError, Raises, Retries;
  }

  lemma SettledStays(s: System, e: Event, id: Id)
    requires Inv(s) && Settled(s, id)
    ensures id in Step(s, e).place && Step(s, e).place[id] == s.place[id]
  {
    hide Inv, Settled, DoCreate, DoMark, DoCount, DoRecord, DoRaise, DoClose, DoPush, DoPumpPop, DoPumpPlace,
         DoDequeue, DoLoad, DoRun, DoReadDue, DoSchedule, DoPumpEnds;
    HolderNotSettled(s, 0, id);
    assert id in s.place by { SettledPlace(s, id); }
    match e
    case Tick(t) =>
    case RequestCancel(i) =>
    case Create(p, i, m) => NothingToTake(s, p, i, m, id);
    case BeginPump(p, limit) =>
    case PumpPop(p, i) => NothingToTake(s, p, i, 0, id);
    case Dequeue(p) => NothingToTake(s, p, "", 0, id);
    case Push(p) => HolderNotSettled(s, p, id); HandsOff(s, p, id);
    case PumpPlace(p) => HolderNotSettled(s, p, id); HandsOff(s, p, id);
    case Mark(p) => HolderNotSettled(s, p, id); HandsOff(s, p, id);
    case Close(p) => HolderNotSettled(s, p, id); HandsOffEnd(s, p, id);
    case Schedule(p) => HolderNotSettled(s, p, id); HandsOffEnd(s, p, id);
    case Raise(p) => HolderNotSettled(s, p, id); HandsOffEnd(s, p, id);
    case Run(p, o) => SamePlaces(s, p, o);
    case _ => SamePlaces(s, e.p, Hung);
  }

  lemma SettledPlace(s: System, id: Id)
    requires Settled(s, id)
    ensures id in s.place
  {
  }

  lemma OthersUntouched(s: System, p: Proc, id: Id)
    requires id in s.keys.jobs && (Free(PhaseOf(s, p)) || PhaseOf(s, p).id != id)
    ensures id in DoMark(s, p).keys.jobs && DoMark(s, p).keys.jobs[id] == s.keys.jobs[id]
    ensures id in DoCount(s, p).keys.jobs && DoCount(s, p).keys.jobs[id] == s.keys.jobs[id]
  {
  }

  lemma OutcomesUntouched(s: System, p: Proc, id: Id)
    requires id in s.keys.jobs && (Free(PhaseOf(s, p)) || PhaseOf(s, p).id != id)
    ensures id in DoRecord(s, p).keys.jobs && DoRecord(s, p).keys.jobs[id] == s.keys.jobs[id]
    ensures id in DoClose(s, p).keys.jobs && DoClose(s, p).keys.jobs[id] == s.keys.jobs[id]
  {
    hide FinalError, RetryError, Raises, Retries;
  }

  lemma StepAbsorbs(s: System, e: Event, id: Id, r: AgentJob)
    requires Inv(s) && Absorbed(r, s.keys, id) && Settled(s, id)
    ensures Absorbed(r, Step(s, e).keys, id)
  {
    hide Inv, Absorbed, Settled, DoCreate, DoMark, DoCount, DoRecord, DoRaise, DoClose, DoPush, DoPumpPop, DoPumpPlace,
         DoDequeue, DoLoad, DoRun, DoReadDue, DoSchedule, DoPumpEnds, CancelCmd;
    match e
    case Tick(t) =>
    case RequestCancel(i) => ClientAbsorbs(s, 0, i, 0, id, r);
    case Create(p, i, m) => ClientAbsorbs(s, p, i, m, id, r);
    case Mark(p) => HolderAbsorbs(s, p, id, r);
    case Count(p) => HolderAbsorbs(s, p, id, r);
    case Record(p) => HolderAbsorbs(s, p, id, r);
    case Close(p) => HolderAbsorbs(s, p, id, r);
    case BeginPump(p, limit) =>
    case Run(p, o) => OnlyPhasesMove(s, p, o); SameAbsorbs(r, s.keys, Step(s, e).keys, id);
    case PumpPop(p, i) => OnlyPlacesMove(s, p, i); SameAbsorbs(r, s.keys, Step(s, e).keys, id);
    case ReadDue(p) => OnlyPhasesMove(s, p, Hung); SameAbsorbs(r, s.keys, Step(s, e).keys, id);
    case Schedule(p) => OnlyPhasesMove(s, p, Hung); SameAbsorbs(r, s.keys, Step(s, e).keys, id);
    case Raise(p) => OnlyPhasesMove(s, p, Hung); SameAbsorbs(r, s.keys, Step(s, e).keys, id);
    case _ => OnlyPlacesMove(s, e.p, ""); SameAbsorbs(r, s.keys, Step(s, e).keys, id);
  }

  lemma SameAbsorbs(r: AgentJob, k: Keys, k': Keys, id: Id)
    requires Absorbed(r, k, id) && k'.jobs == k.jobs
    ensures Absorbed(r, k', id)
  {
  }

  lemma ClientAbsorbs(s: System, p: Proc, i: Id, m: int, id: Id, r: AgentJob)
    requires Absorbed(r, s.keys, id)
    ensures Absorbed(r, DoCreate(s, p, i, m).keys, id)
    ensures i in s.keys.jobs ==> Absorbed(r, CancelCmd(s.keys, i), id)
  {
  }

  lemma HolderAbsorbs(s: System, p: Proc, id: Id, r: AgentJob)
    requires Inv(s) && Absorbed(r, s.keys, id) && Settled(s, id)
    ensures Absorbed(r, DoMark(s, p).keys, id) && Absorbed(r, DoCount(s, p).keys, id)
    ensures Absorbed(r, DoRecord(s, p).keys, id) && Absorbed(r, DoClose(s, p).keys, id)
  {
    HolderNotSettled(s, p, id);
    hide Inv, DoMark, DoCount, DoRecord, DoRaise, DoClose;
    OthersUntouched(s, p, id);
    OutcomesUntouched(s, p, id);
  }

  /** The steps that leave every record alone. */
  lemma OnlyPlacesMove(s: System, p: Proc, id: Id)
    ensures DoPush(s, p).keys.jobs == s.keys.jobs && DoPumpPop(s, p, id).keys.jobs == s.keys.jobs
    ensures DoPumpPlace(s, p).keys.jobs == s.keys.jobs && DoDequeue(s, p).keys.jobs == s.keys.jobs
    ensures DoPumpEnds(s, p).keys.jobs == s.keys.jobs && DoLoad(s, p).keys.jobs == s.keys.jobs
  {
  }

  lemma OnlyPhasesMove(s: System, p: Proc, o: Outcome)
    ensures DoRun(s, p, o).keys.jobs == s.keys.jobs && DoReadDue(s, p).keys.jobs == s.keys.jobs
    ensures DoSchedule(s, p).keys.jobs == s.keys.jobs && DoRaise(s, p).keys.jobs == s.keys.jobs
  {
    hide Backoff, Raises;
  }

  lemma {:induction false} SettledAbsorbing(s: System, before: seq<Event>, after: seq<Event>, id: Id)
    requires Initial(s) && Settled(Exec(s, before), id) && id in Exec(s, before).keys.jobs
    ensures Absorbed(Exec(s, before).keys.jobs[id], Exec(s, before + after).keys, id)
    ensures id in Exec(s, before + after).place && Exec(s, before + after).place[id] == Exec(s, before).place[id]
    decreases |after|
  {
    hide Exec, Step, Inv, Initial;
    if after == [] {
      assert before + after == before;
    } else {
      var front, e := after[..|after| - 1], after[|after| - 1];
      SettledAbsorbing(s, before, front, id);
      assert before + after == (before + front) + [e];
      ExecSnoc(s, before + front, e);
      ExecInv(s, before + front);
      StepAbsorbs(Exec(s, before + front), e, id, Exec(s, before).keys.jobs[id]);
      SettledStays(Exec(s, before + front), e, id);
    }
  }

  /** Nothing but the cancel flag of a finished job ever changes. */
  lemma {:induction false} TerminalAbsorbing(s: System, before: seq<Event>, after: seq<Event>, id: Id)
    requires Initial(s) && id in Exec(s, before).keys.jobs && Terminal(Exec(s, before).keys.jobs[id])
    ensures Absorbed(Exec(s, before).keys.jobs[id], Exec(s, before + after).keys, id)
  {
    ExecInv(s, before);
    assert Ok(Exec(s, before), id, 0);
    hide Exec, Inv, Initial;
    SettledAbsorbing(s, before, after, id);
  }

  /** Nor does anything but the cancel flag of a stranded one: it stays running for ever. */
  lemma {:induction false} StrandedForEver(s: System, before: seq<Event>, after: seq<Event>, id: Id)
    requires Initial(s) && Stranded(Exec(s, before), id)
    ensures Stranded(Exec(s, before + after), id)
    ensures Absorbed(Exec(s, before).keys.jobs[id], Exec(s, before + after).keys, id)
  {
    ExecInv(s, before);
    ExecInv(s, before + after);
    hide Exec, Inv, Initial;
    StrandedIsLost(Exec(s, before), id);
    SettledAbsorbing(s, before, after, id);
    StrandedIsLost(Exec(s, before + after), id);
  }
}
