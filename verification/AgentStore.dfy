/**
 The agent queue of the consumer API: the job hashes of job_store.py, the ready list and
 the delayed sorted set of queueing.py, and the work of one worker on one job.
 */
module AgentStore {
  import opened Wrappers
  import opened Basics
  import Models

  type Id = Models.Id

  datatype AgentStatus = Queued | Running | Succeeded | Failed | Cancelled

  datatype ErrorInfo = ErrorInfo(code: string, message: string)

  datatype AgentJob = AgentJob(
    status: AgentStatus,
    startedAt: Option<real>,
    finishedAt: Option<real>,
    attempts: nat,
    maxAttempts: int,
    result: Option<string>,
    error: Option<ErrorInfo>,
    cancelRequested: bool)

  function NewJob(maxAttempts: int): AgentJob {
    AgentJob(Queued, None, None, 0, maxAttempts, None, None, false)
  }

  predicate Terminal(j: AgentJob) {
    j.status == Succeeded || j.status == Failed || j.status == Cancelled
  }

  /** The shared Redis keys. The ready list is written in Redis order: LPUSH at the front, BRPOP at the back. */
  datatype Keys = Keys(jobs: map<Id, AgentJob>, ready: seq<Id>, delayed: map<Id, real>)

  // ---------- Commands ----------

  function CreateCmd(k: Keys, id: Id, maxAttempts: int): Keys {
    k.(jobs := k.jobs[id := NewJob(maxAttempts)])
  }

  function PushCmd(k: Keys, id: Id): Keys {
    k.(ready := [id] + k.ready)
  }

  function StatusCmd(k: Keys, id: Id, st: AgentStatus, started: bool, finished: bool, now: real): Keys
    requires id in k.jobs
  {
    var j := k.jobs[id];
    k.(jobs := k.jobs[id := j.(status := st,
                               startedAt := if started then Some(now) else j.startedAt,
                               finishedAt := if finished then Some(now) else j.finishedAt)])
  }

  function CountCmd(k: Keys, id: Id): Keys
    requires id in k.jobs
  {
    k.(jobs := k.jobs[id := k.jobs[id].(attempts := k.jobs[id].attempts + 1)])
  }

  function ResultCmd(k: Keys, id: Id, result: string): Keys
    requires id in k.jobs
  {
    k.(jobs := k.jobs[id := k.jobs[id].(result := Some(result))])
  }

  function ErrorCmd(k: Keys, id: Id, e: ErrorInfo): Keys
    requires id in k.jobs
  {
    k.(jobs := k.jobs[id := k.jobs[id].(error := Some(e))])
  }

  function CancelCmd(k: Keys, id: Id): Keys
    requires id in k.jobs
  {
    k.(jobs := k.jobs[id := k.jobs[id].(cancelRequested := true)])
  }

  function DelayCmd(k: Keys, id: Id, due: real): Keys {
    k.(delayed := k.delayed[id := due])
  }

  /** ZPOPMIN may return id: no member has a smaller score. */
  predicate Earliest(delayed: map<Id, real>, id: Id) {
    id in delayed && forall o :: o in delayed ==> delayed[id] <= delayed[o]
  }

  // ---------- Idempotent submission ----------

  /** A submission under an idempotency key, "" for none, with the id that a new job would get. */
  datatype Submission = Submission(agent: string, key: string, id: Id, maxAttempts: int)

  /** The idempotency keys with the jobs they stand for. */
  type Aliases = map<(string, string), Id>

  predicate Reuses(aliases: Aliases, sub: Submission) {
    sub.key != "" && (sub.agent, sub.key) in aliases
  }

  function JobFor(aliases: Aliases, sub: Submission): Id {
    if Reuses(aliases, sub) then aliases[(sub.agent, sub.key)] else sub.id
  }

  function AliasesAfter(aliases: Aliases, sub: Submission): Aliases {
    if sub.key == "" || Reuses(aliases, sub) then aliases else aliases[(sub.agent, sub.key) := sub.id]
  }

  function AliasRun(subs: seq<Submission>): Aliases {
    if subs == [] then map[] else AliasesAfter(AliasRun(subs[..|subs| - 1]), subs[|subs| - 1])
  }

  /** The job that submission i of a sequence is answered with. */
  function AnswerTo(subs: seq<Submission>, i: nat): Id
    requires i < |subs|
  {
    JobFor(AliasRun(subs[..i]), subs[i])
  }

  predicate SameKey(a: Submission, b: Submission) {
    a.key != "" && a.key == b.key && a.agent == b.agent
  }

  predicate FreshIds(subs: seq<Submission>) {
    forall i, j :: 0 <= i < j < |subs| ==> subs[i].id != subs[j].id
  }

  predicate FirstWith(subs: seq<Submission>, i: nat, key: Submission)
    requires i < |subs|
  {
    SameKey(subs[i], key) && forall h :: 0 <= h < i ==> !SameKey(subs[h], key)
  }

  /** A key stands for the job of the first submission that used it. */
  lemma {:induction false} AliasIsFirst(subs: seq<Submission>, i: nat, key: Submission)
    requires i < |subs| && FirstWith(subs, i, key)
    ensures (key.agent, key.key) in AliasRun(subs) && AliasRun(subs)[(key.agent, key.key)] == subs[i].id
    decreases |subs|
  {
    var front := subs[..|subs| - 1];
    if i < |front| {
      assert FirstWith(front, i, key);
      AliasIsFirst(front, i, key);
    } else {
      NoAlias(front, key);
    }
  }

  lemma {:induction false} NoAlias(subs: seq<Submission>, key: Submission)
    requires forall h :: 0 <= h < |subs| ==> !SameKey(subs[h], key)
    ensures key.key != "" ==> (key.agent, key.key) !in AliasRun(subs)
    decreases |subs|
  {
    if subs != [] {
      assert !SameKey(subs[|subs| - 1], key);
      NoAlias(subs[..|subs| - 1], key);
    }
  }

  /** Each submission is answered with the job of some submission up to it: the first with its key, or itself. */
  lemma {:induction false} AnswerOrigin(subs: seq<Submission>, j: nat) returns (i: nat)
    requires j < |subs|
    ensures i <= j && AnswerTo(subs, j) == subs[i].id
    ensures if subs[j].key == "" then i == j else FirstWith(subs, i, subs[j])
  {
    i := j;
    if subs[j].key != "" {
      var before := subs[..j];
      if exists h :: 0 <= h < j && SameKey(subs[h], subs[j]) {
        i := LeastUse(subs, j, subs[j]);
        assert FirstWith(before, i, subs[j]);
        AliasIsFirst(before, i, subs[j]);
      } else {
        NoAlias(before, subs[j]);
      }
    }
  }

  lemma {:induction false} LeastUse(subs: seq<Submission>, n: nat, key: Submission) returns (i: nat)
    requires n <= |subs| && exists h :: 0 <= h < n && SameKey(subs[h], key)
    ensures i < n && FirstWith(subs, i, key)
    decreases n
  {
    if exists h :: 0 <= h < n - 1 && SameKey(subs[h], key) {
      i := LeastUse(subs, n - 1, key);
    } else {
      i := n - 1;
    }
  }

  /** Of any sequence of submissions, two are answered with the same job exactly when they share agent and key. */
  lemma IdempotentExactly(subs: seq<Submission>, i: nat, j: nat)
    requires FreshIds(subs) && i < j < |subs|
    ensures AnswerTo(subs, i) == AnswerTo(subs, j) <==> SameKey(subs[i], subs[j])
  {
    var a := AnswerOrigin(subs, i);
    var b := AnswerOrigin(subs, j);
    assert a != b ==> subs[a].id != subs[b].id;
  }

  // ---------- Retry policy ----------

  /** int(job.max_attempts or 3). */
  function EffectiveMax(maxAttempts: int): int {
    if maxAttempts == 0 then 3 else maxAttempts
  }

  /** The most runs a job can get. */
  function RunLimit(maxAttempts: int): (n: int)
    ensures n >= 1
  {
    if EffectiveMax(maxAttempts) < 1 then 1 else EffectiveMax(maxAttempts)
  }

  /** float(2 ** k) raises OverflowError from this k on. */
  const FLOAT_EXPONENTS := 1024

  /** min(60.0, float(2 ** (attempt - 1))) seconds, where the conversion does not overflow. */
  function Backoff(attempt: int): Option<real>
    requires attempt >= 1
  {
    if attempt - 1 >= FLOAT_EXPONENTS then None
    else
      var p := Pow2(attempt - 1) as real;
      Some(if p < 60.0 then p else 60.0)
  }

  /**
   The delay starts at a second and doubles with every attempt until it stays at a minute,
   up to attempt 1024; no later attempt has one.
   */
  lemma BackoffShape(attempt: int)
    requires attempt >= 1
    ensures Backoff(1) == Some(1.0)
    ensures Backoff(attempt).Some? <==> attempt <= 1024
    ensures Backoff(attempt).Some? ==> 1.0 <= Backoff(attempt).value <= 60.0
    ensures Backoff(attempt).Some? && Backoff(attempt + 1).Some? ==>
              Backoff(attempt + 1).value
              == if 2.0 * Backoff(attempt).value < 60.0 then 2.0 * Backoff(attempt).value else 60.0
  {
    assert Pow2(0) == 1;
    assert Pow2(attempt) == 2 * Pow2(attempt - 1);
  }

  // ---------- What one run can end in ----------

  datatype Outcome =
    | Hung
    | NoPayload
    | Ok(result: string)
    | Error(transient: bool, message: string)

  predicate Retries(attempt: int, maxAttempts: int, o: Outcome) {
    o.Error? && o.transient && attempt < EffectiveMax(maxAttempts)
  }

  /** A retry is due, but its delay overflows: process_one raises before it writes anything. */
  predicate Raises(attempt: int, maxAttempts: int, o: Outcome) {
    attempt >= 1 && Retries(attempt, maxAttempts, o) && Backoff(attempt).None?
  }

  lemma RaisesExactly(attempt: int, maxAttempts: int, o: Outcome)
    requires attempt >= 1
    ensures Raises(attempt, maxAttempts, o)
            <==> o.Error? && o.transient && attempt > 1024 && attempt < if maxAttempts == 0 then 3 else maxAttempts
  {
  }

  /** The most runs a job may get: max(1, max_attempts), with 0 read as 3. */
  lemma RunLimitExact(maxAttempts: int)
    ensures RunLimit(maxAttempts) == if maxAttempts == 0 then 3 else if maxAttempts < 1 then 1 else maxAttempts
  {
  }

  /** The error recorded for an outcome that is neither a success nor retried. */
  function FinalError(o: Outcome): ErrorInfo
    requires !o.Ok?
  {
    match o
    case Hung => ErrorInfo("timeout", "Job exceeded its time limit and was terminated.")
    case NoPayload => ErrorInfo("worker_error", "Worker finished without returning a result.")
    case Error(_, m) => ErrorInfo("agent_failed", m)
  }

  function RetryError(): ErrorInfo {
    ErrorInfo("retry_scheduled", "Transient error; retrying.")
  }

  /** The keys after a worker has taken an uncancelled job through one run with outcome o. */
  function AfterRun(k: Keys, id: Id, o: Outcome, started: real, ended: real): Keys
    requires id in k.jobs
  {
    var k1 := CountCmd(StatusCmd(k, id, Running, true, false, started), id);
    var attempt := k1.jobs[id].attempts;
    if o.Ok? then StatusCmd(ResultCmd(k1, id, o.result), id, Succeeded, false, true, ended)
    else if Raises(attempt, k.jobs[id].maxAttempts, o) then k1
    else if Retries(attempt, k.jobs[id].maxAttempts, o) then
      DelayCmd(StatusCmd(ErrorCmd(k1, id, RetryError()), id, Queued, false, false, ended), id,
               ended + Backoff(attempt).value)
    else StatusCmd(ErrorCmd(k1, id, FinalError(o)), id, Failed, false, true, ended)
  }

  /** What a run means for the record and the delayed set, outcome by outcome; limit reads 0 as 3. */
  predicate RunMeans(k: Keys, k': Keys, raised: bool, id: Id, o: Outcome, started: real, ended: real, limit: int)
    requires id in k.jobs
  {
    RunFrame(k, k', id, started) && RunEnds(k, k', raised, id, o, ended, limit)
  }

  /** The ready list and every other job stay, and one more attempt is on record. */
  predicate RunFrame(k: Keys, k': Keys, id: Id, started: real)
    requires id in k.jobs
  {
    && k'.ready == k.ready && k'.jobs.Keys == k.jobs.Keys
    && (forall j :: j in k.jobs && j != id ==> k'.jobs[j] == k.jobs[j])
    && k'.jobs[id].attempts == k.jobs[id].attempts + 1 && k'.jobs[id].startedAt == Some(started)
    && k'.jobs[id].maxAttempts == k.jobs[id].maxAttempts
  }

  predicate RunEnds(k: Keys, k': Keys, raised: bool, id: Id, o: Outcome, ended: real, limit: int)
    requires id in k.jobs
  {
    && id in k'.jobs
    && var r, r', attempt := k.jobs[id], k'.jobs[id], k.jobs[id].attempts + 1;
    && (raised <==> o.Error? && o.transient && attempt < limit && attempt > 1024)
    && (o.Ok? ==> Ends(k, k', id, Succeeded, Some(o.result), r.error, ended))
    && (o.Hung? ==>
          Ends(k, k', id, Failed, r.result,
               Some(ErrorInfo("timeout", "Job exceeded its time limit and was terminated.")), ended))
    && (o.NoPayload? ==>
          Ends(k, k', id, Failed, r.result,
               Some(ErrorInfo("worker_error", "Worker finished without returning a result.")), ended))
    && (o.Error? && (!o.transient || attempt >= limit) ==>
          Ends(k, k', id, Failed, r.result, Some(ErrorInfo("agent_failed", o.message)), ended))
    && (o.Error? && o.transient && attempt < limit && attempt <= 1024 ==>
          && r'.status == Queued && r'.result == r.result
          && r'.error.Some? && r'.error.value.code == "retry_scheduled"
          && id in k'.delayed && ended + 1.0 <= k'.delayed[id] <= ended + 60.0
          && Backoff(attempt) == Some(k'.delayed[id] - ended)
          && k'.delayed == k.delayed[id := k'.delayed[id]])
    && (raised ==> r'.status == Running && r'.error == r.error && r'.result == r.result && k'.delayed == k.delayed)
  }

  lemma AfterRunFrame(k: Keys, id: Id, o: Outcome, started: real, ended: real)
    requires id in k.jobs
    ensures RunFrame(k, AfterRun(k, id, o, started, ended), id, started)
  {
    hide Backoff, Raises, Retries, FinalError, RetryError;
  }

  lemma OkMeans(k: Keys, id: Id, o: Outcome, started: real, ended: real, limit: int)
    requires id in k.jobs && limit == if k.jobs[id].maxAttempts == 0 then 3 else k.jobs[id].maxAttempts
    requires o.Ok?
    ensures RunEnds(k, AfterRun(k, id, o, started, ended), Raises(k.jobs[id].attempts + 1, k.jobs[id].maxAttempts, o),
                    id, o, ended, limit)
  {
    hide DelayCmd, RetryError, FinalError, Backoff;
  }

  lemma HungMeans(k: Keys, id: Id, o: Outcome, started: real, ended: real, limit: int)
    requires id in k.jobs && limit == if k.jobs[id].maxAttempts == 0 then 3 else k.jobs[id].maxAttempts
    requires o.Hung?
    ensures RunEnds(k, AfterRun(k, id, o, started, ended), Raises(k.jobs[id].attempts + 1, k.jobs[id].maxAttempts, o),
                    id, o, ended, limit)
  {
    hide DelayCmd, RetryError, ResultCmd, Backoff, Pow2;
  }

  lemma NoPayloadMeans(k: Keys, id: Id, o: Outcome, started: real, ended: real, limit: int)
    requires id in k.jobs && limit == if k.jobs[id].maxAttempts == 0 then 3 else k.jobs[id].maxAttempts
    requires o.NoPayload?
    ensures RunEnds(k, AfterRun(k, id, o, started, ended), Raises(k.jobs[id].attempts + 1, k.jobs[id].maxAttempts, o),
                    id, o, ended, limit)
  {
    hide DelayCmd, RetryError, ResultCmd, Backoff, Pow2;
  }

  lemma FailureMeans(k: Keys, id: Id, o: Outcome, started: real, ended: real, limit: int)
    requires id in k.jobs && limit == if k.jobs[id].maxAttempts == 0 then 3 else k.jobs[id].maxAttempts
    requires o.Error? && (!o.transient || k.jobs[id].attempts + 1 >= limit)
    ensures RunEnds(k, AfterRun(k, id, o, started, ended), Raises(k.jobs[id].attempts + 1, k.jobs[id].maxAttempts, o),
                    id, o, ended, limit)
  {
    hide DelayCmd, RetryError, ResultCmd, Backoff;
  }

  lemma RetryMeans(k: Keys, id: Id, o: Outcome, started: real, ended: real, limit: int)
    requires id in k.jobs && limit == if k.jobs[id].maxAttempts == 0 then 3 else k.jobs[id].maxAttempts
    requires o.Error? && o.transient && k.jobs[id].attempts + 1 < limit && k.jobs[id].attempts + 1 <= 1024
    ensures RunEnds(k, AfterRun(k, id, o, started, ended), Raises(k.jobs[id].attempts + 1, k.jobs[id].maxAttempts, o),
                    id, o, ended, limit)
  {
    BackoffShape(k.jobs[id].attempts + 1);
    hide FinalError, ResultCmd, Backoff;
  }

  lemma RaiseMeans(k: Keys, id: Id, o: Outcome, started: real, ended: real, limit: int)
    requires id in k.jobs && limit == if k.jobs[id].maxAttempts == 0 then 3 else k.jobs[id].maxAttempts
    requires o.Error? && o.transient && k.jobs[id].attempts + 1 < limit && k.jobs[id].attempts + 1 > 1024
    ensures RunEnds(k, AfterRun(k, id, o, started, ended), Raises(k.jobs[id].attempts + 1, k.jobs[id].maxAttempts, o),
                    id, o, ended, limit)
  {
    BackoffShape(k.jobs[id].attempts + 1);
    hide FinalError, ResultCmd, Backoff;
  }

  lemma AfterRunExact(k: Keys, id: Id, o: Outcome, started: real, ended: real, limit: int)
    requires id in k.jobs && limit == if k.jobs[id].maxAttempts == 0 then 3 else k.jobs[id].maxAttempts
    ensures RunMeans(k, AfterRun(k, id, o, started, ended), Raises(k.jobs[id].attempts + 1, k.jobs[id].maxAttempts, o),
                     id, o, started, ended, limit)
  {
    AfterRunFrame(k, id, o, started, ended);
    hide RunFrame, RunEnds, AfterRun;
    if o.Ok? {
      OkMeans(k, id, o, started, ended, limit);
    } else if o.Hung? {
      HungMeans(k, id, o, started, ended, limit);
    } else if o.NoPayload? {
      NoPayloadMeans(k, id, o, started, ended, limit);
    } else if !o.transient || k.jobs[id].attempts + 1 >= limit {
      FailureMeans(k, id, o, started, ended, limit);
    } else if k.jobs[id].attempts + 1 <= 1024 {
      RetryMeans(k, id, o, started, ended, limit);
    } else {
      RaiseMeans(k, id, o, started, ended, limit);
    }
  }

  /** The run ended for good: status, outcome fields and finish time, and nothing is scheduled. */
  predicate Ends(k: Keys, k': Keys, id: Id, st: AgentStatus, result: Option<string>, error: Option<ErrorInfo>,
                 ended: real)
    requires id in k.jobs
  {
    && id in k'.jobs && k'.jobs[id].status == st && k'.jobs[id].result == result && k'.jobs[id].error == error
    && k'.jobs[id].finishedAt == Some(ended) && k'.delayed == k.delayed
  }

  class AgentQueue {
    var jobs: map<Id, AgentJob>
    var ready: seq<Id>
    var delayed: map<Id, real>
    var aliases: Aliases

    function View(): Keys
      reads this
    {
      Keys(jobs, ready, delayed)
    }

    constructor ()
      ensures View() == Keys(map[], [], map[]) && aliases == map[]
    {
      jobs, ready, delayed := map[], [], map[];
      aliases := map[];
    }

    /** create_job without interference: a key in use answers with its job and changes nothing. */
    method CreateJob(sub: Submission) returns (id: Id, reused: bool)
      modifies this`jobs, this`aliases
      ensures id == JobFor(old(aliases), sub) && (reused <==> Reuses(old(aliases), sub))
      ensures aliases == AliasesAfter(old(aliases), sub)
      ensures View() == if reused then old(View()) else CreateCmd(old(View()), sub.id, sub.maxAttempts)
      ensures reused <==> sub.key != "" && (sub.agent, sub.key) in old(aliases)
      ensures reused ==> id == old(aliases)[(sub.agent, sub.key)] && jobs == old(jobs)
      ensures !reused ==> id == sub.id && jobs == old(jobs)[id := AgentJob(Queued, None, None, 0, sub.maxAttempts,
                                                                           None, None, false)]
    {
      if sub.key != "" && (sub.agent, sub.key) in aliases {
        return aliases[(sub.agent, sub.key)], true;
      }
      jobs := jobs[sub.id := NewJob(sub.maxAttempts)];
      if sub.key != "" {
        aliases := aliases[(sub.agent, sub.key) := sub.id];
      }
      return sub.id, false;
    }

    method Enqueue(id: Id)
      modifies this
      ensures View() == PushCmd(old(View()), id)
      ensures ready == [id] + old(ready) && jobs == old(jobs) && delayed == old(delayed)
    {
      ready := [id] + ready;
    }

    /** BRPOP: the oldest pushed id, or None when the wait times out. */
    method Dequeue() returns (r: Option<Id>)
      modifies this`ready
      ensures old(ready) == [] ==> r == None && ready == []
      ensures old(ready) != [] ==> r.Some? && old(ready) == ready + [r.value]
    {
      if ready == [] {
        return None;
      }
      r := Some(ready[|ready| - 1]);
      ready := ready[..|ready| - 1];
    }

    method UpdateStatus(id: Id, st: AgentStatus, started: bool, finished: bool, now: real)
      requires id in jobs
      modifies this
      ensures View() == StatusCmd(old(View()), id, st, started, finished, now)
      ensures var r := old(jobs)[id];
              jobs == old(jobs)[id := AgentJob(st, if started then Some(now) else r.startedAt,
                                               if finished then Some(now) else r.finishedAt, r.attempts,
                                               r.maxAttempts, r.result, r.error, r.cancelRequested)]
    {
      var j := jobs[id].(status := st);
      if started {
        j := j.(startedAt := Some(now));
      }
      if finished {
        j := j.(finishedAt := Some(now));
      }
      jobs := jobs[id := j];
    }

    method IncrementAttempts(id: Id) returns (attempt: nat)
      requires id in jobs
      modifies this
      ensures View() == CountCmd(old(View()), id) && attempt == jobs[id].attempts >= 1
      ensures attempt == old(jobs)[id].attempts + 1 && jobs == old(jobs)[id := old(jobs)[id].(attempts := attempt)]
    {
      attempt := jobs[id].attempts + 1;
      jobs := jobs[id := jobs[id].(attempts := attempt)];
    }

    method SetResult(id: Id, result: string)
      requires id in jobs
      modifies this
      ensures View() == ResultCmd(old(View()), id, result)
      ensures jobs == old(jobs)[id := old(jobs)[id].(result := Some(result))]
    {
      jobs := jobs[id := jobs[id].(result := Some(result))];
    }

    method SetError(id: Id, e: ErrorInfo)
      requires id in jobs
      modifies this
      ensures View() == ErrorCmd(old(View()), id, e)
      ensures jobs == old(jobs)[id := old(jobs)[id].(error := Some(e))]
    {
      jobs := jobs[id := jobs[id].(error := Some(e))];
    }

    method RequestCancel(id: Id)
      requires id in jobs
      modifies this
      ensures View() == CancelCmd(old(View()), id)
      ensures jobs == old(jobs)[id := old(jobs)[id].(cancelRequested := true)]
    {
      jobs := jobs[id := jobs[id].(cancelRequested := true)];
    }

    method ScheduleDelayed(id: Id, now: real, delay: real)
      modifies this
      ensures View() == DelayCmd(old(View()), id, now + delay)
      ensures delayed == old(delayed)[id := now + delay] && jobs == old(jobs) && ready == old(ready)
    {
      delayed := delayed[id := now + delay];
    }

    /**
     pump_delayed without interference. It moves jobs earliest first, only due ones, at
     most limit of them; nothing else leaves the set, and if the limit was not reached
     no due job stays behind.
     */
    method PumpDelayed(now: real, limit: nat) returns (moved: nat, ghost order: seq<Id>)
      modifies this
      ensures moved == |order| <= limit && jobs == old(jobs)
      ensures ready == Reverse(order) + old(ready)
      ensures |ready| == |order| + |old(ready)| && ready[|order|..] == old(ready)
      ensures forall i :: 0 <= i < |order| ==> ready[|order| - 1 - i] == order[i]
      ensures Pumped(old(delayed), delayed, order, now)
      ensures forall i :: 0 <= i < |order| ==> order[i] in old(delayed) && old(delayed)[order[i]] <= now
      ensures forall i, j :: 0 <= i < j < |order| ==>
                order[i] != order[j] && old(delayed)[order[i]] <= old(delayed)[order[j]]
      ensures delayed == old(delayed) - (set id | id in order)
      ensures moved < limit ==> forall id :: id in delayed ==> delayed[id] > now
    {
      moved, order := 0, [];
      while moved < limit
        invariant moved == |order| <= limit && jobs == old(jobs)
        invariant ready == Reverse(order) + old(ready)
        invariant Pumped(old(delayed), delayed, order, now)
      {
        ReverseExact(order);
        if delayed == map[] {
          return;
        }
        ghost var before := delayed;
        var id, score := PopMin();
        if score > now {
          delayed := delayed[id := score];
          assert delayed == before;
          return;
        }
        PumpExtend(old(delayed), before, order, now, id);
        ReverseSnoc(order, id, old(ready));
        ready := [id] + ready;
        order := order + [id];
        moved := moved + 1;
      }
      ReverseExact(order);
    }

    /** ZPOPMIN on a non-empty set. */
    method PopMin() returns (id: Id, score: real)
      requires delayed != map[]
      modifies this`delayed
      ensures Earliest(old(delayed), id) && score == old(delayed)[id]
      ensures id in old(delayed) && forall o :: o in old(delayed) ==> old(delayed)[id] <= old(delayed)[o]
      ensures delayed == old(delayed) - {id}
    {
      var rest := delayed.Keys;
      id :| id in rest;
      rest := rest - {id};
      while rest != {}
        invariant rest <= delayed.Keys && id in delayed
        invariant forall o :: o in delayed && o !in rest ==> delayed[id] <= delayed[o]
        decreases rest
      {
        var o :| o in rest;
        rest := rest - {o};
        if delayed[o] < delayed[id] {
          id := o;
        }
      }
      score := delayed[id];
      delayed := delayed - {id};
    }

    /**
     process_one from get_job on, for a job that was popped, without interference; whether it
     raises, which leaves the job running with nothing scheduled.
     */
    method ProcessJob(id: Id, o: Outcome, started: real, ended: real) returns (raised: bool)
      modifies this
      ensures id !in old(jobs) ==> View() == old(View()) && !raised
      ensures id in old(jobs) ==>
                && ready == old(ready) && jobs.Keys == old(jobs).Keys
                && jobs[id].maxAttempts == old(jobs)[id].maxAttempts
                && forall j :: j in jobs && j != id ==> jobs[j] == old(jobs)[j]
      ensures id in old(jobs) && old(jobs)[id].cancelRequested
              ==> !raised && View() == StatusCmd(old(View()), id, Cancelled, false, true, started)
                  && jobs[id].status == Cancelled && jobs[id].attempts == old(jobs)[id].attempts
                  && jobs[id].finishedAt == Some(started) && delayed == old(delayed)
      ensures id in old(jobs) && !old(jobs)[id].cancelRequested
              ==> View() == AfterRun(old(View()), id, o, started, ended)
                  && jobs[id].attempts == old(jobs)[id].attempts + 1 && jobs[id].startedAt == Some(started)
      ensures id in old(jobs) && !old(jobs)[id].cancelRequested && o.Ok?
              ==> !raised && jobs[id].status == Succeeded && jobs[id].result == Some(o.result)
                  && jobs[id].finishedAt == Some(ended) && delayed == old(delayed)
      ensures id in old(jobs) && !old(jobs)[id].cancelRequested
              ==> RunMeans(old(View()), View(), raised, id, o, started, ended,
                           if old(jobs)[id].maxAttempts == 0 then 3 else old(jobs)[id].maxAttempts)
      ensures id in old(jobs) && !old(jobs)[id].cancelRequested && o.Error?
              ==> var limit := if old(jobs)[id].maxAttempts == 0 then 3 else old(jobs)[id].maxAttempts;
                  var attempt := old(jobs)[id].attempts + 1;
                  if !o.transient || attempt >= limit
                  then !raised && jobs[id].status == Failed && delayed == old(delayed)
                       && jobs[id].error == Some(ErrorInfo("agent_failed", o.message))
                  else if attempt <= 1024
                  then !raised && jobs[id].status == Queued && id in delayed
                       && delayed == old(delayed)[id := delayed[id]]
                       && ended + 1.0 <= delayed[id] <= ended + 60.0
                       && Backoff(attempt) == Some(delayed[id] - ended)
                       && jobs[id].error.Some? && jobs[id].error.value.code == "retry_scheduled"
                  else raised && jobs[id].status == Running && delayed == old(delayed)
                       && jobs[id].error == old(jobs)[id].error
    {
      if id !in jobs {
        return false;
      }
      if jobs[id].cancelRequested {
        hide RunMeans, RunFrame, RunEnds, Ends, AfterRun, Raises;
        UpdateStatus(id, Cancelled, false, true, started);
        return false;
      }
      hide StatusCmd, AfterRun, Raises;
      raised := RunLoaded(id, o, started, ended);
    }

    /** A job that is loaded and not cancelled. */
    method RunLoaded(id: Id, o: Outcome, started: real, ended: real) returns (raised: bool)
      requires id in jobs && !jobs[id].cancelRequested
      modifies this
      ensures View() == AfterRun(old(View()), id, o, started, ended)
      ensures raised <==> Raises(old(jobs)[id].attempts + 1, old(jobs)[id].maxAttempts, o)
      ensures RunMeans(old(View()), View(), raised, id, o, started, ended,
                       if old(jobs)[id].maxAttempts == 0 then 3 else old(jobs)[id].maxAttempts)
    {
      AfterRunExact(View(), id, o, started, ended, if jobs[id].maxAttempts == 0 then 3 else jobs[id].maxAttempts);
      RaisesExactly(jobs[id].attempts + 1, jobs[id].maxAttempts, o);
      raised := RunJob(id, o, started, ended);
      hide AfterRun, Raises;
    }

    /** The rest of process_one, once the job is loaded and not cancelled. */
    method RunJob(id: Id, o: Outcome, started: real, ended: real) returns (raised: bool)
      requires id in jobs
      modifies this
      ensures View() == AfterRun(old(View()), id, o, started, ended)
      ensures raised <==> Raises(old(jobs)[id].attempts + 1, old(jobs)[id].maxAttempts, o)
    {
      hide FinalError, RetryError, Backoff;
      raised := false;
      var maximum := jobs[id].maxAttempts;
      UpdateStatus(id, Running, true, false, started);
      var attempt := IncrementAttempts(id);
      match o
      case Hung =>
        SetError(id, FinalError(o));
        UpdateStatus(id, Failed, false, true, ended);
      case NoPayload =>
        SetError(id, FinalError(o));
        UpdateStatus(id, Failed, false, true, ended);
      case Ok(result) =>
        SetResult(id, result);
        UpdateStatus(id, Succeeded, false, true, ended);
      case Error(transient, message) =>
        var maxAttempts := if maximum == 0 then 3 else maximum;
        if attempt < maxAttempts && transient {
          var delay := Backoff(attempt);
          if delay.None? {
            return true;
          }
          SetError(id, RetryError());
          UpdateStatus(id, Queued, false, false, ended);
          ScheduleDelayed(id, ended, delay.value);
        } else {
          SetError(id, FinalError(o));
          UpdateStatus(id, Failed, false, true, ended);
        }
    }
  }

  /** after is before without the ids of order, which were due, distinct and taken in order of due time. */
  ghost predicate Pumped(before: map<Id, real>, after: map<Id, real>, order: seq<Id>, now: real) {
    && (forall i :: 0 <= i < |order| ==> order[i] in before && before[order[i]] <= now)
    && (forall i, j :: 0 <= i < j < |order| ==> order[i] != order[j] && before[order[i]] <= before[order[j]])
    && after == before - (set id | id in order)
    && (forall i, id :: 0 <= i < |order| && id in after ==> before[order[i]] <= after[id])
  }

  lemma PumpExtend(before: map<Id, real>, after: map<Id, real>, order: seq<Id>, now: real, id: Id)
    requires Pumped(before, after, order, now) && Earliest(after, id) && after[id] <= now
    ensures Pumped(before, after - {id}, order + [id], now)
  {
    var order' := order + [id];
    assert forall o :: o in order' <==> o in order || o == id;
    assert after - {id} == before - (set o | o in order');
  }

  lemma ReverseSnoc(order: seq<Id>, id: Id, rest: seq<Id>)
    ensures Reverse(order + [id]) + rest == [id] + (Reverse(order) + rest)
  {
    assert (order + [id])[..|order|] == order;
  }

  lemma {:induction false} ReverseExact(s: seq<Id>)
    ensures |Reverse(s)| == |s|
    ensures forall i :: 0 <= i < |s| ==> Reverse(s)[|s| - 1 - i] == s[i]
    decreases |s|
  {
    if s != [] {
      var front, r := s[..|s| - 1], Reverse(s);
      ReverseExact(front);
      assert r == [s[|s| - 1]] + Reverse(front);
      hide Reverse;
      forall i | 0 <= i < |s|
        ensures r[|s| - 1 - i] == s[i]
      {
        if i < |front| {
          assert Reverse(front)[|front| - 1 - i] == front[i];
        }
      }
    }
  }

  function Reverse(s: seq<Id>): seq<Id> {
    if s == [] then [] else [s[|s| - 1]] + Reverse(s[..|s| - 1])
  }
}
