/**
 The engine's shot guardrail on the in-memory tracker, which is the default. Both get_usage
 and reserve read the clock before they take the lock, so a region may run on a reading
 older than that of the region before it: every event carries its own reading, in any order.
 */
module LocalGuardrail {
  import opened Wrappers
  import opened Budget
  import opened Guardrail

  /**
   _apply_shot_guardrails on the in-memory tracker from the point where get_usage has
   answered usageRead. As on Redis, a grant is between 1 and the experiment cap, at most the
   request, and added to a usage that stays within the session cap. A refusal before the
   reservation changes nothing; a refused reservation evicts what has expired and refreshes
   the session, without adding to its usage.
   */
  method ApplyShotGuardrailsLocal(l: Limits, tracker: MemoryTracker, sid: Session, shotBudget: Option<int>,
                                  usageRead: int, simulator: bool, now: real)
    returns (r: Result<(int, bool), GuardError>)
    requires ValidLimits(l)
    modifies tracker
    ensures r.Ok? <==> Precheck(l, Requested(l, shotBudget), usageRead).Ok?
                       && MemoryUsage(old(tracker.usage), tracker.ttl, sid, now)
                          + Precheck(l, Requested(l, shotBudget), usageRead).value <= l.perSession
    ensures r.Ok? ==> Precheck(l, Requested(l, shotBudget), usageRead) == Ok(r.value.0)
                      && (r.value.1 <==> !simulator && r.value.0 > l.defaultBudget)
                      && GrantOk(l, Requested(l, shotBudget), r.value.0)
    ensures var used := MemoryUsage(old(tracker.usage), tracker.ttl, sid, now);
            if Precheck(l, Requested(l, shotBudget), usageRead).Err? then tracker.usage == old(tracker.usage)
            else tracker.usage == Evict(old(tracker.usage), tracker.ttl, now)[
                                    sid := Seen(if r.Ok? then used + r.value.0 else used, now)]
    ensures r == Err(NonPositiveBudget) <==> Precheck(l, Requested(l, shotBudget), usageRead) == Err(NonPositiveBudget)
    ensures var requested := if shotBudget.None? || shotBudget.value == 0 then l.defaultBudget else shotBudget.value;
            var used := MemoryUsage(old(tracker.usage), tracker.ttl, sid, now);
            var left := if l.perSession > usageRead then l.perSession - usageRead else 0;
            var grant := if requested < l.perExperiment then requested else l.perExperiment;
            r == if requested > l.perSession || requested > left then Err(BudgetExceeded(left))
                 else if requested <= 0 then Err(NonPositiveBudget)
                 else if used + grant > l.perSession
                 then Err(BudgetExceeded(if l.perSession > used then l.perSession - used else 0))
                 else Ok((grant, !simulator && grant > l.defaultBudget))
  {
    var requested := if shotBudget.None? || shotBudget.value == 0 then l.defaultBudget else shotBudget.value;
    if requested > l.perSession || requested > Max0(l.perSession - usageRead) {
      return Err(BudgetExceeded(Max0(l.perSession - usageRead)));
    }
    var budget := requested;
    if budget <= 0 {
      return Err(NonPositiveBudget);
    }
    if budget > l.perExperiment {
      budget := l.perExperiment;
    }
    var warn := !simulator && budget > l.defaultBudget;
    var answer := tracker.ReserveShots(sid, budget, l.perSession, now);
    if !answer.accepted {
      return Err(BudgetExceeded(Max0(l.perSession - answer.usage)));
    }
    return Ok((budget, warn));
  }

  // ---------- Interleavings ----------

  /** granted sums the grants of a session since its entry was last evicted or reset. */
  datatype LocalSystem = LocalSystem(
    usage: map<Session, Seen>,
    threads: map<Thread, Phase>,
    granted: map<Session, int>,
    grants: seq<Grant>)

  /** Each region with the clock reading it works on; Sweep is an eviction by any other reader. */
  datatype LocalEvent =
    | Check(th: Thread, sid: Session, shotBudget: Option<int>, now: real)
    | ReserveShots(th: Thread, now: real)
    | ResetSession(sid: Session)
    | Sweep(now: real)

  /** Eviction forgets a session together with what it was granted. */
  function DoSweep(l: Limits, s: LocalSystem, now: real): LocalSystem {
    var left := Evict(s.usage, l.ttl, now);
    s.(usage := left, granted := map sid | sid in s.granted && sid in left :: s.granted[sid])
  }

  function GrantedTo(s: LocalSystem, sid: Session): int {
    if sid in s.granted then s.granted[sid] else 0
  }

  function ShotsOf(s: LocalSystem, sid: Session): int {
    if sid in s.usage then s.usage[sid].shots else 0
  }

  function DoCheck(l: Limits, s: LocalSystem, th: Thread, sid: Session,
                   shotBudget: Option<int>, now: real): LocalSystem {
    if th in s.threads && s.threads[th].Idle? then
      var swept := DoSweep(l, s, now);
      match Precheck(l, Requested(l, shotBudget), MemoryUsage(s.usage, l.ttl, sid, now))
      case Ok(b) => swept.(threads := s.threads[th := Checked(sid, Requested(l, shotBudget), b)])
      case Err(_) => swept
    else s
  }

  function DoReserve(l: Limits, s: LocalSystem, th: Thread, now: real): LocalSystem {
    if th in s.threads && s.threads[th].Checked? then
      var Checked(sid, requested, b) := s.threads[th];
      var swept := DoSweep(l, s, now);
      var s' := swept.(threads := s.threads[th := Idle],
                       usage := MemoryReserve(s.usage, sid, b, l.perSession, l.ttl, now));
      if MemoryUsage(s.usage, l.ttl, sid, now) + b <= l.perSession
      then s'.(granted := swept.granted[sid := GrantedTo(swept, sid) + b],
               grants := s.grants + [Grant(sid, requested, b)])
      else s'
    else s
  }

  /** A reservation that fits is granted in full: on record, in the session's sum, and in its usage. */
  lemma LocalReserveGrants(l: Limits, s: LocalSystem, th: Thread, now: real)
    requires th in s.threads && s.threads[th].Checked?
    requires MemoryUsage(s.usage, l.ttl, s.threads[th].sid, now) + s.threads[th].budget <= l.perSession
    ensures var t := DoReserve(l, s, th, now); var ph := s.threads[th];
            && t.grants == s.grants + [Grant(ph.sid, ph.requested, ph.budget)]
            && GrantedTo(t, ph.sid) == GrantedTo(DoSweep(l, s, now), ph.sid) + ph.budget
            && ShotsOf(t, ph.sid) == ShotsOf(DoSweep(l, s, now), ph.sid) + ph.budget
            && t.threads[th].Idle?
  {
  }

  function DoReset(s: LocalSystem, sid: Session): LocalSystem {
    s.(usage := s.usage - {sid}, granted := s.granted - {sid})
  }

  function LocalStep(l: Limits, s: LocalSystem, e: LocalEvent): LocalSystem {
    match e
    case Check(th, sid, b, now) => DoCheck(l, s, th, sid, b, now)
    case ReserveShots(th, now) => DoReserve(l, s, th, now)
    case ResetSession(sid) => DoReset(s, sid)
    case Sweep(now) => DoSweep(l, s, now)
  }

  function LocalExec(l: Limits, s: LocalSystem, run: seq<LocalEvent>): LocalSystem {
    if run == [] then s else LocalStep(l, LocalExec(l, s, run[..|run| - 1]), run[|run| - 1])
  }

  predicate LocalInitial(s: LocalSystem) {
    && s.usage == map[] && s.granted == map[] && s.grants == []
    && forall th :: th in s.threads ==> s.threads[th].Idle?
  }

  predicate LocalSessionOk(l: Limits, s: LocalSystem, sid: Session) {
    && 0 <= GrantedTo(s, sid) <= ShotsOf(s, sid) <= l.perSession
    && (sid in s.granted ==> sid in s.usage)
  }

  predicate LocalThreadOk(l: Limits, s: LocalSystem, th: Thread) {
    th in s.threads && s.threads[th].Checked? ==> GrantOk(l, s.threads[th].requested, s.threads[th].budget)
  }

  ghost predicate LocalInv(l: Limits, s: LocalSystem) {
    && (forall sid :: LocalSessionOk(l, s, sid))
    && (forall th :: LocalThreadOk(l, s, th))
    && (forall i :: 0 <= i < |s.grants| ==> GrantOk(l, s.grants[i].requested, s.grants[i].shots))
  }

  lemma LocalReserveOk(l: Limits, s: LocalSystem, th: Thread, now: real, sid: Session)
    requires ValidLimits(l) && LocalInv(l, s)
    ensures LocalSessionOk(l, DoReserve(l, s, th, now), sid)
  {
    assert LocalSessionOk(l, s, sid) && LocalThreadOk(l, s, th);
    if th in s.threads && s.threads[th].Checked? {
      assert LocalSessionOk(l, s, s.threads[th].sid);
    }
  }

  lemma LocalStepInv(l: Limits, s: LocalSystem, e: LocalEvent)
    requires ValidLimits(l) && LocalInv(l, s)
    ensures LocalInv(l, LocalStep(l, s, e))
  {
    var s' := LocalStep(l, s, e);
    forall sid
      ensures LocalSessionOk(l, s', sid)
    {
      assert LocalSessionOk(l, s, sid);
      if e.ReserveShots? {
        LocalReserveOk(l, s, e.th, e.now, sid);
      }
    }
    forall th
      ensures LocalThreadOk(l, s', th)
    {
      assert LocalThreadOk(l, s, th);
    }
    if e.ReserveShots? {
      assert LocalThreadOk(l, s, e.th);
    }
  }

  lemma {:induction false} LocalExecInv(l: Limits, s: LocalSystem, run: seq<LocalEvent>)
    requires ValidLimits(l) && LocalInitial(s)
    ensures LocalInv(l, LocalExec(l, s, run))
    decreases |run|
  {
    if run != [] {
      LocalExecInv(l, s, run[..|run| - 1]);
      LocalStepInv(l, LocalExec(l, s, run[..|run| - 1]), run[|run| - 1]);
    }
  }

  /**
   The session cap survives concurrency in memory too: for every interleaving of checks,
   reservations, resets and evictions, whatever clock readings they work on, the shots
   granted to a session since its entry was last evicted or reset never exceed the usage on
   record, nor that the cap.
   */
  lemma {:induction false} LocalSessionCapHolds(l: Limits, s: LocalSystem, run: seq<LocalEvent>, sid: Session)
    requires ValidLimits(l) && LocalInitial(s)
    ensures var t := LocalExec(l, s, run);
            0 <= GrantedTo(t, sid) <= ShotsOf(t, sid) <= l.perSession
  {
    LocalExecInv(l, s, run);
    assert LocalSessionOk(l, LocalExec(l, s, run), sid);
  }

  /** Every grant of every such run is its request or the experiment cap, whichever is less, and at least 1. */
  lemma {:induction false} LocalGrantsWithinLimits(l: Limits, s: LocalSystem, run: seq<LocalEvent>, i: nat)
    requires ValidLimits(l) && LocalInitial(s) && i < |LocalExec(l, s, run).grants|
    ensures var g := LocalExec(l, s, run).grants[i];
            && 1 <= g.shots <= l.perExperiment && g.shots <= g.requested
            && (g.shots == g.requested || g.shots == l.perExperiment)
  {
    LocalExecInv(l, s, run);
  }
}
