/**
 The engine's shot guardrail, which first reads the usage and then reserves: one call on
 its own, and any interleaving of calls by many engine threads on the shared Redis keys.
 */
module Guardrail {
  import opened Wrappers
  import opened Budget

  /** Operator limits; the settings schema demands that each is at least 1. */
  datatype Limits = Limits(perExperiment: int, perSession: int, defaultBudget: int, ttl: int)

  predicate ValidLimits(l: Limits) {
    l.perExperiment >= 1 && l.perSession >= 1 && l.defaultBudget >= 1
  }

  datatype GuardError = BudgetExceeded(remaining: int) | NonPositiveBudget

  /** req.shot_budget or default. */
  function Requested(l: Limits, shotBudget: Option<int>): int {
    if shotBudget.None? || shotBudget.value == 0 then l.defaultBudget else shotBudget.value
  }

  function Max0(n: int): int {
    if n > 0 then n else 0
  }

  /** The checks before the reservation: an error, or the clamped budget. */
  function Precheck(l: Limits, requested: int, usage: int): Result<int, GuardError> {
    if requested > l.perSession || requested > Max0(l.perSession - usage) then
      Err(BudgetExceeded(Max0(l.perSession - usage)))
    else if requested <= 0 then Err(NonPositiveBudget)
    else Ok(if requested > l.perExperiment then l.perExperiment else requested)
  }

  /**
   _apply_shot_guardrails from the point where get_usage has answered usageRead, which other
   threads may have made stale. A grant is between 1 and the experiment cap, at most the
   request, is added to the session usage and stays within the session cap; a refusal
   leaves every session's usage as it was.
   */
  method ApplyShotGuardrails(l: Limits, tracker: RedisTracker, sid: Session, shotBudget: Option<int>,
                             usageRead: int, simulator: bool, now: real)
    returns (r: Result<(int, bool), GuardError>)
    requires ValidLimits(l)
    modifies tracker
    ensures r.Ok? <==> Precheck(l, Requested(l, shotBudget), usageRead).Ok?
                       && LuaAccepts(old(tracker.keys), sid,
                                     Precheck(l, Requested(l, shotBudget), usageRead).value, l.perSession, now)
    ensures r.Ok? ==> Precheck(l, Requested(l, shotBudget), usageRead) == Ok(r.value.0)
                      && (r.value.1 <==> !simulator && r.value.0 > l.defaultBudget)
                      && 1 <= r.value.0 <= l.perExperiment && r.value.0 <= Requested(l, shotBudget)
                      && RedisUsage(tracker.keys, sid, now)
                         == RedisUsage(old(tracker.keys), sid, now) + r.value.0 <= l.perSession
    ensures r.Err? ==> RedisUsage(tracker.keys, sid, now) == RedisUsage(old(tracker.keys), sid, now)
    ensures forall o :: o != sid ==> RedisUsage(tracker.keys, o, now) == RedisUsage(old(tracker.keys), o, now)
    ensures var requested := if shotBudget.None? || shotBudget.value == 0 then l.defaultBudget else shotBudget.value;
            var used := RedisUsage(old(tracker.keys), sid, now);
            var left := if l.perSession > usageRead then l.perSession - usageRead else 0;
            var grant := if requested < l.perExperiment then requested else l.perExperiment;
            r == if requested > l.perSession || requested > left then Err(BudgetExceeded(left))
                 else if requested <= 0 then Err(NonPositiveBudget)
                 else if used + grant > l.perSession
                 then Err(BudgetExceeded(if l.perSession > used then l.perSession - used else 0))
                 else Ok((grant, !simulator && grant > l.defaultBudget))
    ensures r == Err(NonPositiveBudget) <==> Precheck(l, Requested(l, shotBudget), usageRead) == Err(NonPositiveBudget)
  {
    var requested := if shotBudget.None? || shotBudget.value == 0 then l.defaultBudget else shotBudget.value;
    if requested > l.perSession || requested > Max0(l.perSession - usageRead) {
      return Err(BudgetExceeded(Max0(l.perSession - usageRead)));
    }
    var budget := requested;
    if budget <= 0 {
      return Err(NonPositiveBudget);
    }
    if budget > l.perExperiment {
      budget := l.perExperiment;
    }
    var warn := !simulator && budget > l.defaultBudget;
    var answer := tracker.ReserveShots(sid, budget, l.perSession, now);
    if !answer.accepted {
      return Err(BudgetExceeded(Max0(l.perSession - answer.usage)));
    }
    return Ok((budget, warn));
  }

  /** Read and reserve with nothing in between: granted exactly when the whole request fits. */
  lemma UndisturbedGuard(l: Limits, keys: map<Session, Key>, sid: Session, shotBudget: Option<int>, now: real)
    requires ValidLimits(l)
    ensures var pre := Precheck(l, Requested(l, shotBudget), RedisUsage(keys, sid, now));
            pre.Ok? ==> LuaAccepts(keys, sid, pre.value, l.perSession, now)
    ensures Precheck(l, Requested(l, shotBudget), RedisUsage(keys, sid, now)).Ok?
            <==> 0 < Requested(l, shotBudget) <= l.perSession
                 && (RedisUsage(keys, sid, now) + Requested(l, shotBudget) <= l.perSession)
  {
  }

  // ---------- Interleavings ----------

  type Thread = nat

  datatype Phase = Idle | Checked(sid: Session, requested: int, budget: int)

  datatype Grant = Grant(sid: Session, requested: int, shots: int)

  /** granted sums the grants of a session since its key last expired or was reset. */
  datatype System = System(
    keys: map<Session, Key>,
    clock: real,
    threads: map<Thread, Phase>,
    granted: map<Session, int>,
    grants: seq<Grant>)

  /**
   usageRead: what get_usage answered, which a failed read replaces by another count. lost: the
   script ran but its reply was lost, and the tracker fails closed.
   */
  datatype Event =
    | Tick(t: real)
    | ResetSession(sid: Session)
    | Check(th: Thread, sid: Session, shotBudget: Option<int>, usageRead: int)
    | ReserveShots(th: Thread, lost: bool)

  function GrantedNow(s: System, sid: Session): int {
    if sid in s.granted && sid in s.keys && Alive(s.keys[sid], s.clock) then s.granted[sid] else 0
  }

  function DoCheck(l: Limits, s: System, th: Thread, sid: Session, shotBudget: Option<int>, usageRead: int): System {
    if th in s.threads && s.threads[th].Idle? then
      match Precheck(l, Requested(l, shotBudget), usageRead)
      case Ok(b) => s.(threads := s.threads[th := Checked(sid, Requested(l, shotBudget), b)])
      case Err(_) => s
    else s
  }

  function DoReserve(l: Limits, s: System, th: Thread, lost: bool): System {
    if th in s.threads && s.threads[th].Checked? then
      var Checked(sid, requested, b) := s.threads[th];
      var s' := s.(threads := s.threads[th := Idle], keys := LuaReserve(s.keys, sid, b, l.perSession, l.ttl, s.clock));
      if LuaAccepts(s.keys, sid, b, l.perSession, s.clock) then
        if lost then s'.(granted := s.granted[sid := GrantedNow(s, sid)])
        else s'.(granted := s.granted[sid := GrantedNow(s, sid) + b], grants := s.grants + [Grant(sid, requested, b)])
      else s'
    else s
  }

  /** A reservation that fits is granted in full: on record, in the session's sum, and in its usage. */
  lemma ReserveGrants(l: Limits, s: System, th: Thread)
    requires th in s.threads && s.threads[th].Checked?
    requires RedisUsage(s.keys, s.threads[th].sid, s.clock) + s.threads[th].budget <= l.perSession
    ensures var t := DoReserve(l, s, th, false); var ph := s.threads[th];
            && t.grants == s.grants + [Grant(ph.sid, ph.requested, ph.budget)]
            && GrantedNow(t, ph.sid) == GrantedNow(s, ph.sid) + ph.budget
            && RedisUsage(t.keys, ph.sid, t.clock) == RedisUsage(s.keys, ph.sid, s.clock) + ph.budget
            && t.threads[th].Idle?
  {
  }

  function Step(l: Limits, s: System, e: Event): System {
    match e
    case Tick(t) => if t > s.clock then s.(clock := t) else s
    case ResetSession(sid) => s.(keys := s.keys - {sid}, granted := s.granted - {sid})
    case Check(th, sid, b, u) => DoCheck(l, s, th, sid, b, u)
    case ReserveShots(th, lost) => DoReserve(l, s, th, lost)
  }

  function Exec(l: Limits, s: System, run: seq<Event>): System {
    if run == [] then s else Step(l, Exec(l, s, run[..|run| - 1]), run[|run| - 1])
  }

  predicate Initial(s: System) {
    s.keys == map[] && s.granted == map[] && s.grants == [] && forall th :: th in s.threads ==> s.threads[th].Idle?
  }

  predicate SessionOk(l: Limits, s: System, sid: Session) {
    && (sid in s.keys ==> 0 <= s.keys[sid].value <= l.perSession)
    && (sid in s.granted <==> sid in s.keys)
    && (sid in s.keys ==> 0 <= s.granted[sid] <= s.keys[sid].value)
  }

  predicate GrantOk(l: Limits, requested: int, shots: int) {
    1 <= shots && shots == if requested < l.perExperiment then requested else l.perExperiment
  }

  predicate ThreadOk(l: Limits, s: System, th: Thread) {
    th in s.threads && s.threads[th].Checked? ==> GrantOk(l, s.threads[th].requested, s.threads[th].budget)
  }

  ghost predicate Inv(l: Limits, s: System) {
    && (forall sid :: SessionOk(l, s, sid))
    && (forall th :: ThreadOk(l, s, th))
    && (forall i :: 0 <= i < |s.grants| ==> GrantOk(l, s.grants[i].requested, s.grants[i].shots))
  }

  lemma ReserveSessionOk(l: Limits, s: System, th: Thread, lost: bool, sid: Session)
    requires ValidLimits(l) && Inv(l, s)
    ensures SessionOk(l, DoReserve(l, s, th, lost), sid)
  {
    assert SessionOk(l, s, sid) && ThreadOk(l, s, th);
    if th in s.threads && s.threads[th].Checked? {
      assert SessionOk(l, s, s.threads[th].sid);
    }
  }

  lemma StepInv(l: Limits, s: System, e: Event)
    requires ValidLimits(l) && Inv(l, s)
    ensures Inv(l, Step(l, s, e))
  {
    var s' := Step(l, s, e);
    forall sid
      ensures SessionOk(l, s', sid)
    {
      assert SessionOk(l, s, sid);
      if e.ReserveShots? {
        ReserveSessionOk(l, s, e.th, e.lost, sid);
      }
    }
    forall th
      ensures ThreadOk(l, s', th)
    {
      assert ThreadOk(l, s, th);
    }
    if e.ReserveShots? {
      assert ThreadOk(l, s, e.th);
    }
  }

  lemma {:induction false} ExecInv(l: Limits, s: System, run: seq<Event>)
    requires ValidLimits(l) && Initial(s)
    ensures Inv(l, Exec(l, s, run))
    decreases |run|
  {
    if run != [] {
      ExecInv(l, s, run[..|run| - 1]);
      StepInv(l, Exec(l, s, run[..|run| - 1]), run[|run| - 1]);
    }
  }

  /**
   The session cap survives concurrency: for every interleaving of checks on whatever usage
   they read, reservations, expiries, resets and lost replies, the shots granted to a session since its last expiry
   or reset never exceed max_shots_per_session, nor the usage on record.
   */
  lemma SessionCapHolds(l: Limits, s: System, run: seq<Event>, sid: Session)
    requires ValidLimits(l) && Initial(s)
    ensures var t := Exec(l, s, run);
            0 <= GrantedNow(t, sid) <= RedisUsage(t.keys, sid, t.clock) <= l.perSession
  {
    ExecInv(l, s, run);
    assert SessionOk(l, Exec(l, s, run), sid);
  }

  /** Every single grant is what was asked for or the experiment cap, whichever is less, and at least 1. */
  lemma GrantsWithinLimits(l: Limits, s: System, run: seq<Event>, i: nat)
    requires ValidLimits(l) && Initial(s) && i < |Exec(l, s, run).grants|
    ensures var g := Exec(l, s, run).grants[i];
            && 1 <= g.shots <= l.perExperiment && g.shots <= g.requested
            && (g.shots == g.requested || g.shots == l.perExperiment)
  {
    ExecInv(l, s, run);
  }
}
