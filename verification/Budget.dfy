/**
 The session shot budget: the Lua script on Redis keys and the in-memory tracker. A key
 set with EX ttl at time t is taken to be absent from t + ttl on.
 */
module Budget {
  import opened Wrappers

  type Session = string

  // ---------- Redis ----------

  /** A key's value; without an expiry it lives until it is deleted. */
  datatype Key = Key(value: int, expires: Option<real>)

  predicate Alive(k: Key, now: real) {
    k.expires.None? || now < k.expires.value
  }

  function RedisUsage(keys: map<Session, Key>, sid: Session, now: real): int {
    if sid in keys && Alive(keys[sid], now) then keys[sid].value else 0
  }

  function Expiry(ttl: int, now: real): Option<real> {
    if ttl > 0 then Some(now + ttl as real) else None
  }

  predicate LuaAccepts(keys: map<Session, Key>, sid: Session, requested: int, maxv: int, now: real) {
    RedisUsage(keys, sid, now) + requested <= maxv
  }

  /** The keys after the reserve script; EXPIRE does nothing to a missing key. */
  function LuaReserve(keys: map<Session, Key>, sid: Session, requested: int, maxv: int, ttl: int, now: real):
    map<Session, Key> {
    var current := RedisUsage(keys, sid, now);
    if !LuaAccepts(keys, sid, requested, maxv, now) then
      if ttl > 0 && sid in keys && Alive(keys[sid], now) then keys[sid := Key(current, Expiry(ttl, now))] else keys
    else keys[sid := Key(current + requested, Expiry(ttl, now))]
  }

  // ---------- In memory ----------

  datatype Seen = Seen(shots: int, lastSeen: real)

  predicate Expired(e: Seen, ttl: int, now: real) {
    now - e.lastSeen >= ttl as real
  }

  function Evict(m: map<Session, Seen>, ttl: int, now: real): map<Session, Seen> {
    map sid | sid in m && !Expired(m[sid], ttl, now) :: m[sid]
  }

  function MemoryUsage(m: map<Session, Seen>, ttl: int, sid: Session, now: real): int {
    if sid in m && !Expired(m[sid], ttl, now) then m[sid].shots else 0
  }

  function MemoryReserve(m: map<Session, Seen>, sid: Session, requested: int, maxv: int, ttl: int, now: real):
    map<Session, Seen> {
    var current := MemoryUsage(m, ttl, sid, now);
    Evict(m, ttl, now)[sid := Seen(if current + requested > maxv then current else current + requested, now)]
  }

  // ---------- One operation on either backend ----------

  datatype Op =
    | Reserve(sid: Session, requested: int, maxv: int)
    | GetUsage(sid: Session)
    | Reset(sid: Session)

  /** Invalid stands for the ValueError that reserve raises before it touches a backend. */
  datatype Answer = Invalid | Reserved(accepted: bool, usage: int) | Usage(shots: int) | Done

  predicate ValidReserve(requested: int, maxv: int) {
    requested >= 0 && maxv > 0
  }

  function RedisAnswer(keys: map<Session, Key>, op: Op, now: real): Answer {
    match op
    case Reserve(sid, requested, maxv) =>
      if !ValidReserve(requested, maxv) then Invalid
      else if LuaAccepts(keys, sid, requested, maxv, now) then Reserved(true, RedisUsage(keys, sid, now) + requested)
      else Reserved(false, RedisUsage(keys, sid, now))
    case GetUsage(sid) => Usage(RedisUsage(keys, sid, now))
    case Reset(sid) => Done
  }

  function RedisNext(keys: map<Session, Key>, op: Op, ttl: int, now: real): map<Session, Key> {
    match op
    case Reserve(sid, requested, maxv) =>
      if ValidReserve(requested, maxv) then LuaReserve(keys, sid, requested, maxv, ttl, now) else keys
    case GetUsage(sid) => keys
    case Reset(sid) => keys - {sid}
  }

  function MemoryAnswer(m: map<Session, Seen>, op: Op, ttl: int, now: real): Answer {
    match op
    case Reserve(sid, requested, maxv) =>
      var current := MemoryUsage(m, ttl, sid, now);
      if !ValidReserve(requested, maxv) then Invalid
      else if current + requested > maxv then Reserved(false, current)
      else Reserved(true, current + requested)
    case GetUsage(sid) => Usage(MemoryUsage(m, ttl, sid, now))
    case Reset(sid) => Done
  }

  function MemoryNext(m: map<Session, Seen>, op: Op, ttl: int, now: real): map<Session, Seen> {
    match op
    case Reserve(sid, requested, maxv) =>
      if ValidReserve(requested, maxv) then MemoryReserve(m, sid, requested, maxv, ttl, now) else m
    case GetUsage(sid) => Evict(m, ttl, now)
    case Reset(sid) => m - {sid}
  }

  // ---------- The trackers as objects ----------

  class MemoryTracker {
    var usage: map<Session, Seen>
    const ttl: int

    constructor (ttl: int)
      ensures usage == map[] && this.ttl == ttl
    {
      usage := map[];
      this.ttl := ttl;
    }

    method EvictExpired(now: real)
      modifies this
      ensures usage == Evict(old(usage), ttl, now)
      ensures forall sid :: sid in usage <==> sid in old(usage) && now - old(usage)[sid].lastSeen < ttl as real
      ensures forall sid :: sid in usage ==> usage[sid] == old(usage)[sid]
    {
      var expired := set sid | sid in usage && Expired(usage[sid], ttl, now);
      var rest := expired;
      while rest != {}
        invariant rest <= expired
        invariant usage == old(usage) - (expired - rest)
        decreases rest
      {
        var sid :| sid in rest;
        rest := rest - {sid};
        usage := usage - {sid};
      }
    }

    method ReserveShots(sid: Session, requested: int, maxv: int, now: real) returns (r: Answer)
      modifies this
      ensures r == MemoryAnswer(old(usage), Reserve(sid, requested, maxv), ttl, now)
      ensures usage == MemoryNext(old(usage), Reserve(sid, requested, maxv), ttl, now)
      ensures r == Invalid <==> requested < 0 || maxv <= 0
      ensures r == Invalid ==> usage == old(usage)
      ensures r != Invalid ==>
                var used := if sid in old(usage) && now - old(usage)[sid].lastSeen < ttl as real
                            then old(usage)[sid].shots else 0;
                && r == (if used + requested > maxv then Reserved(false, used) else Reserved(true, used + requested))
                && sid in usage && usage[sid] == Seen(r.usage, now)
                && (forall o :: o != sid ==>
                      (o in usage <==> o in old(usage) && now - old(usage)[o].lastSeen < ttl as real)
                      && (o in usage ==> usage[o] == old(usage)[o]))
    {
      if requested < 0 || maxv <= 0 {
        return Invalid;
      }
      EvictExpired(now);
      var current := if sid in usage then usage[sid].shots else 0;
      var newTotal := current + requested;
      if newTotal > maxv {
        usage := usage[sid := Seen(current, now)];
        return Reserved(false, current);
      }
      usage := usage[sid := Seen(newTotal, now)];
      return Reserved(true, newTotal);
    }

    method GetShots(sid: Session, now: real) returns (n: int)
      modifies this
      ensures Usage(n) == MemoryAnswer(old(usage), GetUsage(sid), ttl, now)
      ensures n == if sid in old(usage) && now - old(usage)[sid].lastSeen < ttl as real
                   then old(usage)[sid].shots else 0
      ensures usage == MemoryNext(old(usage), GetUsage(sid), ttl, now)
    {
      EvictExpired(now);
      n := if sid in usage then usage[sid].shots else 0;
    }

    method ResetSession(sid: Session, now: real)
      modifies this
      ensures usage == MemoryNext(old(usage), Reset(sid), ttl, now)
      ensures usage == old(usage) - {sid}
    {
      usage := usage - {sid};
    }
  }

  class RedisTracker {
    var keys: map<Session, Key>
    const ttl: int

    constructor (ttl: int)
      ensures keys == map[] && this.ttl == ttl
    {
      keys := map[];
      this.ttl := ttl;
    }

    /** reserve with the Lua script as its atomic body. */
    method ReserveShots(sid: Session, requested: int, maxv: int, now: real) returns (r: Answer)
      modifies this
      ensures r == RedisAnswer(old(keys), Reserve(sid, requested, maxv), now)
      ensures keys == RedisNext(old(keys), Reserve(sid, requested, maxv), ttl, now)
      ensures r == Invalid <==> requested < 0 || maxv <= 0
      ensures r == Invalid ==> keys == old(keys)
      ensures r != Invalid ==>
                var live := sid in old(keys) && (old(keys)[sid].expires.None? || now < old(keys)[sid].expires.value);
                var used := if live then old(keys)[sid].value else 0;
                var expires := if ttl > 0 then Some(now + ttl as real) else None;
                && r == (if used + requested > maxv then Reserved(false, used) else Reserved(true, used + requested))
                && (r.accepted ==> keys == old(keys)[sid := Key(used + requested, expires)])
                && (!r.accepted && live && ttl > 0 ==> keys == old(keys)[sid := Key(used, expires)])
                && (!r.accepted && !(live && ttl > 0) ==> keys == old(keys))
    {
      if requested < 0 || maxv <= 0 {
        return Invalid;
      }
      var current := if sid in keys && Alive(keys[sid], now) then keys[sid].value else 0;
      var newTotal := current + requested;
      if newTotal > maxv {
        if ttl > 0 && sid in keys && Alive(keys[sid], now) {
          keys := keys[sid := keys[sid].(expires := Some(now + ttl as real))];
        }
        return Reserved(false, current);
      }
      keys := keys[sid := Key(newTotal, if ttl > 0 then Some(now + ttl as real) else None)];
      return Reserved(true, newTotal);
    }

    method GetShots(sid: Session, now: real) returns (n: int)
      ensures Usage(n) == RedisAnswer(keys, GetUsage(sid), now)
      ensures n == if sid in keys && (keys[sid].expires.None? || now < keys[sid].expires.value)
                   then keys[sid].value else 0
    {
      n := if sid in keys && Alive(keys[sid], now) then keys[sid].value else 0;
    }

    method ResetSession(sid: Session, now: real)
      modifies this
      ensures keys == RedisNext(old(keys), Reset(sid), ttl, now)
      ensures keys == old(keys) - {sid}
    {
      keys := keys - {sid};
    }
  }

  // ---------- The two agree ----------

  predicate TimeOrdered(ops: seq<(real, Op)>) {
    forall i, j :: 0 <= i < j < |ops| ==> ops[i].0 <= ops[j].0
  }

  function RedisRun(ttl: int, ops: seq<(real, Op)>): map<Session, Key> {
    if ops == [] then map[]
    else RedisNext(RedisRun(ttl, ops[..|ops| - 1]), ops[|ops| - 1].1, ttl, ops[|ops| - 1].0)
  }

  function MemoryRun(ttl: int, ops: seq<(real, Op)>): map<Session, Seen> {
    if ops == [] then map[]
    else MemoryNext(MemoryRun(ttl, ops[..|ops| - 1]), ops[|ops| - 1].1, ttl, ops[|ops| - 1].0)
  }

  /** Both backends report the same usage for every session, now and at any later time. */
  ghost predicate SameFrom(keys: map<Session, Key>, m: map<Session, Seen>, ttl: int, now: real) {
    forall sid, t :: t >= now ==> RedisUsage(keys, sid, t) == MemoryUsage(m, ttl, sid, t)
  }

  lemma StepAgrees(keys: map<Session, Key>, m: map<Session, Seen>, op: Op, ttl: int, now: real)
    requires ttl > 0 && SameFrom(keys, m, ttl, now)
    ensures RedisAnswer(keys, op, now) == MemoryAnswer(m, op, ttl, now)
    ensures SameFrom(RedisNext(keys, op, ttl, now), MemoryNext(m, op, ttl, now), ttl, now)
  {
    assert RedisUsage(keys, op.sid, now) == MemoryUsage(m, ttl, op.sid, now);
    forall sid, t | t >= now
      ensures RedisUsage(RedisNext(keys, op, ttl, now), sid, t) == MemoryUsage(MemoryNext(m, op, ttl, now), ttl, sid, t)
    {
      assert RedisUsage(keys, sid, t) == MemoryUsage(m, ttl, sid, t);
    }
  }

  lemma {:induction false} RunsAgree(ttl: int, ops: seq<(real, Op)>, now: real)
    requires ttl > 0 && TimeOrdered(ops) && (ops != [] ==> ops[|ops| - 1].0 <= now)
    ensures SameFrom(RedisRun(ttl, ops), MemoryRun(ttl, ops), ttl, now)
    decreases |ops|
  {
    if ops != [] {
      var front, last := ops[..|ops| - 1], ops[|ops| - 1];
      RunsAgree(ttl, front, last.0);
      StepAgrees(RedisRun(ttl, front), MemoryRun(ttl, front), last.1, ttl, last.0);
    }
  }

  /**
   The implementations agree: after any time-ordered sequence of reserve, get_usage and
   reset calls on any sessions, the next call gets the same answer from both.
   */
  lemma ImplementationsAgree(ttl: int, ops: seq<(real, Op)>, op: Op, now: real)
    requires ttl > 0 && TimeOrdered(ops) && (ops != [] ==> ops[|ops| - 1].0 <= now)
    ensures RedisAnswer(RedisRun(ttl, ops), op, now) == MemoryAnswer(MemoryRun(ttl, ops), op, ttl, now)
  {
    RunsAgree(ttl, ops, now);
    StepAgrees(RedisRun(ttl, ops), MemoryRun(ttl, ops), op, ttl, now);
  }

  /** The stored data need not agree: a rejected first attempt leaves a zero entry in memory only. */
  lemma RejectedFirstAttemptLeavesZero(sid: Session, requested: int, maxv: int, ttl: int, now: real)
    requires ttl > 0 && maxv > 0 && requested > maxv
    ensures sid !in RedisRun(ttl, [(now, Reserve(sid, requested, maxv))])
    ensures var m := MemoryRun(ttl, [(now, Reserve(sid, requested, maxv))]);
            sid in m && m[sid] == Seen(0, now)
  {
    var ops := [(now, Reserve(sid, requested, maxv))];
    assert ops[..|ops| - 1] == [];
    assert RedisRun(ttl, ops[..|ops| - 1]) == map[] && MemoryRun(ttl, ops[..|ops| - 1]) == map[];
  }

  /**
   Without an expiry (ttl <= 0) they part: the script keeps the key for ever, the in-memory
   tracker forgets it at once. So agreement holds exactly for positive ttl.
   */
  lemma NonPositiveTtlDisagrees(sid: Session, ttl: int, now: real)
    requires ttl <= 0
    ensures var ops := [(now, Reserve(sid, 1, 1))];
            RedisAnswer(RedisRun(ttl, ops), GetUsage(sid), now) == Usage(1)
            && MemoryAnswer(MemoryRun(ttl, ops), GetUsage(sid), ttl, now) == Usage(0)
  {
    var ops := [(now, Reserve(sid, 1, 1))];
    assert ops[..|ops| - 1] == [];
    assert RedisRun(ttl, ops[..|ops| - 1]) == map[] && MemoryRun(ttl, ops[..|ops| - 1]) == map[];
  }
}
