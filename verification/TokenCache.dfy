/**
 API tokens: the token table behind a pool of SQLite connections, and the 30-second cache in
 front of it. SHA-256 is an opaque function; the database is a pair of table versions.
 */
module TokenCache {
  import opened Wrappers

  datatype Row = Row(
    userId: int,
    tokenHash: string,
    scopes: seq<string>,
    expiresAt: Option<real>,
    revokedAt: Option<real>,
    lastUsedAt: Option<real>)

  datatype User = User(email: string, isAdmin: bool, isActive: bool)

  datatype Principal = Principal(userId: int, email: string, isAdmin: bool, scopes: seq<string>)

  datatype Tables = Tables(rows: map<string, Row>, users: map<int, User>)

  datatype Cached = Cached(expires: real, payload: Principal)

  type Hash = string -> string

  const PREFIX := "synqc_at_"
  const CACHE_TTL := 30.0

  // ---------- Token text ----------

  predicate StartsWith(s: string, p: string) {
    |p| <= |s| && s[..|p|] == p
  }

  function BeforeDot(s: string): string {
    if s == "" || s[0] == '.' then "" else [s[0]] + BeforeDot(s[1..])
  }

  /** token.split(".", 1)[0].removeprefix("synqc_at_"). */
  function IdPart(token: string): string {
    var head := BeforeDot(token);
    if StartsWith(head, PREFIX) then head[|PREFIX|..] else head
  }

  function TokenText(id: string, secret: string): string {
    PREFIX + id + "." + secret
  }

  predicate NoDot(id: string) {
    forall i :: 0 <= i < |id| ==> id[i] != '.'
  }

  lemma {:induction false} BeforeDotJoined(head: string, rest: string)
    requires NoDot(head)
    ensures BeforeDot(head + "." + rest) == head
  {
    var s := head + "." + rest;
    if head != "" {
      assert s[1..] == head[1..] + "." + rest;
      BeforeDotJoined(head[1..], rest);
      assert [head[0]] + head[1..] == head;
    }
  }

  /** A printed token leads back to its own id. */
  lemma IdOfTokenText(id: string, secret: string)
    requires NoDot(id)
    ensures IdPart(TokenText(id, secret)) == id && StartsWith(TokenText(id, secret), PREFIX)
    ensures TokenText(id, secret) == "synqc_at_" + id + "." + secret
  {
    var head := PREFIX + id;
    assert NoDot(PREFIX);
    BeforeDotJoined(head, secret);
    assert head[|PREFIX|..] == id;
    assert head[..|PREFIX|] == PREFIX;
    assert TokenText(id, secret)[..|PREFIX|] == PREFIX;
  }

  /** Without a dot the whole rest is the id. */
  lemma {:induction false} BeforeDotWhole(head: string)
    requires NoDot(head)
    ensures BeforeDot(head) == head
  {
    if head != "" {
      BeforeDotWhole(head[1..]);
      assert [head[0]] + head[1..] == head;
    }
  }

  lemma IdOfDotless(id: string)
    requires NoDot(id)
    ensures IdPart("synqc_at_" + id) == id
  {
    var head := PREFIX + id;
    BeforeDotWhole(head);
    assert head[|PREFIX|..] == id && head[..|PREFIX|] == PREFIX;
  }

  // ---------- The database ----------

  type Conn = nat

  /**
   The database as one process sees it through its connections. The first write opens a
   transaction on its connection, and no code ever commits it: from then on that connection
   works on a version of its own, while every other one reads what was committed before and
   fails when it writes, once it has waited for the lock in vain.
   */
  datatype Db = Db(committed: Tables, working: Tables, writer: Option<Conn>)

  datatype DbError = LockedOut | Refused

  function Seen(db: Db, c: Conn): Tables {
    if db.writer == Some(c) then db.working else db.committed
  }

  predicate MayWrite(db: Db, c: Conn) {
    db.writer.None? || db.writer == Some(c)
  }

  /** A write statement that succeeds, or that fails on a constraint and leaves t as it was. */
  function Write(db: Db, c: Conn, t: Tables): Db {
    Db(db.committed, t, Some(c))
  }

  /** The tables after all writes so far. */
  function Newest(db: Db): Tables {
    if db.writer.None? then db.committed else db.working
  }

  // ---------- Statements ----------

  /** The row checks of verify_api_token. */
  predicate Matches(hash: Hash, t: Tables, token: string, now: real) {
    var id := IdPart(token);
    && id in t.rows
    && t.rows[id].revokedAt.None?
    && !(t.rows[id].expiresAt.Some? && t.rows[id].expiresAt.value <= now)
    && hash(token) == t.rows[id].tokenHash
  }

  /** What a version of the tables answers to a token. */
  function TableAnswer(hash: Hash, t: Tables, token: string, now: real): Option<Principal> {
    if !Matches(hash, t, token, now) then None
    else
      var row := t.rows[IdPart(token)];
      if row.userId !in t.users || !t.users[row.userId].isActive then None
      else Some(Principal(row.userId, t.users[row.userId].email, t.users[row.userId].isAdmin, row.scopes))
  }

  /** A row that matches is stamped as used, even when its user turns out to be inactive. */
  function Stamped(t: Tables, id: string, now: real): Tables {
    if id in t.rows then t.(rows := t.rows[id := t.rows[id].(lastUsedAt := Some(now))]) else t
  }

  function QueryAnswer(hash: Hash, db: Db, c: Conn, token: string, now: real): Result<Option<Principal>, DbError> {
    if !Matches(hash, Seen(db, c), token, now) then Ok(None)
    else if !MayWrite(db, c) then Err(LockedOut)
    else Ok(TableAnswer(hash, Seen(db, c), token, now))
  }

  function QueryDb(hash: Hash, db: Db, c: Conn, token: string, now: real): Db {
    if Matches(hash, Seen(db, c), token, now) && MayWrite(db, c)
    then Write(db, c, Stamped(Seen(db, c), IdPart(token), now))
    else db
  }

  predicate RevokeApplies(t: Tables, id: string, owner: Option<int>) {
    id in t.rows && t.rows[id].revokedAt.None? && (owner.None? || t.rows[id].userId == owner.value)
  }

  function RevokeDb(db: Db, c: Conn, id: string, owner: Option<int>, now: real): Db {
    var t := Seen(db, c);
    if !MayWrite(db, c) then db
    else if RevokeApplies(t, id, owner)
    then Write(db, c, t.(rows := t.rows[id := t.rows[id].(revokedAt := Some(now))]))
    else Write(db, c, t)
  }

  /** The primary key and the foreign key of the token table. */
  predicate MayInsert(t: Tables, id: string, userId: int) {
    id !in t.rows && userId in t.users
  }

  function NewRow(hash: Hash, id: string, secret: string, userId: int,
                  scopes: seq<string>, expires: Option<real>): Row {
    Row(userId, hash(TokenText(id, secret)), scopes, expires, None, None)
  }

  function InsertDb(db: Db, c: Conn, id: string, row: Row): Db {
    var t := Seen(db, c);
    if !MayWrite(db, c) then db
    else if MayInsert(t, id, row.userId) then Write(db, c, t.(rows := t.rows[id := row]))
    else Write(db, c, t)
  }

  /** create_user; an email that is taken is refused. */
  function UserDb(db: Db, c: Conn, userId: int, email: string, isAdmin: bool): Db {
    var t := Seen(db, c);
    if !MayWrite(db, c) then db
    else if userId in t.users || exists u :: u in t.users && t.users[u].email == email then Write(db, c, t)
    else Write(db, c, t.(users := t.users[userId := User(email, isAdmin, true)]))
  }

  /** A write to another table of the same database, such as the sessions. */
  function OtherDb(db: Db, c: Conn): Db {
    if MayWrite(db, c) then Write(db, c, Seen(db, c)) else db
  }

  // ---------- The cache ----------

  function Live(cache: map<string, Cached>, h: string, now: real): Option<Principal> {
    if h in cache && cache[h].expires > now then Some(cache[h].payload) else None
  }

  /** A stale entry is dropped on the way. */
  function Purged(cache: map<string, Cached>, h: string, now: real): map<string, Cached> {
    if h in cache && cache[h].expires <= now then cache - {h} else cache
  }

  predicate Accepted(r: Result<Option<Principal>, DbError>) {
    r.Ok? && r.value.Some?
  }

  function Remember(cache: map<string, Cached>, h: string, r: Result<Option<Principal>, DbError>,
                    calledAt: real): map<string, Cached> {
    if Accepted(r) then cache[h := Cached(calledAt + CACHE_TTL, r.value.value)] else cache
  }

  // ---------- The store as an object ----------

  function Rotated(pool: seq<Conn>): seq<Conn>
    requires pool != []
  {
    pool[1..] + [pool[0]]
  }

  class AuthStore {
    var db: Db
    var pool: seq<Conn>
    var cache: map<string, Cached>
    const hash: Hash

    /** Four connections; creating the schema commits, and moves the first one to the end. */
    constructor (hash: Hash, committed: Tables)
      ensures db == Db(committed, committed, None) && pool == [1, 2, 3, 0]
      ensures cache == map[] && this.hash == hash
    {
      db := Db(committed, committed, None);
      pool := [1, 2, 3, 0];
      cache := map[];
      this.hash := hash;
    }

    /** One use of a pooled connection: the first in the queue, which then goes to its end. */
    method Borrow() returns (c: Conn)
      requires pool != []
      modifies this`pool
      ensures c == old(pool)[0] && pool == Rotated(old(pool))
    {
      c := pool[0];
      pool := pool[1..] + [c];
    }

    method CreateToken(id: string, secret: string, userId: int, scopes: seq<string>, expires: Option<real>)
      returns (r: Result<string, DbError>)
      requires pool != []
      modifies this`db, this`pool
      ensures pool == Rotated(old(pool))
      ensures db == InsertDb(old(db), old(pool)[0], id, NewRow(hash, id, secret, userId, scopes, expires))
      ensures !MayWrite(old(db), old(pool)[0]) <==> r == Err(LockedOut)
      ensures r.Ok? <==> MayWrite(old(db), old(pool)[0]) && MayInsert(Seen(old(db), old(pool)[0]), id, userId)
      ensures r.Ok? ==> r.value == TokenText(id, secret) == "synqc_at_" + id + "." + secret
      ensures r.Ok? <==> (old(db).writer.None? || old(db).writer == Some(old(pool)[0]))
                         && id !in Seen(old(db), old(pool)[0]).rows && userId in Seen(old(db), old(pool)[0]).users
      ensures r.Ok? ==> db.writer == Some(old(pool)[0]) && db.committed == old(db).committed
                        && db.working.users == Seen(old(db), old(pool)[0]).users
                        && db.working.rows == Seen(old(db), old(pool)[0]).rows[
                             id := Row(userId, hash(r.value), scopes, expires, None, None)]
    {
      var c := Borrow();
      if db.writer.Some? && db.writer != Some(c) {
        return Err(LockedOut);
      }
      var t := if db.writer == Some(c) then db.working else db.committed;
      if id in t.rows || userId !in t.users {
        db := Db(db.committed, t, Some(c));
        return Err(Refused);
      }
      var token := PREFIX + id + "." + secret;
      var row := Row(userId, hash(token), scopes, expires, None, None);
      db := Db(db.committed, t.(rows := t.rows[id := row]), Some(c));
      return Ok(token);
    }

    /** revoke_api_token does not touch the cache. */
    method Revoke(id: string, owner: Option<int>, now: real) returns (r: Result<bool, DbError>)
      requires pool != []
      modifies this`db, this`pool
      ensures pool == Rotated(old(pool))
      ensures db == RevokeDb(old(db), old(pool)[0], id, owner, now)
      ensures r == if MayWrite(old(db), old(pool)[0]) then Ok(RevokeApplies(Seen(old(db), old(pool)[0]), id, owner))
                   else Err(LockedOut)
      ensures r == Err(LockedOut) <==> old(db).writer.Some? && old(db).writer != Some(old(pool)[0])
      ensures r.Ok? ==> db.writer == Some(old(pool)[0]) && db.working.users == Seen(old(db), old(pool)[0]).users
      ensures r.Ok? ==> var rows := Seen(old(db), old(pool)[0]).rows;
                        && (r.value <==> id in rows && rows[id].revokedAt.None?
                                         && (owner.None? || rows[id].userId == owner.value))
                        && db.working.rows == if r.value then rows[id := rows[id].(revokedAt := Some(now))] else rows
    {
      var c := Borrow();
      if db.writer.Some? && db.writer != Some(c) {
        return Err(LockedOut);
      }
      var t := if db.writer == Some(c) then db.working else db.committed;
      var hit := id in t.rows && t.rows[id].revokedAt.None?;
      if hit && owner.Some? && t.rows[id].userId != owner.value {
        hit := false;
      }
      if hit {
        t := t.(rows := t.rows[id := t.rows[id].(revokedAt := Some(now))]);
      }
      db := Db(db.committed, t, Some(c));
      return Ok(hit);
    }

    /** The first lock region of verify_api_token. */
    method Lookup(token: string, now: real) returns (r: Option<Principal>)
      modifies this`cache
      ensures r == Live(old(cache), hash(token), now)
      ensures cache == Purged(old(cache), hash(token), now)
      ensures r.Some? <==> hash(token) in old(cache) && now < old(cache)[hash(token)].expires
      ensures r.Some? ==> r.value == old(cache)[hash(token)].payload && cache == old(cache)
      ensures r.None? ==> cache == old(cache) - {hash(token)}
    {
      var h := hash(token);
      if h in cache {
        if cache[h].expires > now {
          return Some(cache[h].payload);
        }
        cache := cache - {h};
      }
      return None;
    }

    /** The second lock region: calledAt is the clock read at entry, now the one of the query. */
    method Query(token: string, calledAt: real, now: real) returns (r: Result<Option<Principal>, DbError>)
      requires pool != []
      modifies this
      ensures pool == Rotated(old(pool))
      ensures r == QueryAnswer(hash, old(db), old(pool)[0], token, now)
      ensures db == QueryDb(hash, old(db), old(pool)[0], token, now)
      ensures cache == Remember(old(cache), hash(token), r, calledAt)
      ensures forall pr: Principal :: r == Ok(Some(pr)) <==>
                && (old(db).writer.None? || old(db).writer == Some(old(pool)[0]))
                && var t, id := Seen(old(db), old(pool)[0]), IdPart(token);
                && id in t.rows && t.rows[id].tokenHash == hash(token) && t.rows[id].revokedAt.None?
                && (t.rows[id].expiresAt.Some? ==> now < t.rows[id].expiresAt.value)
                && t.rows[id].userId in t.users && t.users[t.rows[id].userId].isActive
                && pr.userId == t.rows[id].userId && pr.scopes == t.rows[id].scopes
                && pr.email == t.users[pr.userId].email && pr.isAdmin == t.users[pr.userId].isAdmin
      ensures r.Ok? && r.value.Some? ==> cache == old(cache)[hash(token) := Cached(calledAt + 30.0, r.value.value)]
      ensures !(r.Ok? && r.value.Some?) ==> cache == old(cache)
      ensures r.Ok? && r.value.Some? ==>
                var rows, id := Seen(old(db), old(pool)[0]).rows, IdPart(token);
                db.working.rows == rows[id := rows[id].(lastUsedAt := Some(now))]
    {
      AcceptedExactly(hash, db, pool[0], token, now);
      var c := Borrow();
      var t := if db.writer == Some(c) then db.working else db.committed;
      var id := IdPart(token);
      if id !in t.rows {
        return Ok(None);
      }
      var row := t.rows[id];
      if row.revokedAt.Some? {
        return Ok(None);
      }
      if row.expiresAt.Some? && row.expiresAt.value <= now {
        return Ok(None);
      }
      if hash(token) != row.tokenHash {
        return Ok(None);
      }
      if db.writer.Some? && db.writer != Some(c) {
        return Err(LockedOut);
      }
      db := Db(db.committed, t.(rows := t.rows[id := row.(lastUsedAt := Some(now))]), Some(c));
      if row.userId !in t.users || !t.users[row.userId].isActive {
        return Ok(None);
      }
      var u := t.users[row.userId];
      var payload := Principal(row.userId, u.email, u.isAdmin, row.scopes);
      cache := cache[hash(token) := Cached(calledAt + CACHE_TTL, payload)];
      return Ok(Some(payload));
    }

    /** create_user. */
    method CreateUser(userId: int, email: string, isAdmin: bool) returns (r: Result<User, DbError>)
      requires pool != []
      modifies this`db, this`pool
      ensures pool == Rotated(old(pool))
      ensures db == UserDb(old(db), old(pool)[0], userId, email, isAdmin)
      ensures r.Ok? <==> var t := Seen(old(db), old(pool)[0]);
                         MayWrite(old(db), old(pool)[0]) && userId !in t.users
                         && forall u :: u in t.users ==> t.users[u].email != email
      ensures r.Ok? ==> r.value == User(email, isAdmin, true) && db.writer == Some(old(pool)[0])
                        && db.working.users == Seen(old(db), old(pool)[0]).users[userId := r.value]
                        && db.working.rows == Seen(old(db), old(pool)[0]).rows
    {
      var c := Borrow();
      if db.writer.Some? && db.writer != Some(c) {
        return Err(LockedOut);
      }
      var t := if db.writer == Some(c) then db.working else db.committed;
      if userId in t.users || exists u :: u in t.users && t.users[u].email == email {
        db := Db(db.committed, t, Some(c));
        return Err(Refused);
      }
      r := Ok(User(email, isAdmin, true));
      db := Db(db.committed, t.(users := t.users[userId := r.value]), Some(c));
    }

    /** verify_api_token without interference; a text without the prefix is refused at once. */
    method Verify(token: string, calledAt: real, now: real) returns (r: Result<Option<Principal>, DbError>)
      requires pool != []
      modifies this
      ensures !StartsWith(token, "synqc_at_") ==>
                r == Ok(None) && db == old(db) && cache == old(cache) && pool == old(pool)
      ensures StartsWith(token, "synqc_at_") && Live(old(cache), hash(token), calledAt).Some? ==>
                r == Ok(Live(old(cache), hash(token), calledAt)) && db == old(db) && pool == old(pool)
      ensures StartsWith(token, "synqc_at_") && Live(old(cache), hash(token), calledAt).None? ==>
                r == QueryAnswer(hash, old(db), old(pool)[0], token, now) && pool == Rotated(old(pool))
    {
      if !StartsWith(token, PREFIX) {
        return Ok(None);
      }
      var hit := Lookup(token, calledAt);
      if hit.Some? {
        return Ok(hit);
      }
      r := Query(token, calledAt, now);
    }
  }

  /** Exactly which calls a lookup accepts, and as whom. */
  lemma AcceptedExactly(hash: Hash, db: Db, c: Conn, token: string, now: real)
    ensures forall pr: Principal :: QueryAnswer(hash, db, c, token, now) == Ok(Some(pr)) <==>
              && (db.writer.None? || db.writer == Some(c))
              && var t, id := Seen(db, c), IdPart(token);
              && id in t.rows && t.rows[id].tokenHash == hash(token) && t.rows[id].revokedAt.None?
              && (t.rows[id].expiresAt.Some? ==> now < t.rows[id].expiresAt.value)
              && t.rows[id].userId in t.users && t.users[t.rows[id].userId].isActive
              && pr.userId == t.rows[id].userId && pr.scopes == t.rows[id].scopes
              && pr.email == t.users[pr.userId].email && pr.isAdmin == t.users[pr.userId].isAdmin
  {
  }

  /** What a connection sees: its own open transaction, or what was committed. */
  lemma SeenExactly(db: Db, c: Conn)
    ensures Seen(db, c) == if db.writer == Some(c) then db.working else db.committed
  {
  }

  // ---------- Uncached answers ----------

  /**
   An uncached call answers what the newest tables say exactly when its connection may
   write, or when neither the newest tables accept the token nor the committed ones match it.
   */
  lemma UncachedAnswerExact(hash: Hash, db: Db, c: Conn, token: string, now: real)
    ensures QueryAnswer(hash, db, c, token, now) == Ok(TableAnswer(hash, Newest(db), token, now))
            <==> MayWrite(db, c)
                 || (TableAnswer(hash, Newest(db), token, now).None? && !Matches(hash, db.committed, token, now))
    ensures Accepted(QueryAnswer(hash, db, c, token, now))
            <==> MayWrite(db, c) && TableAnswer(hash, Newest(db), token, now).Some?
  {
  }

  /** A token that a connection has just issued is accepted on that connection, and is unknown to every other. */
  lemma IssuedToken(hash: Hash, db: Db, c: Conn, d: Conn, id: string, secret: string, userId: int,
                    scopes: seq<string>, expires: Option<real>, now: real)
    requires NoDot(id) && MayWrite(db, c) && MayInsert(Seen(db, c), id, userId) && id !in db.committed.rows
    requires Seen(db, c).users[userId].isActive && (expires.Some? ==> now < expires.value)
    ensures var db' := InsertDb(db, c, id, NewRow(hash, id, secret, userId, scopes, expires));
            var u := Seen(db, c).users[userId];
            QueryAnswer(hash, db', d, TokenText(id, secret), now)
            == Ok(if d == c then Some(Principal(userId, u.email, u.isAdmin, scopes)) else None)
  {
    IdOfTokenText(id, secret);
  }

  // ---------- Interleavings ----------

  type Thread = nat

  datatype Phase = Idle | Called(token: string, at: real) | Missed(token: string, at: real)

  datatype System = System(db: Db, cache: map<string, Cached>, clock: real, threads: map<Thread, Phase>)

  /** Which pooled connection a statement runs on is left open. */
  datatype Event =
    | Tick(t: real)
    | Create(c: Conn, id: string, row: Row)
    | CreateUser(c: Conn, userId: int, email: string, isAdmin: bool)
    | OtherWrite(c: Conn)
    | Revoke(c: Conn, id: string, owner: Option<int>)
    | Call(th: Thread, token: string)
    | CacheRegion(th: Thread)
    | TableRegion(th: Thread, c: Conn)

  function PhaseOf(s: System, th: Thread): Phase {
    if th in s.threads then s.threads[th] else Idle
  }

  /** What the cache region of a call returns at once, if anything. */
  function Hit(hash: Hash, s: System, th: Thread): Option<Principal> {
    var ph := PhaseOf(s, th);
    if ph.Called? then Live(s.cache, hash(ph.token), ph.at) else None
  }

  function DoCall(s: System, th: Thread, token: string): System {
    if th in s.threads && s.threads[th].Idle? && StartsWith(token, PREFIX)
    then s.(threads := s.threads[th := Called(token, s.clock)])
    else s
  }

  function DoCache(hash: Hash, s: System, th: Thread): System {
    var ph := PhaseOf(s, th);
    if ph.Called? then
      s.(cache := Purged(s.cache, hash(ph.token), ph.at),
         threads := s.threads[th := if Hit(hash, s, th).Some? then Idle else Missed(ph.token, ph.at)])
    else s
  }

  function DoTable(hash: Hash, s: System, th: Thread, c: Conn): System {
    var ph := PhaseOf(s, th);
    if ph.Missed? then
      s.(db := QueryDb(hash, s.db, c, ph.token, s.clock),
         cache := Remember(s.cache, hash(ph.token), QueryAnswer(hash, s.db, c, ph.token, s.clock), ph.at),
         threads := s.threads[th := Idle])
    else s
  }

  ghost function Step(hash: Hash, s: System, e: Event): System {
    match e
    case Tick(t) => if t > s.clock then s.(clock := t) else s
    case Create(c, id, row) => s.(db := InsertDb(s.db, c, id, row))
    case CreateUser(c, userId, email, isAdmin) => s.(db := UserDb(s.db, c, userId, email, isAdmin))
    case OtherWrite(c) => s.(db := OtherDb(s.db, c))
    case Revoke(c, id, owner) => s.(db := RevokeDb(s.db, c, id, owner, s.clock))
    case Call(th, token) => DoCall(s, th, token)
    case CacheRegion(th) => DoCache(hash, s, th)
    case TableRegion(th, c) => DoTable(hash, s, th, c)
  }

  ghost function Exec(hash: Hash, s: System, run: seq<Event>): System {
    if run == [] then s else Step(hash, Exec(hash, s, run[..|run| - 1]), run[|run| - 1])
  }

  lemma ExecSnoc(hash: Hash, s: System, run: seq<Event>, e: Event)
    ensures Exec(hash, s, run + [e]) == Step(hash, Exec(hash, s, run), e)
  {
    assert (run + [e])[..|run + [e]| - 1] == run;
  }

  /** The state before event i of a run. */
  ghost function At(hash: Hash, s: System, run: seq<Event>, i: nat): System
    requires i <= |run|
  {
    Exec(hash, s, run[..i])
  }

  lemma AtPrefix(hash: Hash, s: System, front: seq<Event>, e: Event, i: nat)
    requires i <= |front|
    ensures At(hash, s, front + [e], i) == At(hash, s, front, i)
  {
    assert (front + [e])[..i] == front[..i];
  }

  predicate Initial(s: System) {
    s.cache == map[] && s.db.writer.None? && forall th :: th in s.threads ==> s.threads[th].Idle?
  }

  lemma {:induction false} CallsInThePast(hash: Hash, s: System, run: seq<Event>, th: Thread)
    requires Initial(s)
    ensures var t := Exec(hash, s, run); var ph := PhaseOf(t, th);
            !ph.Idle? ==> ph.at <= t.clock
    decreases |run|
  {
    if run != [] {
      CallsInThePast(hash, s, run[..|run| - 1], th);
    }
  }

  // ---------- What the cache holds ----------

  /** The entry that event e writes under h, if it writes one. */
  function Fill(hash: Hash, m: System, e: Event, h: string): Option<Cached> {
    if e.TableRegion? && PhaseOf(m, e.th).Missed? && hash(PhaseOf(m, e.th).token) == h then
      var ph := PhaseOf(m, e.th);
      var r := QueryAnswer(hash, m.db, e.c, ph.token, m.clock);
      if Accepted(r) then Some(Cached(ph.at + CACHE_TTL, r.value.value)) else None
    else None
  }

  /** Event e drops an entry under h that expires at x. */
  predicate Drops(hash: Hash, m: System, e: Event, h: string, x: real) {
    e.CacheRegion? && PhaseOf(m, e.th).Called? && hash(PhaseOf(m, e.th).token) == h && x <= PhaseOf(m, e.th).at
  }

  /** One step on one entry. */
  lemma StepCache(hash: Hash, m: System, e: Event, h: string)
    ensures var t := Step(hash, m, e);
            var f := Fill(hash, m, e, h);
            && (f.Some? ==> h in t.cache && t.cache[h] == f.value)
            && (f.None? ==> (h in t.cache <==> h in m.cache && !Drops(hash, m, e, h, m.cache[h].expires)))
            && (f.None? && h in t.cache ==> t.cache[h] == m.cache[h])
  {
    hide TableAnswer, Matches, InsertDb, UserDb, RevokeDb, OtherDb, QueryDb, QueryAnswer;
  }

  /** Event j of the run neither refills h nor drops an entry under h that expires at x. */
  ghost predicate Spares(hash: Hash, s: System, run: seq<Event>, h: string, x: real, j: nat)
    requires j < |run|
  {
    Fill(hash, At(hash, s, run, j), run[j], h).None? && !Drops(hash, At(hash, s, run, j), run[j], h, x)
  }

  /** Event k filled h, and the entry is still there at the end of the run. */
  ghost predicate Origin(hash: Hash, s: System, run: seq<Event>, h: string, k: nat) {
    && k < |run|
    && Fill(hash, At(hash, s, run, k), run[k], h).Some?
    && forall j :: k < j < |run| ==>
                     Spares(hash, s, run, h, Fill(hash, At(hash, s, run, k), run[k], h).value.expires, j)
  }

  lemma OriginExtends(hash: Hash, s: System, front: seq<Event>, e: Event, h: string, k: nat)
    requires k < |front|
    ensures var run := front + [e];
            Origin(hash, s, run, h, k) <==>
              Origin(hash, s, front, h, k)
              && Spares(hash, s, run, h, Fill(hash, At(hash, s, front, k), front[k], h).value.expires, |front|)
  {
    var run := front + [e];
    AtPrefix(hash, s, front, e, k);
    assert run[k] == front[k];
    var f := Fill(hash, At(hash, s, front, k), front[k], h);
    if f.Some? {
      forall j | k < j < |front|
        ensures Spares(hash, s, run, h, f.value.expires, j) <==> Spares(hash, s, front, h, f.value.expires, j)
      {
        AtPrefix(hash, s, front, e, j);
        assert run[j] == front[j];
      }
    }
  }

  /** The cache holds an entry exactly when some fill of the run is still there, and it is what that fill wrote. */
  lemma {:induction false} CacheContents(hash: Hash, s: System, run: seq<Event>, h: string)
    requires Initial(s)
    ensures var cache := Exec(hash, s, run).cache;
            && (forall k: nat :: Origin(hash, s, run, h, k) ==>
                  h in cache && Fill(hash, At(hash, s, run, k), run[k], h) == Some(cache[h]))
            && (h in cache ==> exists k: nat :: Origin(hash, s, run, h, k))
    decreases |run|
  {
    if run != [] {
      var front, e := run[..|run| - 1], run[|run| - 1];
      assert run == front + [e];
      CacheContents(hash, s, front, h);
      var m, t := Exec(hash, s, front), Exec(hash, s, run);
      assert At(hash, s, run, |front|) == m;
      StepCache(hash, m, e, h);
      forall k: nat | Origin(hash, s, run, h, k)
        ensures h in t.cache && Fill(hash, At(hash, s, run, k), run[k], h) == Some(t.cache[h])
      {
        if k < |front| {
          OriginExtends(hash, s, front, e, h, k);
          AtPrefix(hash, s, front, e, k);
        }
      }
      if h in t.cache {
        CacheOrigin(hash, s, front, e, h);
      }
    }
  }

  lemma CacheOrigin(hash: Hash, s: System, front: seq<Event>, e: Event, h: string)
    requires var m := Exec(hash, s, front);
             && (forall k: nat :: Origin(hash, s, front, h, k) ==>
                   h in m.cache && Fill(hash, At(hash, s, front, k), front[k], h) == Some(m.cache[h]))
             && (h in m.cache ==> exists k: nat :: Origin(hash, s, front, h, k))
    requires h in Step(hash, Exec(hash, s, front), e).cache
    ensures exists k: nat :: Origin(hash, s, front + [e], h, k)
  {
    var m, run := Exec(hash, s, front), front + [e];
    AtPrefix(hash, s, front, e, |front|);
    assert front[..|front|] == front;
    StepCache(hash, m, e, h);
    if Fill(hash, m, e, h).Some? {
      assert Origin(hash, s, run, h, |front|);
    } else {
      var k: nat :| Origin(hash, s, front, h, k);
      OriginExtends(hash, s, front, e, h, k);
      assert Origin(hash, s, run, h, k);
    }
  }

  /** When the caller whose lookup event k answered read its clock. */
  ghost function FillTime(hash: Hash, s: System, run: seq<Event>, k: nat): real
    requires k < |run|
  {
    if run[k].TableRegion? && !PhaseOf(At(hash, s, run, k), run[k].th).Idle?
    then PhaseOf(At(hash, s, run, k), run[k].th).at
    else 0.0
  }

  /**
   Exactly when a call is answered from the cache: some earlier lookup accepted a token of
   the same hash, its entry is still there, and its caller read a clock less than 30 seconds
   before this call. Whether the token has been revoked since plays no part.
   */
  lemma {:induction false} CacheHitExact(hash: Hash, s: System, run: seq<Event>, th: Thread)
    requires Initial(s) && PhaseOf(Exec(hash, s, run), th).Called?
    ensures var ph := PhaseOf(Exec(hash, s, run), th);
            Hit(hash, Exec(hash, s, run), th).Some?
            <==> exists k: nat :: Origin(hash, s, run, hash(ph.token), k)
                                  && FillTime(hash, s, run, k) > ph.at - 30.0
  {
    var t := Exec(hash, s, run);
    var ph := PhaseOf(t, th);
    var h := hash(ph.token);
    CacheContents(hash, s, run, h);
    if Hit(hash, t, th).Some? {
      var k: nat :| Origin(hash, s, run, h, k);
      assert FillTime(hash, s, run, k) > ph.at - CACHE_TTL;
    }
  }

  // ---------- Bounded staleness ----------

  /**
   Bounded staleness: over every run of writes and concurrent verifications, on whatever
   connections, an answer served from the cache to a call made at time t is what the newest
   tables answered, to a token of the same hash, at some moment of the run later than
   t - 30 seconds.
   */
  lemma {:induction false} CacheStaleness(hash: Hash, s: System, run: seq<Event>, th: Thread)
    requires Initial(s) && Hit(hash, Exec(hash, s, run), th).Some?
    ensures var ph := PhaseOf(Exec(hash, s, run), th);
            exists j: nat, token: string ::
              AnsweredAt(hash, s, run, j, token, Hit(hash, Exec(hash, s, run), th), ph.at)
              && hash(token) == hash(ph.token)
  {
    var t := Exec(hash, s, run);
    var ph := PhaseOf(t, th);
    var h := hash(ph.token);
    CacheContents(hash, s, run, h);
    var k: nat :| Origin(hash, s, run, h, k);
    var m := At(hash, s, run, k);
    CallsInThePast(hash, s, run[..k], run[k].th);
    var token := PhaseOf(m, run[k].th).token;
    UncachedAnswerExact(hash, m.db, run[k].c, token, m.clock);
    assert AnsweredAt(hash, s, run, k, token, Hit(hash, t, th), ph.at);
  }

  /** Before event j the newest tables gave this answer to the token, less than 30 seconds before calledAt. */
  ghost predicate AnsweredAt(hash: Hash, s: System, run: seq<Event>, j: nat, token: string,
                             answer: Option<Principal>, calledAt: real) {
    && j <= |run|
    && At(hash, s, run, j).clock > calledAt - 30.0
    && TableAnswer(hash, Newest(At(hash, s, run, j).db), token, At(hash, s, run, j).clock) == answer
  }

  /** With a collision-free hash it is the answer for the very token presented. */
  lemma {:induction false} CacheStalenessSameToken(hash: Hash, s: System, run: seq<Event>, th: Thread)
    requires Initial(s) && Hit(hash, Exec(hash, s, run), th).Some?
    requires forall a: string, b: string :: hash(a) == hash(b) ==> a == b
    ensures var ph := PhaseOf(Exec(hash, s, run), th);
            exists j: nat ::
              AnsweredAt(hash, s, run, j, ph.token, Hit(hash, Exec(hash, s, run), th), ph.at)
  {
    var t := Exec(hash, s, run);
    var ph := PhaseOf(t, th);
    CacheStaleness(hash, s, run, th);
    var j: nat, token: string :|
      AnsweredAt(hash, s, run, j, token, Hit(hash, t, th), ph.at) && hash(token) == hash(ph.token);
    assert AnsweredAt(hash, s, run, j, ph.token, Hit(hash, t, th), ph.at);
  }

  // ---------- Revocation ----------

  predicate IsRevoked(db: Db, id: string) {
    id in Newest(db).rows && Newest(db).rows[id].revokedAt.Some?
  }

  lemma {:induction false} ClockMonotone(hash: Hash, s: System, run: seq<Event>, j: nat)
    requires j <= |run|
    ensures At(hash, s, run, j).clock <= Exec(hash, s, run).clock
    decreases |run|
  {
    if j == |run| {
      assert run[..j] == run;
    } else {
      var front := run[..|run| - 1];
      assert front[..j] == run[..j];
      ClockMonotone(hash, s, front, j);
    }
  }

  lemma RevokedStep(hash: Hash, m: System, e: Event, id: string)
    requires IsRevoked(m.db, id)
    ensures IsRevoked(Step(hash, m, e).db, id)
  {
  }

  /** No statement undoes a revocation: the primary key keeps the id from being issued again. */
  lemma {:induction false} RevokedStays(hash: Hash, s: System, run: seq<Event>, k: nat, id: string)
    requires k <= |run| && IsRevoked(At(hash, s, run, k).db, id)
    ensures IsRevoked(Exec(hash, s, run).db, id)
    decreases |run|
  {
    if k == |run| {
      assert run[..k] == run;
    } else {
      var front := run[..|run| - 1];
      assert front[..k] == run[..k];
      RevokedStays(hash, s, front, k, id);
      RevokedStep(hash, Exec(hash, s, front), run[|run| - 1], id);
    }
  }

  /**
   Revocation takes effect: once a token is revoked, no call that starts 30 seconds later or
   more is answered from the cache, and no call at all is accepted by a lookup.
   */
  lemma {:induction false} RevocationTakesEffect(hash: Hash, s: System, run: seq<Event>, k: nat, id: string, th: Thread)
    requires Initial(s) && forall a: string, b: string :: hash(a) == hash(b) ==> a == b
    requires k <= |run| && IsRevoked(At(hash, s, run, k).db, id)
    ensures var t := Exec(hash, s, run); var ph := PhaseOf(t, th);
            ph.Called? && IdPart(ph.token) == id && ph.at >= At(hash, s, run, k).clock + 30.0
            ==> Hit(hash, t, th).None?
    ensures var t := Exec(hash, s, run);
            forall c: Conn, token: string ::
              IdPart(token) == id ==> !Accepted(QueryAnswer(hash, t.db, c, token, t.clock))
  {
    var t := Exec(hash, s, run);
    var ph := PhaseOf(t, th);
    if ph.Called? && IdPart(ph.token) == id && ph.at >= At(hash, s, run, k).clock + CACHE_TTL
       && Hit(hash, t, th).Some? {
      CacheStalenessSameToken(hash, s, run, th);
      var j: nat :| AnsweredAt(hash, s, run, j, ph.token, Hit(hash, t, th), ph.at);
      if j < k {
        assert run[..k][..j] == run[..j];
        ClockMonotone(hash, s, run[..k], j);
      } else {
        assert run[..j][..k] == run[..k];
        RevokedStays(hash, s, run[..j], k, id);
      }
    }
    RevokedStays(hash, s, run, k, id);
    forall c: Conn, token: string | IdPart(token) == id
      ensures !Accepted(QueryAnswer(hash, t.db, c, token, t.clock))
    {
      UncachedAnswerExact(hash, t.db, c, token, t.clock);
    }
  }

  /** Verify, revoke on the same connection, wait, and call again. */
  ghost function LateRun(s: System, c: Conn, th: Thread, token: string, delay: real): seq<Event> {
    [Call(th, token), CacheRegion(th), TableRegion(th, c), Revoke(c, IdPart(token), None), Tick(s.clock + delay),
     Call(th, token)]
  }

  /**
   Until then it need not: for every token that the tables accept and every delay below 30
   seconds, a run serves the token from the cache that long after its revocation.
   */
  lemma RevokedTokenServed(hash: Hash, s: System, c: Conn, th: Thread, token: string, delay: real)
    requires Initial(s) && th in s.threads && StartsWith(token, "synqc_at_") && 0.0 < delay < 30.0
    requires TableAnswer(hash, Newest(s.db), token, s.clock).Some?
    ensures var run := LateRun(s, c, th, token, delay);
            && IsRevoked(At(hash, s, run, 4).db, IdPart(token))
            && At(hash, s, run, 4).clock == s.clock
            && Exec(hash, s, run).clock == s.clock + delay
            && Hit(hash, Exec(hash, s, run), th) == TableAnswer(hash, Newest(s.db), token, s.clock)
  {
    var run := LateRun(s, c, th, token, delay);
    var s1 := DoCall(s, th, token);
    var s2 := DoCache(hash, s1, th);
    var s3 := DoTable(hash, s2, th, c);
    var s4 := Step(hash, s3, run[3]);
    var s5 := Step(hash, s4, run[4]);
    assert s2.threads[th] == Missed(token, s.clock) && s2.db == s.db;
    LateVerify(hash, s2, th, c, token);
    LateExec(hash, s, run);
    assert s5.cache == s3.cache && s5.threads == s3.threads;
  }

  lemma LateVerify(hash: Hash, s: System, th: Thread, c: Conn, token: string)
    requires s.db.writer.None? && PhaseOf(s, th) == Missed(token, s.clock)
    requires TableAnswer(hash, Newest(s.db), token, s.clock).Some?
    ensures var t := DoTable(hash, s, th, c);
            && PhaseOf(t, th) == Idle && t.clock == s.clock && t.db.writer == Some(c)
            && Live(t.cache, hash(token), s.clock) == TableAnswer(hash, Newest(s.db), token, s.clock)
            && t.cache[hash(token)].expires == s.clock + CACHE_TTL
            && IsRevoked(RevokeDb(t.db, c, IdPart(token), None, s.clock), IdPart(token))
  {
  }

  lemma LateExec(hash: Hash, s: System, run: seq<Event>)
    requires |run| == 6
    ensures At(hash, s, run, 4)
            == Step(hash, Step(hash, Step(hash, Step(hash, s, run[0]), run[1]), run[2]), run[3])
    ensures Exec(hash, s, run) == Step(hash, Step(hash, At(hash, s, run, 4), run[4]), run[5])
  {
    hide Step;
    ExecSnoc(hash, s, [], run[0]);
    ExecSnoc(hash, s, [run[0]], run[1]);
    ExecSnoc(hash, s, [run[0], run[1]], run[2]);
    ExecSnoc(hash, s, [run[0], run[1], run[2]], run[3]);
    ExecSnoc(hash, s, run[..4], run[4]);
    ExecSnoc(hash, s, run[..5], run[5]);
    assert [] + [run[0]] == [run[0]] && [run[0]] + [run[1]] == [run[0], run[1]];
    assert [run[0], run[1]] + [run[2]] == [run[0], run[1], run[2]];
    assert [run[0], run[1], run[2]] + [run[3]] == run[..4];
    assert run[..4] + [run[4]] == run[..5] && run[..5] + [run[5]] == run;
  }

  // ---------- Only the issued text ----------

  lemma HashStep(hash: Hash, m: System, e: Event, id: string)
    requires id in Newest(m.db).rows
    ensures var t := Step(hash, m, e);
            id in Newest(t.db).rows && Newest(t.db).rows[id].tokenHash == Newest(m.db).rows[id].tokenHash
  {
  }

  /** The hash of an id is written once. */
  lemma {:induction false} HashStays(hash: Hash, s: System, run: seq<Event>, k: nat, id: string)
    requires k <= |run| && id in Newest(At(hash, s, run, k).db).rows
    ensures id in Newest(Exec(hash, s, run).db).rows
    ensures Newest(Exec(hash, s, run).db).rows[id].tokenHash == Newest(At(hash, s, run, k).db).rows[id].tokenHash
    decreases |run|
  {
    if k == |run| {
      assert run[..k] == run;
    } else {
      var front := run[..|run| - 1];
      assert front[..k] == run[..k];
      HashStays(hash, s, front, k, id);
      HashStep(hash, Exec(hash, s, front), run[|run| - 1], id);
    }
  }

  /**
   With a collision-free hash, only the text that was issued under an id is ever accepted for
   it: neither a lookup on any connection nor the cache answers another text of that id.
   */
  lemma {:induction false} WrongSecretRejected(hash: Hash, s: System, run: seq<Event>, issued: string, token: string,
                                               c: Conn, th: Thread)
    requires Initial(s) && forall a: string, b: string :: hash(a) == hash(b) ==> a == b
    requires IdPart(token) in Newest(Exec(hash, s, run).db).rows
    requires Newest(Exec(hash, s, run).db).rows[IdPart(token)].tokenHash == hash(issued) && token != issued
    ensures var t := Exec(hash, s, run);
            && (forall pr: Principal :: QueryAnswer(hash, t.db, c, token, t.clock) != Ok(Some(pr)))
            && (PhaseOf(t, th).Called? && PhaseOf(t, th).token == token ==> Hit(hash, t, th).None?)
  {
    var t := Exec(hash, s, run);
    UncachedAnswerExact(hash, t.db, c, token, t.clock);
    if PhaseOf(t, th).Called? && PhaseOf(t, th).token == token && Hit(hash, t, th).Some? {
      CacheStalenessSameToken(hash, s, run, th);
      var j: nat :| AnsweredAt(hash, s, run, j, token, Hit(hash, t, th), PhaseOf(t, th).at);
      AnsweredHasHash(hash, s, run, j, token, Hit(hash, t, th), PhaseOf(t, th).at);
      HashStays(hash, s, run, j, IdPart(token));
    }
  }

  lemma AnsweredHasHash(hash: Hash, s: System, run: seq<Event>, j: nat, token: string,
                        answer: Option<Principal>, at: real)
    requires AnsweredAt(hash, s, run, j, token, answer, at) && answer.Some?
    ensures j <= |run| && IdPart(token) in Newest(At(hash, s, run, j).db).rows
    ensures Newest(At(hash, s, run, j).db).rows[IdPart(token)].tokenHash == hash(token)
  {
  }

  // ---------- One connection in the pool does all the work ----------

  lemma WriterStep(hash: Hash, m: System, e: Event)
    ensures var t := Step(hash, m, e);
            && t.db.committed == m.db.committed
            && (m.db.writer.Some? ==> t.db.writer == m.db.writer)
  {
  }

  /**
   The first write of a run settles it: from then on its connection alone writes and
   accepts, and on every other one a token is unknown or, if it was committed before the
   run, cannot be checked. Nothing of the run is ever committed.
   */
  lemma {:induction false} OneWriterForEver(hash: Hash, s: System, run: seq<Event>, k: nat, c: Conn)
    requires k <= |run| && At(hash, s, run, k).db.writer == Some(c)
    ensures var t := Exec(hash, s, run);
            && t.db.writer == Some(c) && t.db.committed == At(hash, s, run, k).db.committed
            && forall d: Conn, token: string :: d != c ==>
                 QueryAnswer(hash, t.db, d, token, t.clock)
                 == if Matches(hash, t.db.committed, token, t.clock) then Err(LockedOut) else Ok(None)
    decreases |run|
  {
    if k == |run| {
      assert run[..k] == run;
    } else {
      var front := run[..|run| - 1];
      assert front[..k] == run[..k];
      OneWriterForEver(hash, s, front, k, c);
      WriterStep(hash, Exec(hash, s, front), run[|run| - 1]);
    }
  }
}
