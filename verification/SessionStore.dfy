/** The session store and its bounded cache on one replica (src/auth/session.rs,
    src/auth/session_cache.rs). Instants come in from outside: `now` is the wall clock,
    which may step either way, and `mono` the monotonic clock. */
module SessionStore {
  import opened Common

  type Id = nat

  datatype Identity = Identity(sessionId: Id, userSub: string, userEmail: string, groups: seq<string>, issuedAt: int)

  datatype Session = Session(id: Id, userSub: string, userEmail: string, groups: seq<string>,
                             agentClient: Option<string>, issuedAt: int, expiresAt: int, revokedAt: Option<int>)
  {
    predicate IsActive(now: int) {
      revokedAt.None? && now < expiresAt
    }

    function AsIdentity(): Identity {
      Identity(id, userSub, userEmail, groups, issuedAt)
    }
  }

  datatype AuthError = InvalidSession | RevokedSession | StateDb

  datatype CacheEntry = CacheEntry(session: Session, cachedAt: nat)

  function Elapsed(mono: nat, since: nat): nat {
    if since <= mono then mono - since else 0
  }

  function Fresh(m: map<Id, CacheEntry>, ttl: nat, mono: nat): map<Id, CacheEntry> {
    map id | id in m && Elapsed(mono, m[id].cachedAt) < ttl :: m[id]
  }

  ghost predicate IsOldest(m: map<Id, CacheEntry>, id: Id) {
    id in m && forall other :: other in m ==> m[id].cachedAt <= m[other].cachedAt
  }

  /** Stamped less than `ttl` ago by the monotonic clock. */
  ghost predicate InWindow(e: CacheEntry, ttl: nat, mono: nat) {
    0 < ttl && mono < e.cachedAt + ttl
  }

  /** Eviction drops exactly the entries past their window; if there are none, exactly one
      entry, and that one has the least `cachedAt`. */
  ghost predicate EvictedFrom(m: map<Id, CacheEntry>, m': map<Id, CacheEntry>, ttl: nat, mono: nat) {
    if m != map[] && forall id :: id in m ==> InWindow(m[id], ttl, mono)
    then exists id :: IsOldest(m, id) && m' == m - {id}
    else m' == map id | id in m && InWindow(m[id], ttl, mono) :: m[id]
  }

  /** What an insert leaves behind: a full cache evicts before it admits a new id. */
  ghost predicate InsertedInto(m: map<Id, CacheEntry>, m': map<Id, CacheEntry>, id: Id, e: CacheEntry, ttl: nat,
      maxEntries: nat, mono: nat) {
    if maxEntries <= |m| && id !in m then exists mid :: EvictedFrom(m, mid, ttl, mono) && m' == mid[id := e]
    else m' == m[id := e]
  }

  lemma FreshIsInWindow(m: map<Id, CacheEntry>, ttl: nat, mono: nat)
    ensures Fresh(m, ttl, mono) == map id | id in m && InWindow(m[id], ttl, mono) :: m[id]
    ensures Fresh(m, ttl, mono) == m <==> forall id :: id in m ==> InWindow(m[id], ttl, mono)
  {
    assert forall id :: id in m ==> (id in Fresh(m, ttl, mono) <==> InWindow(m[id], ttl, mono));
  }

  /** Scan for the entry with the least stamp. */
  method Oldest(m: map<Id, CacheEntry>) returns (oldest: Id)
    requires m != map[]
    ensures IsOldest(m, oldest)
  {
    oldest :| oldest in m;
    var todo := m.Keys - {oldest};
    while todo != {}
      invariant oldest in m && todo <= m.Keys
      invariant forall id :: id in m && id !in todo ==> m[oldest].cachedAt <= m[id].cachedAt
      decreases |todo|
    {
      var id :| id in todo;
      todo := todo - {id};
      if m[id].cachedAt < m[oldest].cachedAt {
        oldest := id;
      }
    }
  }

  class SessionCache {
    const ttl: nat
    const maxEntries: nat
    var inner: map<Id, CacheEntry>

    ghost predicate Valid()
      reads this
    {
      1 <= maxEntries && |inner| <= maxEntries
    }

    constructor (ttl: nat, maxEntries: nat)
      ensures Valid() && inner == map[] && this.ttl == ttl && this.maxEntries == Max(1, maxEntries)
    {
      this.ttl := ttl;
      this.maxEntries := Max(1, maxEntries);
      inner := map[];
    }

    method Lookup(id: Id, now: int, mono: nat) returns (r: Option<Session>)
      ensures r.Some? <==>
                && id in inner && InWindow(inner[id], ttl, mono)
                && inner[id].session.revokedAt.None? && now < inner[id].session.expiresAt
      ensures r.Some? ==> r.value == inner[id].session
    {
      if id !in inner {
        return None;
      }
      var entry := inner[id];
      if Elapsed(mono, entry.cachedAt) >= ttl || !entry.session.IsActive(now) {
        return None;
      }
      r := Some(entry.session);
    }

    /** `evict_one`: sweep what is past the window, else drop the oldest. */
    method EvictOne(mono: nat)
      modifies this`inner
      ensures EvictedFrom(old(inner), inner, ttl, mono)
      ensures old(inner) != map[] ==> |inner| < |old(inner)|
    {
      var before := inner;
      FreshIsInWindow(before, ttl, mono);
      inner := Fresh(inner, ttl, mono);
      SubmapSmaller(before, inner);
      if |inner| < |before| || inner == map[] {
        return;
      }
      var oldest := Oldest(inner);
      inner := inner - {oldest};
      assert inner.Keys == before.Keys - {oldest};
    }

    method Insert(id: Id, session: Session, mono: nat)
      requires Valid()
      modifies this`inner
      ensures Valid()
      ensures InsertedInto(old(inner), inner, id, CacheEntry(session, mono), ttl, maxEntries, mono)
      ensures id in inner && inner[id] == CacheEntry(session, mono)
      ensures forall k :: k in inner && k != id ==> k in old(inner) && inner[k] == old(inner)[k]
    {
      var entry := CacheEntry(session, mono);
      if |inner| >= maxEntries && id !in inner {
        EvictOne(mono);
      }
      ghost var mid := inner;
      inner := inner[id := entry];
      assert inner.Keys == mid.Keys + {id};
    }

    method Remove(id: Id)
      requires Valid()
      modifies this`inner
      ensures Valid() && inner == old(inner) - {id}
    {
      ghost var before := inner;
      inner := inner - {id};
      SubmapSmaller(before, inner);
    }
  }

  lemma SubmapSmaller(m: map<Id, CacheEntry>, m': map<Id, CacheEntry>)
    requires m'.Keys <= m.Keys && forall k :: k in m' ==> m'[k] == m[k]
    ensures |m'| <= |m|
    ensures |m'| == |m| ==> m' == m
  {
    assert m.Keys == m'.Keys + (m.Keys - m'.Keys);
    assert |m.Keys| == |m'.Keys| + |m.Keys - m'.Keys|;
  }

  // ---------------------------------------------------------------- the reference: always read the database

  type Table = map<Id, Session>

  datatype Op = Create(session: Session) | Find(id: Id) | Revoke(id: Id)

  datatype Answer = Created | Found(identity: Result<Identity, AuthError>) | Revoked

  function DbLookup(db: Table, id: Id, now: int): Result<Identity, AuthError> {
    if id !in db then Err(InvalidSession)
    else if !db[id].IsActive(now) then Err(RevokedSession)
    else Ok(db[id].AsIdentity())
  }

  /** Stamps the row, unless it is missing or already stamped. */
  function DbRevoke(db: Table, id: Id, now: int): Table {
    if id in db && db[id].revokedAt.None? then db[id := db[id].(revokedAt := Some(now))] else db
  }

  /** What the reference answers, field by field. */
  lemma DbLookupExact(db: Table, id: Id, now: int)
    ensures DbLookup(db, id, now) == Err(InvalidSession) <==> id !in db
    ensures DbLookup(db, id, now).Ok? <==> id in db && db[id].revokedAt.None? && now < db[id].expiresAt
    ensures DbLookup(db, id, now).Ok? ==>
              var who := DbLookup(db, id, now).value;
              && who.sessionId == db[id].id && who.userSub == db[id].userSub && who.userEmail == db[id].userEmail
              && who.groups == db[id].groups && who.issuedAt == db[id].issuedAt
    ensures DbLookup(db, id, now).Err? ==> DbLookup(db, id, now).error in {InvalidSession, RevokedSession}
  {
  }

  /** A logout stamps one row, once, and touches nothing else. */
  lemma DbRevokeExact(db: Table, id: Id, now: int, other: Id)
    ensures DbRevoke(db, id, now).Keys == db.Keys
    ensures other in db && other != id ==> DbRevoke(db, id, now)[other] == db[other]
    ensures id in db ==>
              DbRevoke(db, id, now)[id] ==
              db[id].(revokedAt := if db[id].revokedAt.None? then Some(now) else db[id].revokedAt)
    ensures DbRevoke(DbRevoke(db, id, now), id, now + 1) == DbRevoke(db, id, now)
  {
  }

  ghost function Unrevoked(db: Table): set<Id> {
    set id | id in db && db[id].revokedAt.None?
  }

  /** An operation with the readings of the two clocks it will see. */
  datatype Timed = Timed(op: Op, now: int, mono: nat)

  function DbAfter(db: Table, t: Timed): Table {
    match t.op
    case Create(session) => db[session.id := session]
    case Find(_) => db
    case Revoke(id) => DbRevoke(db, id, t.now)
  }

  function DbAnswer(db: Table, t: Timed): Answer {
    match t.op
    case Create(_) => Created
    case Find(id) => Found(DbLookup(db, id, t.now))
    case Revoke(_) => Revoked
  }

  function DbRun(db: Table, ops: seq<Timed>): Table {
    if ops == [] then db else DbAfter(DbRun(db, ops[..|ops| - 1]), ops[|ops| - 1])
  }

  function DbAnswers(db: Table, ops: seq<Timed>): seq<Answer> {
    if ops == [] then []
    else DbAnswers(db, ops[..|ops| - 1]) + [DbAnswer(DbRun(db, ops[..|ops| - 1]), ops[|ops| - 1])]
  }

  /** New sessions get ids never used before, and a lifetime the date type can hold. */
  ghost predicate CreatesFresh(t: Timed, db: Table) {
    t.op.Create? ==>
      var s := t.op.session;
      s.revokedAt.None? && s.id !in db && 0 <= s.expiresAt - t.now <= MAX_CHRONO_MS
  }

  ghost predicate Runnable(ops: seq<Timed>, db: Table) {
    forall i :: 0 <= i < |ops| ==> CreatesFresh(ops[i], DbRun(db, ops[..i]))
  }

  /** A stamped revocation time never changes again, whatever follows. */
  lemma {:induction false} RevocationIsFinal(db: Table, ops: seq<Timed>, id: Id)
    requires Runnable(ops, db) && id in db && db[id].revokedAt.Some?
    ensures id in DbRun(db, ops) && DbRun(db, ops)[id] == db[id]
  {
    if ops == [] {
    } else {
      var init := ops[..|ops| - 1];
      assert forall i :: 0 <= i < |init| ==> init[i] == ops[i] && init[..i] == ops[..i];
      RevocationIsFinal(db, init, id);
      assert CreatesFresh(ops[|ops| - 1], DbRun(db, init));
    }
  }

  // ---------------------------------------------------------------- the store

  const EIGHT_HOURS: nat := 8 * 3600 * 1000
  const MAX_CHRONO_MS: nat := 0x7FFF_FFFF_FFFF_FFFF

  function NewSession(id: Id, userSub: string, userEmail: string, groups: seq<string>, ttl: nat,
                      agentClient: Option<string>, originalIssuedAt: Option<int>, now: int): Session {
    Session(id, userSub, userEmail, groups, agentClient,
            if originalIssuedAt.Some? then originalIssuedAt.value else now,
            now + (if ttl <= MAX_CHRONO_MS then ttl else EIGHT_HOURS), None)
  }

  /** A new session is what was asked for, unrevoked, issued at the first login it descends
      from, and lives for its lifetime, or eight hours if that is beyond the date type. */
  lemma NewSessionExact(id: Id, userSub: string, userEmail: string, groups: seq<string>, ttl: nat,
                        agentClient: Option<string>, originalIssuedAt: Option<int>, now: int)
    ensures var s := NewSession(id, userSub, userEmail, groups, ttl, agentClient, originalIssuedAt, now);
            && s.AsIdentity() == Identity(id, userSub, userEmail, groups, s.issuedAt)
            && s.agentClient == agentClient && s.revokedAt.None?
            && s.issuedAt == (match originalIssuedAt case Some(first) => first case None => now)
            && s.expiresAt - now == (if ttl <= 0x7FFF_FFFF_FFFF_FFFF then ttl else 28_800_000)
  {
  }

  lemma UnrevokedAdd(db: Table, session: Session)
    requires session.id !in db && session.revokedAt.None?
    ensures |Unrevoked(db[session.id := session])| == |Unrevoked(db)| + 1
  {
    assert Unrevoked(db[session.id := session]) == Unrevoked(db) + {session.id};
  }

  lemma UnrevokedDrop(db: Table, id: Id, now: int)
    ensures |Unrevoked(DbRevoke(db, id, now))| ==
            |Unrevoked(db)| - (if id in db && db[id].revokedAt.None? then 1 else 0)
  {
    if id in db && db[id].revokedAt.None? {
      assert Unrevoked(DbRevoke(db, id, now)) == Unrevoked(db) - {id};
    }
  }

  /** `db` is the sessions table, `gauge` the `active_sessions` metric. */
  class SessionStore {
    var db: Table
    const cache: SessionCache
    var gauge: int

    ghost predicate Valid()
      reads this, cache
    {
      && cache.Valid()
      && (forall id :: id in db ==> db[id].id == id)
      && (forall id :: id in cache.inner ==> id in db && cache.inner[id].session == db[id])
      && gauge == |Unrevoked(db)|
    }

    constructor (ttl: nat, maxEntries: nat)
      ensures Valid() && db == map[] && fresh(cache) && cache.ttl == ttl
    {
      cache := new SessionCache(ttl, maxEntries);
      db := map[];
      gauge := 0;
    }

    /** Times are milliseconds; a lifetime too long for the date type becomes eight hours. */
    method Create(id: Id, userSub: string, userEmail: string, groups: seq<string>, ttl: nat,
                  agentClient: Option<string>, originalIssuedAt: Option<int>, now: int, mono: nat, up: bool)
      returns (r: Result<Session, AuthError>)
      requires Valid() && id !in db
      modifies this, cache
      ensures Valid()
      ensures !up ==> r == Err(StateDb) && db == old(db) && cache.inner == old(cache.inner) && gauge == old(gauge)
      ensures up ==> r == Ok(NewSession(id, userSub, userEmail, groups, ttl, agentClient, originalIssuedAt, now))
      ensures up ==> db == old(db)[id := r.value] && gauge == old(gauge) + 1
      ensures up ==> id in cache.inner && cache.inner[id] == CacheEntry(r.value, mono)
    {
      var session := NewSession(id, userSub, userEmail, groups, ttl, agentClient, originalIssuedAt, now);
      if !up {
        return Err(StateDb);
      }
      UnrevokedAdd(db, session);
      db := db[id := session];
      cache.Insert(id, session, mono);
      assert forall k :: k in cache.inner ==> k in db && cache.inner[k].session == db[k];
      gauge := gauge + 1;
      r := Ok(session);
    }

    /** `lookup`: a fresh active hit needs no database; else the row decides, and its entry is
        refreshed or dropped. */
    method Lookup(id: Id, now: int, mono: nat, up: bool) returns (r: Result<Identity, AuthError>)
      requires Valid()
      modifies cache
      ensures Valid()
      ensures var held := old(cache.inner);
              var hit := id in held && InWindow(held[id], cache.ttl, mono)
                         && held[id].session.revokedAt.None? && now < held[id].session.expiresAt;
              && (hit || up ==> r == DbLookup(db, id, now))
              && (!hit && !up ==> r == Err(StateDb))
              && (hit || !up ==> cache.inner == old(cache.inner))
              && (!hit && up && r.Ok? ==> id in cache.inner && cache.inner[id] == CacheEntry(db[id], mono))
              && (!hit && up && r.Err? ==> cache.inner == old(cache.inner) - {id})
    {
      var hit := cache.Lookup(id, now, mono);
      if hit.Some? {
        return Ok(hit.value.AsIdentity());
      }
      if !up {
        return Err(StateDb);
      }
      if id !in db {
        cache.Remove(id);
        return Err(InvalidSession);
      }
      var session := db[id];
      if !session.IsActive(now) {
        cache.Remove(id);
        return Err(RevokedSession);
      }
      cache.Insert(id, session, mono);
      r := Ok(session.AsIdentity());
    }

    /** `revoke`: idempotent, and the gauge only moves on a real revocation. */
    method Revoke(id: Id, now: int, up: bool) returns (r: Result<(), AuthError>)
      requires Valid()
      modifies this, cache
      ensures Valid()
      ensures r == if up then Ok(()) else Err(StateDb)
      ensures db == if up then DbRevoke(old(db), id, now) else old(db)
      ensures cache.inner == if up then old(cache.inner) - {id} else old(cache.inner)
      ensures gauge == old(gauge) - (if up && id in old(db) && old(db)[id].revokedAt.None? then 1 else 0)
    {
      if !up {
        return Err(StateDb);
      }
      var affected := if id in db && db[id].revokedAt.None? then 1 else 0;
      UnrevokedDrop(db, id, now);
      db := DbRevoke(db, id, now);
      cache.Remove(id);
      if affected > 0 {
        gauge := gauge - 1;
      }
      r := Ok(());
    }
  }

  method PerformCreate(store: SessionStore, s: Session, now: int, mono: nat)
    requires store.Valid() && CreatesFresh(Timed(Create(s), now, mono), store.db)
    modifies store, store.cache
    ensures store.Valid() && store.db == old(store.db)[s.id := s]
  {
    var made := store.Create(s.id, s.userSub, s.userEmail, s.groups, s.expiresAt - now, s.agentClient,
                             Some(s.issuedAt), now, mono, true);
    assert made.value == s;
  }

  method Perform(store: SessionStore, t: Timed) returns (a: Answer)
    requires store.Valid() && CreatesFresh(t, store.db)
    modifies store, store.cache
    ensures store.Valid() && a == DbAnswer(old(store.db), t) && store.db == DbAfter(old(store.db), t)
  {
    match t.op {
      case Create(s) =>
        PerformCreate(store, s, t.now, t.mono);
        a := Created;
      case Find(id) =>
        var found := store.Lookup(id, t.now, t.mono, true);
        a := Found(found);
      case Revoke(id) =>
        var done := store.Revoke(id, t.now, true);
        a := Answer.Revoked;
    }
  }

  /** Every sequential run gives, operation by operation, the answers of a store that
      always reads the database, whatever the clocks say and whatever gets evicted. */
  method Replay(store: SessionStore, ops: seq<Timed>) returns (answers: seq<Answer>)
    requires store.Valid() && Runnable(ops, store.db)
    modifies store, store.cache
    ensures store.Valid() && answers == DbAnswers(old(store.db), ops) && store.db == DbRun(old(store.db), ops)
  {
    answers := [];
    ghost var start := store.db;
    for i := 0 to |ops|
      invariant store.Valid()
      invariant store.db == DbRun(start, ops[..i]) && answers == DbAnswers(start, ops[..i])
    {
      assert ops[..i + 1][..i] == ops[..i];
      var a := Perform(store, ops[i]);
      answers := answers + [a];
    }
    assert ops[..|ops|] == ops;
  }
}
