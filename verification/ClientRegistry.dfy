/** The dynamic client registry and its two backends (src/transport/client_registry.rs),
    for the registration endpoint of section 3.1 of RFC 7591. Times are seconds. */
module ClientRegistry {
  import opened Common

  const CLIENT_TTL: nat := 90 * 24 * 3600
  const CLIENT_CAP: nat := 10_000

  type ClientId = string

  datatype Client = Client(redirectUris: seq<string>, expiresAt: nat)

  type Table = map<ClientId, Client>

  datatype Op = Register(id: ClientId, uris: seq<string>) | Authorize(id: ClientId)

  datatype Answer = Registered(ok: bool) | Uris(uris: Option<seq<string>>)

  /** The registrations that have not lapsed. */
  function Live(m: Table, now: nat): Table {
    map id | id in m && now < m[id].expiresAt :: m[id]
  }

  // ---------------------------------------------------------------- in memory

  function MemAfter(m: Table, op: Op, now: nat): Table {
    var live := Live(m, now);
    match op
    case Register(id, uris) =>
      if CLIENT_CAP <= |live| && id !in live then live else live[id := Client(uris, now + CLIENT_TTL)]
    case Authorize(id) =>
      if id in live then live[id := live[id].(expiresAt := now + CLIENT_TTL)] else live
  }

  function AnswerFor(live: Table, op: Op): Answer {
    match op
    case Register(id, _) => Registered(|live| < CLIENT_CAP || id in live)
    case Authorize(id) => Uris(if id in live then Some(live[id].redirectUris) else None)
  }

  class MemoryRegistry {
    var clients: Table

    constructor ()
      ensures clients == map[]
    {
      clients := map[];
    }

    /** `gc_mem`: drop lapsed registrations. */
    method Collect(now: nat)
      modifies this
      ensures clients == Live(old(clients), now)
    {
      ghost var before := clients;
      var todo := clients.Keys;
      while todo != {}
        invariant todo <= clients.Keys <= before.Keys
        invariant forall id :: id in clients ==> clients[id] == before[id]
        invariant forall id :: id in before && id !in todo ==> (id in clients <==> now < before[id].expiresAt)
        decreases |todo|
      {
        var id :| id in todo;
        todo := todo - {id};
        if clients[id].expiresAt <= now {
          clients := clients - {id};
        }
      }
    }

    method Insert(id: ClientId, uris: seq<string>, now: nat) returns (ok: bool)
      modifies this
      ensures clients == MemAfter(old(clients), Register(id, uris), now)
      ensures Registered(ok) == AnswerFor(Live(old(clients), now), Register(id, uris))
    {
      Collect(now);
      if |clients| >= CLIENT_CAP && id !in clients {
        return false;
      }
      clients := clients[id := Client(uris, now + CLIENT_TTL)];
      ok := true;
    }

    method RedirectUris(id: ClientId, now: nat) returns (uris: Option<seq<string>>)
      modifies this
      ensures clients == MemAfter(old(clients), Authorize(id), now)
      ensures Uris(uris) == AnswerFor(Live(old(clients), now), Authorize(id))
    {
      Collect(now);
      if id !in clients {
        return None;
      }
      var client := clients[id];
      clients := clients[id := client.(expiresAt := now + CLIENT_TTL)];
      uris := Some(client.redirectUris);
    }
  }

  // ---------------------------------------------------------------- in the state database

  function DbAfter(m: Table, op: Op, now: nat): Table {
    match op
    case Register(_, _) => MemAfter(m, op, now)
    case Authorize(id) =>
      if id in m && now < m[id].expiresAt then m[id := m[id].(expiresAt := now + CLIENT_TTL)] else m
  }

  class DbRegistry {
    var rows: Table

    constructor ()
      ensures rows == map[]
    {
      rows := map[];
    }

    /** `insert_db`: delete lapsed rows, check existence, count, upsert. `answered` is how
        many statements the database takes before it fails; four are always enough. A
        failure reports no registration and loses none that is live. */
    method Insert(id: ClientId, uris: seq<string>, now: nat, answered: nat) returns (ok: bool)
      modifies this
      ensures 4 <= answered ==> Registered(ok) == AnswerFor(Live(old(rows), now), Register(id, uris))
      ensures ok || 4 <= answered ==> rows == DbAfter(old(rows), Register(id, uris), now)
      ensures ok ==> Registered(true) == AnswerFor(Live(old(rows), now), Register(id, uris))
      ensures !ok ==> rows == if answered == 0 then old(rows) else Live(old(rows), now)
    {
      if answered == 0 {
        return false;
      }
      rows := Live(rows, now);
      if answered == 1 {
        return false;
      }
      var used := 2;
      if id !in rows {
        if answered == 2 {
          return false;
        }
        used := 3;
        if |rows| >= CLIENT_CAP {
          return false;
        }
      }
      if answered == used {
        return false;
      }
      rows := rows[id := Client(uris, now + CLIENT_TTL)];
      ok := true;
    }

    /** `touch_db`: one UPDATE … RETURNING over the live row; `up` says whether the database answers. */
    method RedirectUris(id: ClientId, now: nat, up: bool) returns (uris: Option<seq<string>>)
      modifies this
      ensures !up ==> uris == None && rows == old(rows)
      ensures up ==> rows == DbAfter(old(rows), Authorize(id), now)
      ensures up ==> Uris(uris) == AnswerFor(Live(old(rows), now), Authorize(id))
    {
      if !up || id !in rows || rows[id].expiresAt <= now {
        return None;
      }
      var row := rows[id];
      rows := rows[id := row.(expiresAt := now + CLIENT_TTL)];
      uris := Some(row.redirectUris);
    }
  }

  // ---------------------------------------------------------------- the backends agree

  /** A trace of operations, each at an instant of one clock that never runs back. */
  type Trace = seq<(Op, nat)>

  ghost predicate Ordered(trace: Trace) {
    forall i, j :: 0 <= i <= j < |trace| ==> trace[i].1 <= trace[j].1
  }

  function MemRun(trace: Trace): Table {
    if trace == [] then map[] else MemAfter(MemRun(trace[..|trace| - 1]), trace[|trace| - 1].0, trace[|trace| - 1].1)
  }

  function DbRun(trace: Trace): Table {
    if trace == [] then map[] else DbAfter(DbRun(trace[..|trace| - 1]), trace[|trace| - 1].0, trace[|trace| - 1].1)
  }

  function MemAnswers(trace: Trace): seq<Answer> {
    if trace == [] then []
    else
      var init, last := trace[..|trace| - 1], trace[|trace| - 1];
      MemAnswers(init) + [AnswerFor(Live(MemRun(init), last.1), last.0)]
  }

  function DbAnswers(trace: Trace): seq<Answer> {
    if trace == [] then []
    else
      var init, last := trace[..|trace| - 1], trace[|trace| - 1];
      DbAnswers(init) + [AnswerFor(Live(DbRun(init), last.1), last.0)]
  }

  lemma LiveLater(m: Table, now: nat, later: nat)
    requires now <= later
    ensures Live(Live(m, now), later) == Live(m, later)
  {
  }

  lemma StepAgrees(db: Table, mem: Table, op: Op, now: nat)
    requires Live(db, now) == Live(mem, now)
    ensures Live(DbAfter(db, op, now), now) == Live(MemAfter(mem, op, now), now)
  {
    LiveLater(mem, now, now);
    var live := Live(mem, now);
    if op.Authorize? && op.id in live {
      var c := live[op.id].(expiresAt := now + CLIENT_TTL);
      assert Live(db[op.id := c], now) == live[op.id := c];
      assert Live(live[op.id := c], now) == live[op.id := c];
    }
  }

  /** The last instant of a trace. */
  function End(trace: Trace): nat {
    if trace == [] then 0 else trace[|trace| - 1].1
  }

  lemma {:induction false} SameLive(trace: Trace, later: nat)
    requires Ordered(trace) && End(trace) <= later
    ensures Live(DbRun(trace), later) == Live(MemRun(trace), later)
  {
    if trace == [] {
    } else {
      var init, op, now := trace[..|trace| - 1], trace[|trace| - 1].0, trace[|trace| - 1].1;
      assert End(init) <= now;
      SameLive(init, now);
      StepAgrees(DbRun(init), MemRun(init), op, now);
      LiveLater(DbRun(trace), now, later);
      LiveLater(MemRun(trace), now, later);
    }
  }

  /** Both backends answer every sequential trace alike, although one collects lapsed
      registrations on lookup and the other only ignores them. */
  lemma {:induction false} BackendsAgree(trace: Trace)
    requires Ordered(trace)
    ensures DbAnswers(trace) == MemAnswers(trace)
  {
    if trace == [] {
    } else {
      var init := trace[..|trace| - 1];
      assert End(init) <= End(trace);
      BackendsAgree(init);
      SameLive(init, End(trace));
    }
  }

  lemma LiveSmaller(m: Table, now: nat)
    ensures |Live(m, now)| <= |m|
  {
    assert m.Keys == Live(m, now).Keys + (m.Keys - Live(m, now).Keys);
    assert |m.Keys| == |Live(m, now).Keys| + |m.Keys - Live(m, now).Keys|;
  }

  lemma StepCap(m: Table, op: Op, now: nat)
    requires |m| <= CLIENT_CAP
    ensures |MemAfter(m, op, now)| <= CLIENT_CAP && |DbAfter(m, op, now)| <= CLIENT_CAP
  {
    var live := Live(m, now);
    LiveSmaller(m, now);
    if op.Register? {
      assert live[op.id := Client(op.uris, now + CLIENT_TTL)].Keys == live.Keys + {op.id};
    } else if op.id in live {
      var c := live[op.id].(expiresAt := now + CLIENT_TTL);
      assert live[op.id := c].Keys == live.Keys && m[op.id := c].Keys == m.Keys;
    }
  }

  /** Neither table ever exceeds the cap, lapsed rows included. */
  lemma {:induction false} WithinCap(trace: Trace)
    ensures |MemRun(trace)| <= CLIENT_CAP && |DbRun(trace)| <= CLIENT_CAP
  {
    if trace == [] {
    } else {
      var init, op, now := trace[..|trace| - 1], trace[|trace| - 1].0, trace[|trace| - 1].1;
      WithinCap(init);
      StepCap(MemRun(init), op, now);
      StepCap(DbRun(init), op, now);
    }
  }

  /** No operation removes a live registration, and only its own
      re-registration changes its redirect URIs. */
  lemma LiveClientsSurvive(m: Table, op: Op, now: nat, id: ClientId)
    requires id in Live(m, now)
    ensures forall m': Table :: m' == MemAfter(m, op, now) || m' == DbAfter(m, op, now) ==>
              && id in Live(m', now)
              && (op.id != id ==> m'[id] == m[id])
              && (op.Authorize? ==> m'[id].redirectUris == m[id].redirectUris)
  {
  }

  // ---------------------------------------------------------------- what a registration is good for

  ghost predicate Outcome(backend: Table, after: Table, op: Op, now: nat) {
    after == MemAfter(backend, op, now) || after == DbAfter(backend, op, now)
  }

  /** Exactly the clients whose lifetime has not run out are live. */
  lemma LiveExact(m: Table, now: nat, id: ClientId)
    ensures id in Live(m, now) <==> id in m && now < m[id].expiresAt
    ensures id in Live(m, now) ==> Live(m, now)[id] == m[id]
  {
  }

  /** A registration is refused exactly for a new client when ten thousand others are live; a
      refusal registers nobody. An accepted one makes the client live for 90 days under the
      given URIs. On both backends. */
  lemma RegistrationTakes(m: Table, id: ClientId, uris: seq<string>, now: nat, after: Table, later: nat)
    requires Outcome(m, after, Register(id, uris), now) && now <= later
    ensures AnswerFor(Live(m, now), Register(id, uris)) == Registered(id in Live(m, now) || |Live(m, now)| < 10_000)
    ensures AnswerFor(Live(m, now), Register(id, uris)) == Registered(false) ==> after == Live(m, now) && id !in after
    ensures AnswerFor(Live(m, now), Register(id, uris)) == Registered(true) ==>
              AnswerFor(Live(after, later), Authorize(id)) == Uris(if later < now + 7_776_000 then Some(uris) else None)
  {
  }

  /** A successful authorize answers with the registered URIs and makes the registration last
      another 90 days; an unsuccessful one is for a client that is not live. On both backends. */
  lemma AuthorizeSlides(m: Table, id: ClientId, now: nat, after: Table, later: nat)
    requires Outcome(m, after, Authorize(id), now) && now <= later
    ensures AnswerFor(Live(m, now), Authorize(id)) ==
            Uris(if id in m && now < m[id].expiresAt then Some(m[id].redirectUris) else None)
    ensures id in Live(m, now) ==>
              AnswerFor(Live(after, later), Authorize(id)) ==
              Uris(if later < now + 7_776_000 then Some(m[id].redirectUris) else None)
  {
  }
}
