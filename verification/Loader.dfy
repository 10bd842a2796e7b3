/** The permissions store and the loader that projects it (src/authz/loader.rs). */
module Loader {
  import opened Common
  import opened Grants

  type Sub = string
  type Id = nat

  datatype Target = Specific(databaseId: Id) | Wildcard(server: string)

  /** A live `permissions_grants` row. `constraints` is `None` when the stored
      JSON does not decode to the schema. */
  datatype GrantRow = GrantRow(id: Id, target: Target, action: Action, constraints: Option<Constraints>)

  datatype DatabaseRow = DatabaseRow(server: string, dbName: string)

  /** The three tables, restricted to what the loader can observe. `owner` keeps
      every user row ever written, `live` only the ones that are not soft-deleted;
      `databases` holds the live database rows. */
  datatype Db = Db(owner: map<Id, Sub>, live: map<Sub, Id>,
                   grants: map<Id, seq<GrantRow>>, databases: map<Id, DatabaseRow>)
  {
    ghost predicate Valid() {
      && (forall u :: u in live ==> live[u] in owner && owner[live[u]] == u)
      && grants.Keys <= owner.Keys
    }

    function GrantsOf(id: Id): seq<GrantRow> {
      if id in grants then grants[id] else []
    }
  }

  datatype LoadError = Repo | DecodeConstraints(grantId: Id)

  /** The `(server, database)` pair a row points at, or `None` when its database row is gone. */
  function Resolve(target: Target, databases: map<Id, DatabaseRow>): Option<(string, string)> {
    match target
    case Specific(id) => if id in databases then Some((databases[id].server, databases[id].dbName)) else None
    case Wildcard(server) => Some((server, "*"))
  }

  /** The rows whose target still exists, in order. */
  function Kept(rows: seq<GrantRow>, databases: map<Id, DatabaseRow>): (kept: seq<GrantRow>)
    ensures forall k :: 0 <= k < |kept| ==> kept[k] in rows && Resolve(kept[k].target, databases).Some?
  {
    if rows == [] then []
    else
      var last := rows[|rows| - 1];
      Kept(rows[..|rows| - 1], databases) + if Resolve(last.target, databases).Some? then [last] else []
  }

  function ToGrant(row: GrantRow, databases: map<Id, DatabaseRow>): Grant
    requires Resolve(row.target, databases).Some? && row.constraints.Some?
  {
    var where := Resolve(row.target, databases).value;
    Grant(where.0, where.1, row.action, row.constraints.value)
  }

  /** The specification of one load over one snapshot: the first kept row that does
      not decode fails the load; otherwise every kept row becomes a grant, in order. */
  function Project(rows: seq<GrantRow>, databases: map<Id, DatabaseRow>): Result<seq<Grant>, LoadError> {
    if rows == [] then Ok([])
    else
      var init, last := rows[..|rows| - 1], rows[|rows| - 1];
      match Project(init, databases)
      case Err(e) => Err(e)
      case Ok(out) =>
        if Resolve(last.target, databases).None? then Ok(out)
        else if last.constraints.None? then Err(DecodeConstraints(last.id))
        else Ok(out + [ToGrant(last, databases)])
  }

  /** What a load would return if all three reads saw the snapshot `db`. */
  function Projection(db: Db, sub: Sub): Result<seq<Grant>, LoadError> {
    if sub !in db.live then Ok([]) else Project(db.GrantsOf(db.live[sub]), db.databases)
  }

  /** The row's target still exists. */
  ghost predicate Points(row: GrantRow, databases: map<Id, DatabaseRow>) {
    row.target.Wildcard? || row.target.databaseId in databases
  }

  /** The grant a row stands for, said without the code: a specific target names the server
      and database of its database row, a wildcard its own server and every database. */
  ghost predicate StandsFor(row: GrantRow, databases: map<Id, DatabaseRow>, g: Grant) {
    && Points(row, databases) && row.constraints == Some(g.constraints) && g.action == row.action
    && match row.target
       case Specific(id) => g.server == databases[id].server && g.database == databases[id].dbName
       case Wildcard(server) => g.server == server && g.database == "*"
  }

  ghost predicate AllDecode(rows: seq<GrantRow>) {
    forall k :: 0 <= k < |rows| ==> rows[k].constraints.Some?
  }

  /** The positions of the rows that are kept. */
  ghost function Picks(rows: seq<GrantRow>, databases: map<Id, DatabaseRow>): seq<nat> {
    if rows == [] then []
    else Picks(rows[..|rows| - 1], databases) + if Points(rows[|rows| - 1], databases) then [|rows| - 1] else []
  }

  ghost predicate Increasing(picks: seq<nat>, bound: nat) {
    && (forall k :: 0 <= k < |picks| ==> picks[k] < bound)
    && (forall k, m :: 0 <= k < m < |picks| ==> picks[k] < picks[m])
  }

  lemma {:induction false} PicksInOrder(rows: seq<GrantRow>, databases: map<Id, DatabaseRow>)
    ensures Increasing(Picks(rows, databases), |rows|)
  {
    if rows == [] {
    } else {
      PicksInOrder(rows[..|rows| - 1], databases);
    }
  }

  lemma {:induction false} PicksMembers(rows: seq<GrantRow>, databases: map<Id, DatabaseRow>, i: nat)
    ensures i in Picks(rows, databases) <==> i < |rows| && Points(rows[i], databases)
  {
    if rows == [] {
    } else {
      PicksMembers(rows[..|rows| - 1], databases, i);
    }
  }

  lemma {:induction false} KeptPicks(rows: seq<GrantRow>, databases: map<Id, DatabaseRow>, k: nat)
    requires Increasing(Picks(rows, databases), |rows|)
    ensures |Kept(rows, databases)| == |Picks(rows, databases)|
    ensures k < |Picks(rows, databases)| ==> Kept(rows, databases)[k] == rows[Picks(rows, databases)[k]]
  {
    if rows == [] {
    } else {
      var init := rows[..|rows| - 1];
      PicksInOrder(init, databases);
      KeptPicks(init, databases, k);
      if k < |Picks(init, databases)| {
        assert init[Picks(init, databases)[k]] == rows[Picks(init, databases)[k]];
      }
    }
  }

  /** Exactly the rows with a live target are kept, in their stored order. */
  lemma KeptExact(rows: seq<GrantRow>, databases: map<Id, DatabaseRow>)
    ensures var kept, picks := Kept(rows, databases), Picks(rows, databases);
            && Increasing(picks, |rows|) && |kept| == |picks|
            && (forall k :: 0 <= k < |picks| ==> kept[k] == rows[picks[k]])
            && (forall i: nat :: i in picks <==> i < |rows| && Points(rows[i], databases))
  {
    PicksInOrder(rows, databases);
    KeptPicks(rows, databases, 0);
    forall k: nat | k < |Picks(rows, databases)| ensures Kept(rows, databases)[k] == rows[Picks(rows, databases)[k]] {
      KeptPicks(rows, databases, k);
    }
    forall i: nat ensures i in Picks(rows, databases) <==> i < |rows| && Points(rows[i], databases) {
      PicksMembers(rows, databases, i);
    }
  }

  /** A load succeeds exactly when every row with a live target decodes, and then returns
      what precisely those rows stand for, in their stored order. */
  lemma {:induction false} ProjectExact(rows: seq<GrantRow>, databases: map<Id, DatabaseRow>)
    ensures Project(rows, databases).Ok? <==> AllDecode(Kept(rows, databases))
    ensures Project(rows, databases).Ok? ==>
              var kept, out := Kept(rows, databases), Project(rows, databases).value;
              |out| == |kept| && forall k :: 0 <= k < |kept| ==> StandsFor(kept[k], databases, out[k])
  {
    if rows == [] {
    } else {
      var init, last := rows[..|rows| - 1], rows[|rows| - 1];
      ProjectExact(init, databases);
      var before, kept := Kept(init, databases), Kept(rows, databases);
      if Resolve(last.target, databases).None? {
        assert kept == before;
      } else {
        assert kept == before + [last];
        assert AllDecode(kept) <==> AllDecode(before) && last.constraints.Some? by {
          assert kept[|before|] == last;
          assert forall k :: 0 <= k < |before| ==> kept[k] == before[k];
        }
      }
    }
  }

  /** A load fails with the id of the first row that has a live target and does not decode. */
  lemma {:induction false} ErrorIsFirst(rows: seq<GrantRow>, databases: map<Id, DatabaseRow>) returns (i: nat)
    requires Project(rows, databases).Err?
    ensures i < |rows| && Points(rows[i], databases) && rows[i].constraints.None?
    ensures Project(rows, databases) == Err(DecodeConstraints(rows[i].id))
    ensures forall k :: 0 <= k < i && Points(rows[k], databases) ==> rows[k].constraints.Some?
  {
    var n := |rows| - 1;
    if Project(rows[..n], databases).Err? {
      i := ErrorIsFirst(rows[..n], databases);
      assert forall k :: 0 <= k < i ==> rows[..n][k] == rows[k];
    } else {
      i := n;
      ProjectExact(rows[..n], databases);
      KeptExact(rows[..n], databases);
      forall k | 0 <= k < i && Points(rows[k], databases) ensures rows[k].constraints.Some? {
        assert rows[..n][k] == rows[k];
        assert k in Picks(rows[..n], databases);
        var m :| 0 <= m < |Picks(rows[..n], databases)| && Picks(rows[..n], databases)[m] == k;
        assert Kept(rows[..n], databases)[m] == rows[k];
      }
    }
  }

  /** The loop of `load_db_grants_for`: index, skip dead targets, stop at the first
      malformed row, push the rest. */
  method ResolveRows(rows: seq<GrantRow>, databases: map<Id, DatabaseRow>) returns (r: Result<seq<Grant>, LoadError>)
    ensures r == Project(rows, databases)
  {
    var out: seq<Grant> := [];
    for i := 0 to |rows|
      invariant Project(rows[..i], databases) == Ok(out)
    {
      assert rows[..i + 1][..i] == rows[..i];
      if Resolve(rows[i].target, databases).None? {
        continue;
      }
      if rows[i].constraints.None? {
        ErrorSticks(rows, databases, i + 1);
        return Err(DecodeConstraints(rows[i].id));
      }
      out := out + [ToGrant(rows[i], databases)];
    }
    assert rows[..|rows|] == rows;
    r := Ok(out);
  }

  /** Once a prefix fails, no later row changes the error. */
  lemma {:induction false} ErrorSticks(rows: seq<GrantRow>, databases: map<Id, DatabaseRow>, n: nat)
    requires n <= |rows| && Project(rows[..n], databases).Err?
    ensures Project(rows, databases) == Project(rows[..n], databases)
    decreases |rows|
  {
    if n == |rows| {
      assert rows[..n] == rows;
    } else {
      var init := rows[..|rows| - 1];
      assert init[..n] == rows[..n];
      ErrorSticks(init, databases, n);
    }
  }
}
