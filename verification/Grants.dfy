/** Grants, constraints and their evaluation (src/config/schema.rs, src/authz/mod.rs,
    src/authz/effective.rs). */
module Grants {
  import opened Common

  datatype Action = SchemaRead | QueryRead | QueryWrite | HistoryRead {
    /** A grant of this action allows the requested one. */
    predicate Includes(requested: Action) {
      match (this, requested)
      case (QueryWrite, _) => requested.QueryWrite? || requested.QueryRead? || requested.SchemaRead?
      case (QueryRead, QueryRead) => true
      case (QueryRead, SchemaRead) => true
      case (SchemaRead, SchemaRead) => true
      case (HistoryRead, HistoryRead) => true
      case _ => false
    }
  }

  /** `None` means "no constraint from this grant". */
  datatype Constraints = Constraints(requireReason: bool, rowLimit: Option<nat>, statementTimeoutMs: Option<nat>)

  const UNCONSTRAINED := Constraints(false, None, None)

  datatype Grant = Grant(server: string, database: string, action: Action, constraints: Constraints)

  datatype Permission = Permission(group: string, grants: seq<Grant>)

  datatype Identity = Identity(userSub: string, groups: seq<string>)

  datatype Server = Server(name: string, kind: ServerKind, databases: seq<string>)

  datatype ServerKind = Postgres | Mysql | Mssql | Mongo

  /** The kinds of server the gateway can open. */
  predicate HasAdapter(kind: ServerKind) {
    kind.Postgres? || kind.Mongo?
  }

  datatype Decision = Allow(constraints: Constraints) | Deny

  // ---------------------------------------------------------------- the code

  function MinOption(a: Option<nat>, b: Option<nat>): Option<nat> {
    match (a, b)
    case (Some(x), Some(y)) => Some(if x <= y then x else y)
    case (Some(x), None) => Some(x)
    case (None, Some(y)) => Some(y)
    case (None, None) => None
  }

  function Merge(a: Constraints, b: Constraints): Constraints {
    Constraints(a.requireReason || b.requireReason,
                MinOption(a.rowLimit, b.rowLimit),
                MinOption(a.statementTimeoutMs, b.statementTimeoutMs))
  }

  predicate Applies(g: Grant, action: Action, server: string, database: string) {
    && (g.server == "*" || g.server == server)
    && (g.database == "*" || g.database == database)
    && g.action.Includes(action)
  }

  predicate GrantCanSee(g: Grant, server: Server) {
    && (g.server == "*" || g.server == server.name)
    && (g.database == "*" || g.database in server.databases)
  }

  predicate CanSeeServer(identity: Identity, server: Server, yaml: seq<Permission>, db: seq<Grant>) {
    || (exists p, g :: p in yaml && p.group in identity.groups && g in p.grants && GrantCanSee(g, server))
    || (exists g :: g in db && GrantCanSee(g, server))
  }

  /** `evaluate_effective`: one loop over the YAML grants of the identity's groups and the
      grants already resolved for this identity. The answer is Allow exactly when some
      grant applies, under the greatest lower bound of all that do. */
  method EvaluateEffective(identity: Identity, action: Action, server: string, database: string,
                           yaml: seq<Permission>, db: seq<Grant>) returns (d: Decision)
    ensures d == Decide(InScope(identity, yaml) + db, action, server, database)
    ensures d.Allow? <==> exists g :: Applicable(g, InScope(identity, yaml) + db, action, server, database)
    ensures d.Allow? ==> Greatest(d.constraints, InScope(identity, yaml) + db, action, server, database)
  {
    var scope := InScope(identity, yaml) + db;
    var merged, mergedSome := UNCONSTRAINED, false;
    for k := 0 to |scope|
      invariant Decide(scope[..k], action, server, database) == if mergedSome then Allow(merged) else Deny
      invariant !mergedSome ==> merged == UNCONSTRAINED
    {
      assert scope[..k + 1][..k] == scope[..k];
      if Applies(scope[k], action, server, database) {
        merged, mergedSome := Merge(merged, scope[k].constraints), true;
      }
    }
    assert scope[..|scope|] == scope;
    d := if mergedSome then Allow(merged) else Deny;
    DecideIsMeet(scope, action, server, database);
  }

  // ---------------------------------------------------------------- its specification

  /** The YAML grants of the identity's groups. */
  function InScope(identity: Identity, yaml: seq<Permission>): (gs: seq<Grant>)
    ensures forall g :: g in gs <==> exists p :: p in yaml && p.group in identity.groups && g in p.grants
  {
    if yaml == [] then []
    else
      var init, last := yaml[..|yaml| - 1], yaml[|yaml| - 1];
      assert yaml == init + [last];
      InScope(identity, init) + if last.group in identity.groups then last.grants else []
  }

  /** The decision over one flat list of grants. */
  function Decide(gs: seq<Grant>, action: Action, server: string, database: string): Decision {
    if gs == [] then Deny
    else
      var init, g := gs[..|gs| - 1], gs[|gs| - 1];
      var d := Decide(init, action, server, database);
      if !Applies(g, action, server, database) then d
      else Allow(Merge(if d.Allow? then d.constraints else UNCONSTRAINED, g.constraints))
  }

  function CapLeq(a: Option<nat>, b: Option<nat>): bool {
    b.None? || (a.Some? && a.value <= b.value)
  }

  /** `a` is at least as restrictive as `b` in every field. */
  predicate Leq(a: Constraints, b: Constraints) {
    && (b.requireReason ==> a.requireReason)
    && CapLeq(a.rowLimit, b.rowLimit)
    && CapLeq(a.statementTimeoutMs, b.statementTimeoutMs)
  }

  /** The actions whose grants allow a request: query_write implies query_read implies
      schema_read, and history_read stands alone. */
  ghost function Covering(requested: Action): set<Action> {
    match requested
    case SchemaRead => {SchemaRead, QueryRead, QueryWrite}
    case QueryRead => {QueryRead, QueryWrite}
    case QueryWrite => {QueryWrite}
    case HistoryRead => {HistoryRead}
  }

  ghost predicate Names(pattern: string, name: string) {
    pattern == "*" || pattern == name
  }

  /** What a grant allows, said without the code. */
  ghost predicate Permits(g: Grant, action: Action, server: string, database: string) {
    Names(g.server, server) && Names(g.database, database) && g.action in Covering(action)
  }

  ghost predicate Applicable(g: Grant, gs: seq<Grant>, action: Action, server: string, database: string) {
    g in gs && Permits(g, action, server, database)
  }

  lemma AppliesIffPermits(g: Grant, action: Action, server: string, database: string)
    ensures Applies(g, action, server, database) <==> Permits(g, action, server, database)
  {
  }

  ghost predicate LowerBound(c: Constraints, gs: seq<Grant>, action: Action, server: string, database: string) {
    forall g :: Applicable(g, gs, action, server, database) ==> Leq(c, g.constraints)
  }

  ghost predicate Greatest(c: Constraints, gs: seq<Grant>, action: Action, server: string, database: string) {
    && LowerBound(c, gs, action, server, database)
    && forall b :: LowerBound(b, gs, action, server, database) ==> Leq(b, c)
  }

  lemma MergeIsMeet(a: Constraints, b: Constraints, c: Constraints)
    ensures Leq(c, Merge(a, b)) <==> Leq(c, a) && Leq(c, b)
  {
  }

  lemma LeqAntisymmetric(a: Constraints, b: Constraints)
    requires Leq(a, b) && Leq(b, a)
    ensures a == b
  {
  }

  /** The lower bounds of the applicable grants are exactly the constraints at or below
      the merged result, and there is a result exactly when some grant applies. */
  lemma {:induction false} DecideBounds(gs: seq<Grant>, action: Action, server: string, database: string,
      c: Constraints)
    ensures Decide(gs, action, server, database).Allow? <==> exists g :: Applicable(g, gs, action, server, database)
    ensures Decide(gs, action, server, database).Allow? ==>
              (LowerBound(c, gs, action, server, database) <==>
                  Leq(c, Decide(gs, action, server, database).constraints))
  {
    if gs == [] {
    } else {
      var init, last := gs[..|gs| - 1], gs[|gs| - 1];
      assert gs == init + [last];
      AppliesIffPermits(last, action, server, database);
      assert forall g :: Applicable(g, gs, action, server, database) ==>
               g == last || Applicable(g, init, action, server, database);
      assert forall g :: Applicable(g, init, action, server, database) ==> Applicable(g, gs, action, server, database);
      assert Applies(last, action, server, database) ==> Applicable(last, gs, action, server, database);
      DecideBounds(init, action, server, database, c);
      var d := Decide(init, action, server, database);
      var sofar := if d.Allow? then d.constraints else UNCONSTRAINED;
      MergeIsMeet(sofar, last.constraints, c);
      assert LowerBound(c, gs, action, server, database) <==>
             LowerBound(c, init, action, server, database)
                 && (Applies(last, action, server, database) ==> Leq(c, last.constraints));
      if d.Deny? {
        assert LowerBound(c, init, action, server, database);
        assert Leq(c, UNCONSTRAINED);
      }
    }
  }

  /** Allow exactly when some grant applies; the constraints are the greatest lower
      bound of all applicable grants. */
  lemma DecideIsMeet(gs: seq<Grant>, action: Action, server: string, database: string)
    ensures var d := Decide(gs, action, server, database);
            && (d.Allow? <==> exists g :: Applicable(g, gs, action, server, database))
            && (d.Allow? ==> Greatest(d.constraints, gs, action, server, database))
  {
    var d := Decide(gs, action, server, database);
    DecideBounds(gs, action, server, database, UNCONSTRAINED);
    if d.Allow? {
      DecideBounds(gs, action, server, database, d.constraints);
      forall b | LowerBound(b, gs, action, server, database) ensures Leq(b, d.constraints) {
        DecideBounds(gs, action, server, database, b);
      }
    }
  }

  /** Adding grants never turns an Allow into a Deny and only tightens its constraints. */
  lemma MoreGrantsTighten(few: seq<Grant>, many: seq<Grant>, action: Action, server: string, database: string)
    requires forall g :: g in few ==> g in many
    requires Decide(few, action, server, database).Allow?
    ensures Decide(many, action, server, database).Allow?
    ensures Leq(Decide(many, action, server, database).constraints, Decide(few, action, server, database).constraints)
  {
    DecideIsMeet(few, action, server, database);
    DecideIsMeet(many, action, server, database);
    var g :| Applicable(g, few, action, server, database);
    assert Applicable(g, many, action, server, database);
    var c := Decide(many, action, server, database).constraints;
    forall g | Applicable(g, few, action, server, database) ensures Leq(c, g.constraints) {
      assert Applicable(g, many, action, server, database);
    }
    assert LowerBound(c, few, action, server, database);
  }

  /** Only which grants are in scope matters: not their order, not how often each is
      repeated, not which source supplied it. */
  lemma SameGrantsSameDecision(identity1: Identity, yaml1: seq<Permission>, db1: seq<Grant>,
                               identity2: Identity, yaml2: seq<Permission>, db2: seq<Grant>,
                               action: Action, server: string, database: string)
    requires forall g :: g in InScope(identity1, yaml1) + db1 <==> g in InScope(identity2, yaml2) + db2
    ensures Decide(InScope(identity1, yaml1) + db1, action, server, database)
         == Decide(InScope(identity2, yaml2) + db2, action, server, database)
  {
    var gs1, gs2 := InScope(identity1, yaml1) + db1, InScope(identity2, yaml2) + db2;
    if Decide(gs1, action, server, database).Allow? {
      MoreGrantsTighten(gs1, gs2, action, server, database);
    }
    if Decide(gs2, action, server, database).Allow? {
      MoreGrantsTighten(gs2, gs1, action, server, database);
      LeqAntisymmetric(Decide(gs1, action, server, database).constraints,
          Decide(gs2, action, server, database).constraints);
    }
  }

  /** Write access implies read access, under constraints no looser in any field, so the
      read-level merge binds writes too. */
  lemma WriteNeverEscapesRead(gs: seq<Grant>, server: string, database: string)
    requires Decide(gs, QueryWrite, server, database).Allow?
    ensures Decide(gs, QueryRead, server, database).Allow?
    ensures Leq(Decide(gs, QueryRead, server, database).constraints,
            Decide(gs, QueryWrite, server, database).constraints)
  {
    DecideIsMeet(gs, QueryWrite, server, database);
    DecideIsMeet(gs, QueryRead, server, database);
    var g :| Applicable(g, gs, QueryWrite, server, database);
    assert Applicable(g, gs, QueryRead, server, database);
    var c := Decide(gs, QueryRead, server, database).constraints;
    forall g | Applicable(g, gs, QueryWrite, server, database) ensures Leq(c, g.constraints) {
      assert Applicable(g, gs, QueryRead, server, database);
    }
    assert LowerBound(c, gs, QueryWrite, server, database);
  }

  // ---------------------------------------------------------------- visibility

  ghost predicate Usable(gs: seq<Grant>, server: Server) {
    exists action, database :: database in server.databases && Decide(gs, action, server.name, database).Allow?
  }

  /** A server with at least one database is visible exactly when some action on some of
      its databases is allowed. */
  lemma VisibleIffUsable(identity: Identity, server: Server, yaml: seq<Permission>, db: seq<Grant>)
    requires server.databases != []
    ensures CanSeeServer(identity, server, yaml, db) <==> Usable(InScope(identity, yaml) + db, server)
  {
    var gs := InScope(identity, yaml) + db;
    if CanSeeServer(identity, server, yaml, db) {
      var g :| g in gs && GrantCanSee(g, server);
      assert GrantCanSee(g, server);
      var database := if g.database == "*" then server.databases[0] else g.database;
      DecideIsMeet(gs, g.action, server.name, database);
      assert Applicable(g, gs, g.action, server.name, database);
    }
    if Usable(gs, server) {
      var action, database :| database in server.databases && Decide(gs, action, server.name, database).Allow?;
      DecideIsMeet(gs, action, server.name, database);
      var g :| Applicable(g, gs, action, server.name, database);
      assert GrantCanSee(g, server);
    }
  }

  /** A server without databases shows up for any wildcard database grant although
      nothing on it can be used. */
  lemma EmptyServerVisible(identity: Identity, server: Server, yaml: seq<Permission>, db: seq<Grant>)
    requires server.databases == []
    ensures !Usable(InScope(identity, yaml) + db, server)
    ensures CanSeeServer(identity, server, yaml, db) <==>
              exists g :: g in InScope(identity, yaml) + db && (g.server == "*" || g.server == server.name)
                  && g.database == "*"
  {
    if CanSeeServer(identity, server, yaml, db) {
      var g :| g in InScope(identity, yaml) + db && GrantCanSee(g, server);
      assert GrantCanSee(g, server);
    }
    if g :| g in InScope(identity, yaml) + db && (g.server == "*" || g.server == server.name) && g.database == "*" {
      assert GrantCanSee(g, server);
    }
  }

  ghost predicate ShownIffUsable(server: Server) {
    forall identity, yaml, db :: CanSeeServer(identity, server, yaml, db) <==>
        Usable(InScope(identity, yaml) + db, server)
  }

  /** Visibility agrees with usability for every caller and every set of grants exactly
      when the server has a database. */
  lemma ShownIffUsableIff(server: Server)
    ensures ShownIffUsable(server) <==> server.databases != []
  {
    if server.databases != [] {
      forall identity, yaml, db
        ensures CanSeeServer(identity, server, yaml, db) <==> Usable(InScope(identity, yaml) + db, server)
      {
        VisibleIffUsable(identity, server, yaml, db);
      }
    } else {
      var nobody, wildcard := Identity("", []), Grant("*", "*", SchemaRead, UNCONSTRAINED);
      EmptyServerVisible(nobody, server, [], [wildcard]);
      assert wildcard in InScope(nobody, []) + [wildcard];
    }
  }
}
