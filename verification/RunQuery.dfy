/** The `run_query` gate (src/tools/run_query.rs) with the limits it hands to the adapter
    (src/exec/adapter.rs, src/tools/mod.rs). */
module RunQuery {
  import opened Common
  import opened Grants
  import opened GuardSoundness
  import opened Loader
  import opened SqlAst
  import opened SqlGuard
  import opened SqlEffects

  const DEFAULT_ROW_LIMIT: nat := 1_000
  const GATEWAY_ROW_LIMIT_CEILING: nat := 100_000
  const DEFAULT_STATEMENT_TIMEOUT_MS: nat := 30_000

  datatype Config = Config(servers: seq<Server>, permissions: seq<Permission>)

  /** `sql` is what the parser made of the text, `None` when it does not parse. */
  datatype Arguments = Arguments(server: string, database: string, sql: Option<seq<Statement>>, limit: Option<nat>,
      reason: Option<string>)

  datatype ExecQuery = ExecQuery(sql: Option<seq<Statement>>, statementTimeoutMs: Option<nat>, rowLimit: nat)

  /** `Execute` is the call to the adapter; everything else is an error code. */
  datatype Outcome =
    | Internal | Forbidden | ReasonRequired | ForbiddenSql(error: GuardError) | OpenFailed
    | Execute(server: Server, database: string, query: ExecQuery)

  function MinNat(a: nat, b: nat): nat { if a <= b then a else b }

  function UnwrapOr(o: Option<nat>, d: nat): nat { if o.Some? then o.value else d }

  function EffectiveRowLimit(caller: Option<nat>, grant: Option<nat>): nat {
    MinNat(UnwrapOr(caller, DEFAULT_ROW_LIMIT),
        MinNat(UnwrapOr(grant, GATEWAY_ROW_LIMIT_CEILING), GATEWAY_ROW_LIMIT_CEILING))
  }

  function EffectiveTimeoutMs(grant: Option<nat>): nat {
    MinNat(UnwrapOr(grant, DEFAULT_STATEMENT_TIMEOUT_MS), DEFAULT_STATEMENT_TIMEOUT_MS)
  }

  /** The first server of that name. */
  function FindServer(servers: seq<Server>, name: string): (r: Option<Server>)
    ensures r.Some? ==> r.value in servers && r.value.name == name
    ensures r.None? <==> forall s :: s in servers ==> s.name != name
  {
    if servers == [] then None
    else if servers[0].name == name then Some(servers[0])
    else FindServer(servers[1..], name)
  }

  /** Of several servers with one name the first is meant. */
  lemma {:induction false} FindServerIsFirst(servers: seq<Server>, name: string) returns (k: nat)
    requires exists s :: s in servers && s.name == name
    ensures k < |servers| && servers[k].name == name && FindServer(servers, name) == Some(servers[k])
    ensures forall i :: 0 <= i < k ==> servers[i].name != name
  {
    if servers[0].name == name {
      k := 0;
    } else {
      assert servers == [servers[0]] + servers[1..];
      var rest := FindServerIsFirst(servers[1..], name);
      k := rest + 1;
    }
  }

  function AccessFor(gs: seq<Grant>, server: string, database: string): Access {
    if Decide(gs, QueryWrite, server, database).Allow? then ReadWrite else ReadOnly
  }

  predicate ReasonMissing(reason: Option<string>) {
    reason.None? || reason.value == ""
  }

  /** The whole decision, over the grants in scope. `opens` says whether the adapter
      for the database can be opened. */
  function Gate(gs: seq<Grant>, servers: seq<Server>, args: Arguments, opens: bool): Outcome {
    match FindServer(servers, args.server)
    case None => Forbidden
    case Some(server) =>
      if args.database !in server.databases then Forbidden
      else
        match Decide(gs, QueryRead, server.name, args.database)
        case Deny => Forbidden
        case Allow(c) =>
          var verdict := Verdict(args.sql, AccessFor(gs, server.name, args.database));
          if c.requireReason && ReasonMissing(args.reason) then ReasonRequired
          else if server.kind.Postgres? && verdict.Some? then ForbiddenSql(verdict.value)
          else if !HasAdapter(server.kind) || !opens then OpenFailed
          else Execute(server, args.database,
              ExecQuery(args.sql, c.statementTimeoutMs, EffectiveRowLimit(args.limit, c.rowLimit)))
  }

  /** `run` and `compute_outcome`: load the grants, then the early-return pipeline. */
  method Run(identity: Identity, config: Config, loaded: Result<seq<Grant>, LoadError>, args: Arguments,
      opens: bool) returns (o: Outcome)
    ensures loaded.Err? ==> o == Internal
    ensures loaded.Ok? ==> o == Gate(InScope(identity, config.permissions) + loaded.value, config.servers, args, opens)
  {
    if loaded.Err? {
      return Internal;
    }
    var found := FindServer(config.servers, args.server);
    if found.None? || args.database !in found.value.databases {
      return Forbidden;
    }
    var server := found.value;
    var read := EvaluateEffective(identity, QueryRead, server.name, args.database, config.permissions, loaded.value);
    if read.Deny? {
      return Forbidden;
    }
    var write := EvaluateEffective(identity, QueryWrite, server.name, args.database, config.permissions, loaded.value);
    if read.constraints.requireReason && ReasonMissing(args.reason) {
      return ReasonRequired;
    }
    if server.kind.Postgres? {
      var verdict := CheckSql(args.sql, if write.Allow? then ReadWrite else ReadOnly);
      if verdict.Some? {
        return ForbiddenSql(verdict.value);
      }
    }
    if !HasAdapter(server.kind) || !opens {
      return OpenFailed;
    }
    o := Execute(server, args.database,
                 ExecQuery(args.sql, read.constraints.statementTimeoutMs,
                     EffectiveRowLimit(args.limit, read.constraints.rowLimit)));
  }

  // ---------------------------------------------------------------- what reaching the adapter means

  ghost predicate SomeGrant(gs: seq<Grant>, action: Grants.Action, server: string, database: string) {
    exists g :: Applicable(g, gs, action, server, database)
  }

  /** Write access exactly with an applicable query_write grant. */
  ghost function GrantedAccess(gs: seq<Grant>, args: Arguments): Access {
    if SomeGrant(gs, QueryWrite, args.server, args.database) then ReadWrite else ReadOnly
  }

  /** If an applicable grant demands a reason, there is one and it is not empty. */
  ghost predicate ReasonGiven(gs: seq<Grant>, args: Arguments, server: string, database: string) {
    (exists g :: Applicable(g, gs, QueryRead, server, database) && g.constraints.requireReason) ==>
        args.reason.Some? && args.reason.value != ""
  }

  /** `n` rows are allowed by the caller, the gateway and every applicable grant. */
  ghost predicate RowsAllowed(n: nat, gs: seq<Grant>, args: Arguments, server: string, database: string) {
    && n <= 100_000 && (match args.limit case Some(limit) => n <= limit case None => n <= 1_000)
    && forall g :: Applicable(g, gs, QueryRead, server, database) && g.constraints.rowLimit.Some? ==>
       n <= g.constraints.rowLimit.value
  }

  ghost predicate TimeAllowed(ms: nat, gs: seq<Grant>, server: string, database: string) {
    && ms <= 30_000
    && forall g :: Applicable(g, gs, QueryRead, server, database) && g.constraints.statementTimeoutMs.Some? ==>
         ms <= g.constraints.statementTimeoutMs.value
  }

  /** One merged field against one bound. */
  lemma MergedFields(gs: seq<Grant>, server: string, database: string, n: nat)
    requires Decide(gs, QueryRead, server, database).Allow?
    ensures var c := Decide(gs, QueryRead, server, database).constraints;
            && (c.requireReason <==>
                exists g :: Applicable(g, gs, QueryRead, server, database) && g.constraints.requireReason)
            && ((c.rowLimit.Some? ==> n <= c.rowLimit.value) <==>
                forall g :: Applicable(g, gs, QueryRead, server, database) && g.constraints.rowLimit.Some? ==>
                    n <= g.constraints.rowLimit.value)
            && ((c.statementTimeoutMs.Some? ==> n <= c.statementTimeoutMs.value) <==>
                forall g ::
                  Applicable(g, gs, QueryRead, server, database) && g.constraints.statementTimeoutMs.Some? ==>
                    n <= g.constraints.statementTimeoutMs.value)
  {
    var c := Decide(gs, QueryRead, server, database).constraints;
    // Constraints that pin one field and leave no room in the others.
    DecideBounds(gs, QueryRead, server, database, c);
    DecideBounds(gs, QueryRead, server, database, Constraints(false, Some(0), Some(0)));
    DecideBounds(gs, QueryRead, server, database, Constraints(true, Some(n), Some(0)));
    DecideBounds(gs, QueryRead, server, database, Constraints(true, Some(0), Some(n)));
    assert LowerBound(c, gs, QueryRead, server, database);
  }

  /** The gate calls the adapter exactly when: the database exists on a configured server
      with an adapter that opens, some applicable grant covers query_read, a non-empty
      reason is present if any applicable grant demands one, and on Postgres the guard
      accepts the SQL at the access level of the caller's write grants. The row limit and
      the effective timeout it passes are the largest that everyone allows. */
  lemma ExecutesIff(gs: seq<Grant>, servers: seq<Server>, args: Arguments, opens: bool)
    ensures var o, found := Gate(gs, servers, args, opens), FindServer(servers, args.server);
            && (o.Execute? <==>
                && found.Some? && args.database in found.value.databases && opens
                && (found.value.kind.Postgres? || found.value.kind.Mongo?)
                && SomeGrant(gs, QueryRead, args.server, args.database)
                && ReasonGiven(gs, args, args.server, args.database)
                && (found.value.kind.Postgres? ==>
                    Verdict(args.sql, GrantedAccess(gs, args)).None?))
            && (o.Execute? ==>
                && o.server == found.value && o.database == args.database && o.query.sql == args.sql
                && (forall n: nat :: n <= o.query.rowLimit <==> RowsAllowed(n, gs, args, args.server, args.database))
                && (forall ms: nat :: ms <= EffectiveTimeoutMs(o.query.statementTimeoutMs) <==>
                   TimeAllowed(ms, gs, args.server, args.database)))
  {
    var d := Decide(gs, QueryRead, args.server, args.database);
    DecideIsMeet(gs, QueryRead, args.server, args.database);
    DecideIsMeet(gs, QueryWrite, args.server, args.database);
    if d.Allow? {
      MergedFields(gs, args.server, args.database, 0);
      Limits(gs, args);
    }
  }

  /** Which refusal it is, and that the checks speak in this order. */
  lemma RefusesIff(gs: seq<Grant>, servers: seq<Server>, args: Arguments, opens: bool)
    ensures var o, found := Gate(gs, servers, args, opens), FindServer(servers, args.server);
            var allowed := found.Some? && args.database in found.value.databases
                && SomeGrant(gs, QueryRead, args.server, args.database);
            var reason := ReasonGiven(gs, args, args.server, args.database);
            var access := GrantedAccess(gs, args);
            && (o == Forbidden <==> !allowed)
            && (o == ReasonRequired <==> allowed && !reason)
            && (forall e :: o == ForbiddenSql(e) <==>
                  allowed && reason && found.value.kind.Postgres? && Verdict(args.sql, access) == Some(e))
            && (o == OpenFailed <==>
                && allowed && reason && (found.value.kind.Postgres? ==> Verdict(args.sql, access).None?)
                && !((found.value.kind.Postgres? || found.value.kind.Mongo?) && opens))
            && o != Internal
  {
    DecideIsMeet(gs, QueryRead, args.server, args.database);
    DecideIsMeet(gs, QueryWrite, args.server, args.database);
    if Decide(gs, QueryRead, args.server, args.database).Allow? {
      MergedFields(gs, args.server, args.database, 0);
    }
  }

  lemma Limits(gs: seq<Grant>, args: Arguments)
    requires Decide(gs, QueryRead, args.server, args.database).Allow?
    ensures var c := Decide(gs, QueryRead, args.server, args.database).constraints;
            && (forall n: nat :: n <= EffectiveRowLimit(args.limit, c.rowLimit) <==>
               RowsAllowed(n, gs, args, args.server, args.database))
            && (forall ms: nat :: ms <= EffectiveTimeoutMs(c.statementTimeoutMs) <==>
               TimeAllowed(ms, gs, args.server, args.database))
  {
    var c := Decide(gs, QueryRead, args.server, args.database).constraints;
    forall n: nat
      ensures n <= EffectiveRowLimit(args.limit, c.rowLimit) <==> RowsAllowed(n, gs, args, args.server, args.database)
      ensures n <= EffectiveTimeoutMs(c.statementTimeoutMs) <==> TimeAllowed(n, gs, args.server, args.database)
    {
      MergedFields(gs, args.server, args.database, n);
    }
  }

  /** End to end on Postgres: no run of a query that reached the adapter changes the
      catalog, holds a lock or touches a file, and if it changes anything at all, an
      applicable grant covers query_write. */
  lemma DataChangesNeedWriteGrant(gs: seq<Grant>, servers: seq<Server>, args: Arguments, opens: bool, x: Exec, w: World)
    requires Gate(gs, servers, args, opens).Execute? && Gate(gs, servers, args, opens).server.kind.Postgres?
    requires args.sql.Some? && |args.sql.value| == 1 ==> x.node == S(args.sql.value[0])
    requires Possible(x)
    ensures args.sql.Some? && |args.sql.value| == 1
    ensures OnlyTargetRows(args.sql.value[0], w, SqlEffects.Run(x, w))
    ensures SqlEffects.Run(x, w) != w ==> SomeGrant(gs, QueryWrite, args.server, args.database)
  {
    ExecutesIff(gs, servers, args, opens);
    var access := GrantedAccess(gs, args);
    AcceptedIff(args.sql, access);
    AcceptedRunsAreBounded(args.sql, access, x, w);
    if access == ReadOnly {
      ReadOnlyIsSafe(args.sql, x, w);
    }
  }
}
