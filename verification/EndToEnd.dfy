/** A `run_query` request from its grant lookup to the adapter call: the gate
    (src/tools/run_query.rs) over the cache protocol (src/authz/cache.rs). */
module EndToEnd {
  import opened Common
  import opened Grants
  import opened Loader
  import Cache = PermissionsCache
  import RunQuery

  type Tid = Cache.Tid

  /** Invalidation `i` covers the user of call `t` and had returned when the call began. */
  ghost predicate FinishedBefore(s: Cache.State, i: Tid, t: Tid) {
    && t in s.calls && i in s.invs && s.invs[i].phase.Removed?
    && s.invs[i].scope.Covers(s.calls[t].sub) && s.invs[i].doneAt < s.calls[t].startedAt
  }

  /** What a finished call hands to the tool. */
  function Loaded(c: Cache.Call): (r: Result<seq<Grant>, LoadError>)
    requires c.phase.Returned? || c.phase.Failed?
  {
    if c.phase.Returned? then Ok(c.phase.grants) else Err(c.phase.error)
  }

  /** A request answered with the outcome of its own cache call. It reaches the adapter only
      if the call returned and a grant in scope allows query_read, and then every store read
      behind its grants follows the revision bump of every covering invalidation that had
      returned when the request began. */
  method Answer(s: Cache.State, t: Tid, identity: Identity, config: RunQuery.Config, args: RunQuery.Arguments,
      opens: bool)
    returns (o: RunQuery.Outcome)
    requires Cache.Reachable(s) && t in s.calls && s.calls[t].sub == identity.userSub
    requires s.calls[t].phase.Returned? || s.calls[t].phase.Failed?
    ensures s.calls[t].phase.Failed? <==> o == RunQuery.Internal
    ensures o.Execute? ==>
              && s.calls[t].phase.Returned?
              && RunQuery.SomeGrant(InScope(identity, config.permissions) + s.calls[t].phase.grants, QueryRead,
                 args.server, args.database)
              && forall i :: FinishedBefore(s, i, t) ==> Cache.After(s.calls[t].readAt, s.invs[i].bumpedAt)
  {
    o := RunQuery.Run(identity, config, Loaded(s.calls[t]), args, opens);
    if s.calls[t].phase.Returned? {
      ghost var gs := InScope(identity, config.permissions) + s.calls[t].phase.grants;
      RunQuery.ExecutesIff(gs, config.servers, args, opens);
      RunQuery.RefusesIff(gs, config.servers, args, opens);
      forall i | FinishedBefore(s, i, t) ensures Cache.After(s.calls[t].readAt, s.invs[i].bumpedAt) {
        Cache.ReadsFollowInvalidation(s, t, i);
      }
    }
  }

  /** If no covering write is pending at the instant the lookup returns, the request is
      decided exactly as the policy stored at that instant decides it; in particular it is
      refused when that policy has no applicable grant, whatever was cached before. */
  lemma DecidedOnCurrentPolicy(s: Cache.State, t: Tid, dt: nat, identity: Identity, config: RunQuery.Config,
                               args: RunQuery.Arguments, opens: bool)
    requires Cache.Reachable(s) && Cache.Step(s, Cache.Advance(t), dt).Some?
    requires var s' := Cache.Step(s, Cache.Advance(t), dt).value;
             && s'.calls[t].phase.Returned? && s'.calls[t].sub == identity.userSub
             && !Cache.Pending(s'.invs, identity.userSub)
    ensures var s' := Cache.Step(s, Cache.Advance(t), dt).value;
            var stored := Projection(s'.db, identity.userSub);
            && stored.Ok?
            && var current := InScope(identity, config.permissions) + stored.value;
               var o := RunQuery.Gate(InScope(identity, config.permissions) + s'.calls[t].phase.grants, config.servers,
                   args, opens);
               && o == RunQuery.Gate(current, config.servers, args, opens)
               && (!RunQuery.SomeGrant(current, QueryRead, args.server, args.database) ==> o == RunQuery.Forbidden)
  {
    Cache.ReturnIsCurrentOrPending(s, t, dt);
    var s' := Cache.Step(s, Cache.Advance(t), dt).value;
    var current := InScope(identity, config.permissions) + Projection(s'.db, identity.userSub).value;
    RunQuery.RefusesIff(current, config.servers, args, opens);
  }
}
