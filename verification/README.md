# db-mcp-gateway: verified models

Dafny models of the state protocols and the decision core of a gateway that runs agents' database
queries under a grant policy, with machine-checked proofs about them. `dafny verify dfyconfig.toml`
checks everything.

| module | models | form |
|---|---|---|
| `Grants` | grants, constraints, the most-restrictive merge, `evaluate_effective`, server visibility | functions, one loop |
| `Loader` | the permissions tables and the loader that projects them | functions, one loop |
| `PermissionsCache` | `get_for`, `invalidate`, `invalidate_all` and admin commits, interleaved | step machine |
| `CacheSolo` | one call when nobody else steps: what it returns and leaves behind | lemmas |
| `CacheAge` | the same with writes nobody announces, where only the TTL helps | step machine |
| `SqlAst` | the syntax tree the guard inspects and the generic pre-order walk | datatypes, functions |
| `SqlParts` | what stands in a statement, field by field, without the walk: the reference for guard and effects | predicates |
| `SqlGuard` | `check_sql` and the stateful `GuardVisitor` | loop, class, functions |
| `SqlEffects` | what running a statement can do, over its parts and without the guard | execution trees |
| `GuardSoundness` | the guard against those effects | lemmas |
| `RunQuery` | the `run_query` pipeline from grants to the adapter call | method with early returns |
| `EndToEnd` | a request from its grant lookup in the cache protocol to the adapter call | method, lemma |
| `SessionStore` | the session store and its bounded cache on one replica | classes |
| `SessionReplicas` | many replicas with their caches over one database, interleaved | step machine |
| `Limiter` | the global and per-identity permit pools and the sweep, interleaved | step machine |
| `ClientRegistry` | the memory and database backends of dynamic client registration | classes |
| `AdapterRegistry` | the lazy single-flight adapter slots, interleaved | step machine |
| `LoadDriver` | the benchmark's shared-counter workers, sample merge and round robin | step machine, methods |

A step machine gives one function from a state and an action to the next state, or to nothing when
the action has to wait. A run is any list of actions that are all possible, so a statement about
reachable states speaks about every interleaving. Each `.await`, lock acquisition, atomic access and
database statement is a step of its own.

## Where the code and its documentation disagree

- `src/auth/session_cache.rs:14-16` says a single-replica deployment observes a revocation on the
  very next request. The code re-inserts a row that a lookup read before the logout, so later
  requests can still be granted (`SessionReplicas.LogoutCanBeMissed`). The exact
  condition is `SessionReplicas.RevocationObservedIffQuiet`. For the same reason the bound across replicas
  is the cache window plus the longest time from a row read to its cache insert, not the window alone
  (`SessionReplicas.GrantedIsRecentAndUnexpired`), and that bound is reached (`SessionReplicas.BoundIsTight`).
- `src/transport/limit.rs:89-90` promises `None` when one identity is at its cap. A sweep that falls
  between a request's clone of the semaphore handle and its acquire splits the identity's pool in two.
  The cap is guaranteed in every run exactly when it is zero or no smaller than the global cap
  (`Limiter.IdentityCapGuaranteedIff`), and in every run an identity exceeds it at
  most by the requests so stranded (`Limiter.IdentityCapPlusStranded`).
- `src/authz/mod.rs:42-45` says a user never learns of a server without a usable grant. A server
  without databases shows up for any `*` database grant. Visibility agrees with usability for all
  callers exactly when the server has a database (`Grants.ShownIffUsableIff`).
- `src/authz/cache.rs:7-12` wants every write announced. Creating a user announces nobody; this is
  safe because a new user row has no grants yet (`PermissionsCache.CommitFrame`).
- `benchmarks/harness/scaling.rs:133-136` says the load is spread evenly. It is once a phase is over
  (`LoadDriver.LoadIsEven`). While it runs, a worker that has claimed an iteration and not yet sent it
  can leave an instance two requests behind; the counts stay within one of each other at every moment
  exactly for one worker, one instance or no more requests than instances (`LoadDriver.AlwaysEvenIff`).
- A comment at `src/transport/client_registry.rs:201` still calls the client lifetime 24 hours; the
  constant, which the model uses, is 90 days.

## Model

| member | source | states |
|---|---|---|
| `Grants.EvaluateEffective` | src/authz/effective.rs:34-65 | Allow exactly when some in-scope grant names the server and database (or `*`) and its action covers the request in the documented hierarchy; the constraints are the greatest lower bound of all such grants |
| `Grants.AppliesIffPermits` | src/config/schema.rs:171-183 | the code's match applies a grant exactly as the hierarchy says: schema_read by three actions, query_read by two, query_write and history_read by themselves |
| `Grants.InScope` | src/authz/effective.rs:42-46 | exactly the YAML grants of permissions whose group the identity has |
| `Grants.MergeIsMeet` | src/authz/mod.rs:97-111 | a constraint set is below the merge of two exactly when it is below both |
| `Grants.DecideBounds` | src/authz/effective.rs:52-65 | the lower bounds of the applicable grants are exactly the constraints at or below the result |
| `Grants.DecideIsMeet` | src/authz/effective.rs:34-65 | the decision over any grant list is Allow iff a grant applies, with the greatest lower bound |
| `Grants.MoreGrantsTighten` | src/authz/effective.rs:29-33 | adding grants never revokes an Allow and only tightens its constraints |
| `Grants.SameGrantsSameDecision` | src/authz/effective.rs:29-33 | order, repetition and source (YAML or database) of the in-scope grants do not matter |
| `Grants.WriteNeverEscapesRead` | src/tools/run_query.rs:139-176 | query_write allowed implies query_read allowed, under constraints no looser in any field |
| `Grants.VisibleIffUsable` | src/authz/effective.rs:17-27 | a server with a database is visible iff some action on some of its databases is allowed |
| `Grants.EmptyServerVisible` | src/authz/mod.rs:75-81 | a server without databases is never usable, and visible iff a matching grant names database `*` |
| `Grants.ShownIffUsableIff` | src/authz/mod.rs:42-57 | visibility equals usability for all identities and grants iff the server has a database |
| `Loader.Kept` | src/authz/loader.rs:54-66 | only stored rows whose target still resolves |
| `Loader.KeptExact` | src/authz/loader.rs:54-66 | exactly the rows with a live target are kept, in stored order |
| `Loader.ProjectExact` | src/authz/loader.rs:35-82 | a load succeeds iff every kept row decodes, and returns what each stands for, field by field, in order |
| `Loader.ErrorIsFirst` | src/authz/loader.rs:67-73 | a failed load names the first row with a live target that does not decode |
| `Loader.ErrorSticks` | src/authz/loader.rs:67-73 | the first malformed row decides the error, whatever follows |
| `Loader.ResolveRows` | src/authz/loader.rs:53-81 | the loop computes that projection |
| `PermissionsCache.CachedIsCurrentOrPending` | src/authz/cache.rs:74-127 | in every interleaving a cached entry equals a load of the current store, or a committed covering write has yet to run its remove step |
| `PermissionsCache.ReturnIsCurrentOrPending` | src/authz/cache.rs:74-107 | the same of the grants a call returns, at the instant it returns |
| `PermissionsCache.ReturnsFrom` | src/authz/cache.rs:74-107 | a call returns an entry within its TTL or what it has just re-validated under the lock, nothing else |
| `PermissionsCache.ReadsFollowInvalidation` | src/authz/cache.rs:74-127 | a call begun after a covering invalidation finished returns grants all of whose reads follow that invalidation's bump |
| `PermissionsCache.WorkBoundedByBumps` | src/authz/cache.rs:83-106 | a call makes at most one load more than the revision bumps since it began, and at most 10 + 7 per bump steps |
| `PermissionsCache.SomeoneCanStep` | src/authz/cache.rs:74-127 | no deadlock: an unfinished call or invalidation can step or the lock holder it waits for can |
| `PermissionsCache.FailureCachesNothing` | src/authz/cache.rs:84-85 | a failed load or dropped call changes neither the cache nor the revision |
| `PermissionsCache.FailsOnlyOnBadRow` | src/authz/loader.rs:39-73 | apart from a store that does not answer, a call fails only on a malformed row with a live target, with the loader's error |
| `PermissionsCache.OvertakenLoadsRetry` | src/authz/cache.rs:86-106 | a load overtaken by a bump starts over, caches nothing and gives the lock back |
| `PermissionsCache.AnnouncedExactly` | src/authz/cache.rs:129-164 | whom each kind of admin write tells: its user, everyone, or nobody |
| `PermissionsCache.CommitTakesEffect` | src/authz/loader.rs:35-51 | what each kind of admin write makes of a user's grants |
| `PermissionsCache.ReadersShare` | src/authz/cache.rs:76 | only a writer keeps a reader waiting |
| `PermissionsCache.RemovalIsExact` | src/authz/cache.rs:113-127 | an invalidation drops exactly the entries it covers |
| `CacheSolo.SoloEnds` | src/authz/cache.rs:74-107 | a call that runs alone with nothing pending ends in at most ten steps with the store's grants, or with the loader's error exactly when the rows do not decode; it loads only without an entry within the TTL and leaves its result cached |
| `CacheSolo.NewCallEnds` | src/authz/cache.rs:74-107 | the same from the call's first moment |
| `CacheAge.ReturnsAreYoung` | src/authz/cache.rs:7-12 | even when writes go unannounced, a call returns grants whose reads are younger than the TTL plus the longest load |
| `CacheAge.StepAge` | src/authz/cache.rs:74-127 | every step, bypassing writes included, keeps each entry within one load of its reads |
| `PermissionsCache.CommitFrame` | src/authz/cache.rs:129-164 | a commit that does not announce a user leaves that user's projection and everything read so far for them valid |
| `PermissionsCache.AdminKeeps` | src/authz/cache.rs:129-164 | a commit of any kind, announced as the handlers do, keeps the whole invariant |
| `PermissionsCache.InvalidateKeeps` | src/authz/cache.rs:113-127 | bump, lock and remove each keep the invariant |
| `PermissionsCache.InvalidateFresh` | src/authz/cache.rs:113-127 | the bump hands responsibility from the write to the revision, the removal discharges it |
| `PermissionsCache.AdvanceLock` | src/authz/cache.rs:76-92 | readers and writer exclude each other and match the calls that hold them |
| `PermissionsCache.AdvanceFresh` | src/authz/cache.rs:83-104 | a call that no bump has overtaken holds current data or a covering write has not bumped yet |
| `PermissionsCache.AdvanceEntry` | src/authz/cache.rs:95-103 | an insert keeps every entry current or pending |
| `PermissionsCache.AdvanceLoadWork` | src/authz/cache.rs:86-106 | going round the loop is paid for by a bump |
| `PermissionsCache.AdvancePair` | src/authz/cache.rs:74-117 | opening a load after a bump orders its reads after that bump, on both paths |
| `PermissionsCache.AdvanceKeeps` | src/authz/cache.rs:74-107 | every step of a call keeps the invariant |
| `PermissionsCache.CallEdgeKeeps` | src/authz/cache.rs:85 | starting, failing and dropping a call keep the invariant |
| `PermissionsCache.StepKeeps` | src/authz/cache.rs:74-164 | every step of anyone keeps the invariant |
| `PermissionsCache.RunKeeps` | src/authz/cache.rs:74-164 | hence every run does |
| `SqlGuard.FindDenied` | src/exec/sql_guard.rs:340-346 | a name is found iff a denylist entry equals it ignoring ASCII case, and the answer is such an entry |
| `SqlParts.PartsAreChildren` | src/exec/sql_guard.rs:227-242 | the walk goes to every expression, query, table factor, body and statement that stands in a node, and to nothing else |
| `SqlGuard.EqIffSpelled` | src/exec/sql_guard.rs:340-343 | ignoring ASCII case is comparing letters up to case |
| `SqlGuard.DenylistIsComplete` | src/exec/sql_guard.rs:91-98 | the denylist is exactly the six functions that reach files |
| `SqlGuard.AnalyzesIff` | src/exec/sql_guard.rs:219-225 | the option check finds exactly the wrappers that execute |
| `SqlGuard.DeniedIffRefused` | src/exec/sql_guard.rs:330-347 | the name check refuses exactly the denied and the computed names |
| `SqlGuard.GuardVisitor.constructor` | src/exec/sql_guard.rs:247-251 | no statement seen yet |
| `SqlGuard.GuardVisitor.Visit` | src/exec/sql_guard.rs:253-311 | the walker with its flag and early break returns the first offence of the pre-order and leaves the flag as the nodes up to that offence, or all of them, set it |
| `SqlGuard.ScanAppend` | src/exec/sql_guard.rs:256-271 | scanning two parts one after the other with the flag carried across is scanning the whole |
| `SqlGuard.CheckSql` | src/exec/sql_guard.rs:109-146 | the peeling loop, shape check and walk compute the verdict on the innermost statement |
| `SqlGuard.Coverage` | src/exec/sql_guard.rs:273-325 | callbacks plus the body check at each query cover every SELECT, although the body check recurses only through set operations |
| `SqlGuard.QuietWalk` | src/exec/sql_guard.rs:253-311 | no callback objects anywhere below a node iff none objects along its walk |
| `SqlGuard.TopScan` | src/exec/sql_guard.rs:142-145 | the walk of a top statement is silent iff everything below it is clean |
| `SqlGuard.ShapeIff` | src/exec/sql_guard.rs:152-207 | the shape check passes exactly queries, `EXPLAIN table` and, with write access, data writes with a known ON clause |
| `SqlGuard.AcceptedIff` | src/exec/sql_guard.rs:109-347 | acceptance iff one statement, no executing wrapper, admitted shape, and no nested statement, lock, INTO, denied or computed name occurs anywhere below, occurrence being defined without the walk |
| `SqlGuard.LocksComeFirst` | src/exec/sql_guard.rs:273-287 | a query with a lock is refused for the lock |
| `SqlGuard.WriteAccessAdds` | src/exec/sql_guard.rs:159-172 | read access accepts exactly what write access accepts minus top-level data writes, bare or under EXPLAIN |
| `SqlGuard.RefusalIsJustified` | src/exec/sql_guard.rs:109-347 | every refusal names the first check that fails: the statement family or ON clause for the shape, and from the walk something that really stands below the top statement |
| `GuardSoundness.CleanRunsAreSilent` | src/exec/sql_guard.rs:227-242 | any run of a clean subtree, children in any order any number of times, leaves the world unchanged |
| `GuardSoundness.TopEvents` | src/exec/sql_guard.rs:148-172 | a statement with clean children touches only its own targets' rows, and nothing unless it is a data write |
| `GuardSoundness.ExplainRunsNothing` | src/exec/sql_guard.rs:209-225 | EXPLAIN without ANALYZE executes nothing |
| `GuardSoundness.AcceptedRunsAreBounded` | src/exec/sql_guard.rs:109-347 | no run of an accepted statement changes the catalog, holds a lock or touches files; rows change only in the top-level target; all below the top is silent |
| `GuardSoundness.ReadOnlyIsSafe` | src/exec/sql_guard.rs:100-146 | no run of a statement accepted read-only changes anything, a run being free to execute every part that stands in it |
| `GuardSoundness.ForbiddenPartsAct` | src/exec/sql_guard.rs:227-242 | in the semantics every lock clause, INTO and denied or computed call has an effect that changes any world |
| `GuardSoundness.AcceptedWriteHappens` | src/exec/sql_guard.rs:159-170 | a bare INSERT is accepted with write access only, and some run stores any given rows in its target |
| `RunQuery.FindServer` | src/tools/run_query.rs:261-269 | a configured server of that name, or none exactly when there is none |
| `RunQuery.FindServerIsFirst` | src/tools/run_query.rs:266 | of several servers of one name the first is meant |
| `RunQuery.Run` | src/tools/run_query.rs:126-259 | a failed grant load is an internal error; otherwise the pipeline decides as the gate does on the grants in scope |
| `RunQuery.MergedFields` | src/tools/run_query.rs:139-156 | each merged field binds exactly as all applicable grants together do |
| `RunQuery.Limits` | src/tools/run_query.rs:277-282 | row limit and effective timeout are the largest values that caller, gateway and every applicable grant allow |
| `RunQuery.ExecutesIff` | src/tools/run_query.rs:126-240 | the adapter is called iff server and database exist on Postgres or Mongo, it opens, a read grant applies, a demanded reason is present and not empty, and the guard accepts at the caller's access; with the largest limits within 1000 or the caller's, 100000, 30000 and every applicable grant |
| `RunQuery.RefusesIff` | src/tools/run_query.rs:135-232 | which refusal is given: forbidden, reason required, forbidden SQL and a failed open each exactly when, in that order of precedence |
| `EndToEnd.Answer` | src/tools/run_query.rs:87-113 | a request reaches the adapter only if its lookup returned and a grant in scope applies, and then every store read behind its grants follows the bump of every covering invalidation finished before the request; a failed lookup is exactly the internal error |
| `EndToEnd.DecidedOnCurrentPolicy` | src/tools/run_query.rs:87-156 | with no covering write pending when the lookup returns, the outcome is that of the policy stored at that instant, so a revoked caller is refused |
| `RunQuery.DataChangesNeedWriteGrant` | src/tools/run_query.rs:158-204 | on Postgres a query that reached the adapter changes something only if a query_write grant applies, and then only rows of its top-level target |
| `SessionStore.SessionCache.constructor` | src/auth/session_cache.rs:77-85 | empty, with a capacity of at least one |
| `SessionStore.SessionCache.Lookup` | src/auth/session_cache.rs:90-99 | a hit exactly when the entry is fresh by the monotonic clock and active by the wall clock |
| `SessionStore.Oldest` | src/auth/session_cache.rs:134-138 | the scan finds an entry of least `cached_at` |
| `SessionStore.SessionCache.EvictOne` | src/auth/session_cache.rs:128-145 | drops exactly the stale entries, or if there are none exactly one of least `cached_at`; a non-empty map shrinks |
| `SessionStore.SessionCache.Insert` | src/auth/session_cache.rs:102-112 | the entry is in, the capacity holds, evictions happen only for a new id in a full cache |
| `SessionStore.SessionCache.Remove` | src/auth/session_cache.rs:115-117 | the entry is gone, the rest unchanged |
| `SessionStore.RevocationIsFinal` | src/auth/session.rs:239-246 | a stamped revocation never changes in any sequence of operations |
| `SessionStore.SessionStore.constructor` | src/auth/session.rs:145-150 | empty and valid |
| `SessionStore.SessionStore.Create` | src/auth/session.rs:159-202 | the row is stored, cached and counted, or nothing changes when the database fails |
| `SessionStore.SessionStore.Lookup` | src/auth/session.rs:207-236 | a usable entry answers without the database; otherwise the row decides, or the database error, and the entry is refreshed or dropped accordingly |
| `SessionStore.DbLookupExact` | src/auth/session.rs:104-117 | which sessions are accepted, why others are not, and the identity's fields |
| `SessionStore.DbRevokeExact` | src/auth/session.rs:240-245 | a logout stamps one row, once, and touches no other |
| `SessionStore.NewSessionExact` | src/auth/session.rs:168-193 | the fields of a new session, with the first login time and the eight-hour fallback |
| `SessionStore.SessionStore.Revoke` | src/auth/session.rs:239-253 | idempotent; row stamped once, entry gone, gauge equal to the number of unrevoked rows |
| `SessionStore.Perform` | src/auth/session.rs:159-253 | one operation answers and changes the table as the cacheless reference does |
| `SessionStore.Replay` | src/auth/session.rs:159-253 | every sequential run answers, operation by operation, like the cacheless reference, whatever the clocks and evictions |
| `SessionReplicas.GrantedIsRecentAndUnexpired` | src/auth/session.rs:207-236 | over any number of replicas no lookup succeeds later than revocation + cache window + longest read-to-insert gap, and none past the expiry by its sampled clock |
| `SessionReplicas.BoundIsTight` | src/auth/session_cache.rs:90-112 | for every window and gap some run grants a lookup at the last instant the bound allows |
| `SessionReplicas.RevokedAtIsFinal` | src/auth/session.rs:239-246 | a stamped revocation survives every continuation |
| `SessionReplicas.QuietForever` | src/auth/session.rs:207-253 | once nothing on a replica remembers the row, no later request there is granted, ever |
| `SessionReplicas.NoisyGrants` | src/auth/session.rs:207-236 | otherwise some continuation grants a later request |
| `SessionReplicas.RevocationObservedIffQuiet` | src/auth/session_cache.rs:10-17 | later requests are refused for good iff the replica has no live entry and no call between its row read and its cache insert |
| `SessionReplicas.LogoutCanBeMissed` | src/auth/session_cache.rs:14-16 | on one replica, a request begun after a completed logout can be granted |
| `SessionReplicas.LogoutQuiets` | src/auth/session.rs:239-246 | a logout's last step evicts the entry and leaves its replica quiet unless a call is in flight there |
| `SessionReplicas.LogoutIsObserved` | src/auth/session_cache.rs:14-16 | after such a logout no later request on that replica is granted, in any continuation |
| `SessionReplicas.HitIff` | src/auth/session_cache.rs:90-99 | a lookup is answered from the cache exactly by a live, unrevoked, unexpired entry |
| `SessionReplicas.MissIsDecidedByDb` | src/auth/session.rs:217-235 | a miss is granted iff the stored row is unrevoked and unexpired, refused for the right reason otherwise, and the entry follows |
| `SessionReplicas.LookupAnswers` | src/auth/session.rs:207-236 | a whole lookup, running alone |
| `SessionReplicas.CreateStores` | src/auth/session.rs:172-197 | a creation, running alone, stores and caches the row |
| `SessionReplicas.LogoutStamps` | src/auth/session.rs:239-246 | a logout, running alone, stamps the row once, evicts and leaves other rows alone |
| `SessionReplicas.StepLater` | src/auth/session.rs:207-253 | time only grows, rows are only added or revoked |
| `SessionReplicas.StepKeeps` | src/auth/session.rs:159-253 | every step keeps the invariant on rows, calls and cache entries |
| `Limiter.GlobalAndMapCaps` | src/transport/limit.rs:86-107 | in every interleaving global permits stay within the cap and the map within the larger of its ceiling and the cap |
| `Limiter.PoolCap` | src/transport/limit.rs:121-147 | no pool exceeds its limit; each permit is held by a request of the pool's identity that also holds a global permit |
| `Limiter.TurnedAwayIff` | src/transport/limit.rs:121-147 | 503 exactly when every global permit is out, 429 exactly when every permit of the semaphore is; otherwise the permit is taken |
| `Limiter.SweepsIff` | src/transport/limit.rs:97-102 | a sweep exactly for an unknown identity at a full map |
| `Limiter.FinishedHoldsNothing` | src/transport/limit.rs:126-152 | a finished request holds no permit and no lock |
| `Limiter.SomeoneCanStep` | src/transport/limit.rs:92-153 | no deadlock: an unfinished request or the mutex holder can step |
| `Limiter.SweepDropsIdleOnly` | src/transport/limit.rs:98-101 | the sweep never drops a semaphore with a permit out |
| `Limiter.InUseBound` | src/transport/limit.rs:121-133 | the semaphores in use are fewer than the global cap while a request waits |
| `Limiter.KeptFit` | src/transport/limit.rs:97-102 | what a finished sweep keeps fits under the global cap |
| `Limiter.IdentityCapPlusStranded` | src/transport/limit.rs:92-107 | an identity exceeds its cap at most by its in-flight requests that a sweep stranded between clone and acquire; without any it stays within it |
| `Limiter.IdentityCapByGlobal` | src/transport/limit.rs:121-147 | one identity never exceeds the global cap, and a zero cap admits nobody |
| `Limiter.ExceedCap` | src/transport/limit.rs:92-107 | for every configuration with a positive cap below the global one, a run that exceeds it |
| `Limiter.IdentityCapGuaranteedIff` | src/transport/limit.rs:89-107 | the cap holds in all runs iff it is zero or at least the global cap |
| `Limiter.StepKeeps` | src/transport/limit.rs:86-153 | every step keeps the invariant |
| `ClientRegistry.MemoryRegistry.Collect` | src/transport/client_registry.rs:238-241 | exactly the lapsed registrations go |
| `ClientRegistry.MemoryRegistry.Insert` | src/transport/client_registry.rs:127-141 | refused exactly for a new client at the cap after collection; otherwise stored with a full lifetime |
| `ClientRegistry.MemoryRegistry.RedirectUris` | src/transport/client_registry.rs:160-166 | the URIs of a live client, whose lifetime slides |
| `ClientRegistry.DbRegistry.Insert` | src/transport/client_registry.rs:175-219 | as in memory; whichever statement fails, no success is reported and no live row is lost |
| `ClientRegistry.DbRegistry.RedirectUris` | src/transport/client_registry.rs:223-236 | as in memory; an unreachable database reads as an unknown client |
| `ClientRegistry.StepAgrees` | src/transport/client_registry.rs:117-236 | backends with the same live clients still have the same live clients after any operation |
| `ClientRegistry.SameLive` | src/transport/client_registry.rs:117-236 | after every trace both hold the same live clients |
| `ClientRegistry.BackendsAgree` | src/transport/client_registry.rs:117-236 | both backends answer every sequential trace alike |
| `ClientRegistry.WithinCap` | src/transport/client_registry.rs:41-48 | neither table ever exceeds the cap, lapsed rows included |
| `ClientRegistry.LiveClientsSurvive` | src/transport/client_registry.rs:105-110 | no operation removes a live client, and only its own re-registration changes its URIs |
| `ClientRegistry.LiveExact` | src/transport/client_registry.rs:238-241 | live means registered and not past its expiry |
| `ClientRegistry.RegistrationTakes` | src/transport/client_registry.rs:105-141 | refused exactly for a new client at ten thousand live ones; otherwise its URIs come back from authorize for 90 days and not after, on both backends |
| `ClientRegistry.AuthorizeSlides` | src/transport/client_registry.rs:144-166 | a hit answers the registered URIs and lasts another 90 days, on both backends |
| `AdapterRegistry.OneSlotOneAdapter` | src/exec/mod.rs:101-111 | each key has at most one slot and each slot at most one adapter, ever |
| `AdapterRegistry.SameAdapter` | src/exec/mod.rs:113-128 | all successful callers of a key hold the same adapter |
| `AdapterRegistry.OtherKeyOtherAdapter` | src/exec/mod.rs:95-111 | callers of different keys never share an adapter |
| `AdapterRegistry.OutcomesHaveCauses` | src/exec/mod.rs:118-127 | a call fails only when its own open does, and an open succeeds only for Postgres or Mongo |
| `AdapterRegistry.FullSlotAnswers` | src/exec/mod.rs:113-127 | a caller that finds its slot full gets that adapter at once |
| `AdapterRegistry.SingleFlight` | src/exec/mod.rs:87-89 | at most one open per key is in progress, and the opener holds no lock |
| `AdapterRegistry.OthersProceed` | src/exec/mod.rs:87-89 | a hanging open delays only callers of its own key |
| `AdapterRegistry.FailureIsRetryable` | src/exec/mod.rs:118-127 | a failed or abandoned open leaves the key's slot in place and empty, and every waiting caller can take over at once |
| `AdapterRegistry.LateCallerRetries` | src/exec/mod.rs:101-127 | a caller that arrives at an empty slot later opens it |
| `AdapterRegistry.StepKeeps` | src/exec/mod.rs:90-128 | every step keeps the invariant; slots never move and full cells never change |
| `LoadDriver.EveryIterationOnce` | benchmarks/harness/driver.rs:98-137 | once all workers stop, each iteration of the range was handed to the path exactly once and no other was, in order for a single worker, and successes plus errors make up the total |
| `LoadDriver.RunHistory` | benchmarks/harness/driver.rs:123-134 | in every run the log is the path's successful answers in stamping order, and each worker's errors and first error are the failed answers it got |
| `LoadDriver.NoLatencyLost` | benchmarks/harness/driver.rs:123-137 | once the workers stop, the log holds every successful answer and nothing else |
| `LoadDriver.SortByStamp` | benchmarks/harness/driver.rs:161-163 | a sorted permutation |
| `LoadDriver.SortedIsIndexed` | benchmarks/harness/driver.rs:161-164 | any sort by stamp restores the completion order |
| `LoadDriver.Join` | benchmarks/harness/driver.rs:143-157 | samples and errors of all workers, and the first error in join order |
| `LoadDriver.Publish` | benchmarks/harness/driver.rs:143-187 | the published samples are the successful latencies in completion order, completed plus errors is the total, and it fails iff nothing succeeded |
| `LoadDriver.NextSlot` | benchmarks/harness/scaling.rs:131-138 | iteration 0 goes to the first instance and consecutive iterations to consecutive instances, cyclically |
| `LoadDriver.HitsByRounds` | benchmarks/harness/scaling.rs:131-142 | after n iterations every instance has had the full rounds and the next few from the starting slot one more |
| `LoadDriver.SharesAddUp` | benchmarks/harness/driver.rs:118-123 | at every moment an instance's requests and those claimed for it but unsent make up its share of the claimed iterations |
| `LoadDriver.LoadWhileRunning` | benchmarks/harness/scaling.rs:131-142 | at every moment the counts differ by at most one plus what is on its way to the instance behind |
| `LoadDriver.LoadIsEven` | benchmarks/harness/scaling.rs:131-142 | after a phase the instances' request counts differ by at most one |
| `LoadDriver.AlwaysEvenIff` | benchmarks/harness/scaling.rs:131-142 | they do at every moment of every run iff one worker, one instance or no more requests than instances |
| `LoadDriver.HitsPermuted` | benchmarks/harness/scaling.rs:137 | an instance's count does not depend on the order of the requests |
| `LoadDriver.StepKeeps` | benchmarks/harness/driver.rs:113-135 | every step conserves claims, samples, errors and outstanding requests |

## Left out

- In-place update of the concurrent objects: `PermissionsCache`, `Limiter`, `AdapterRegistry`, `LoadDriver` and `SessionReplicas` are step machines over values, because the point is the interleaving of steps of many tasks; aliasing of the shared handles is modelled by identifiers.
- Lock fairness: any waiting task may get a free lock next. Every order that tokio's queues allow is among the modelled ones; no claim is made about who goes first.
- Atomic orderings: shared counters are sequentially consistent in the model.
- Writes that announce nobody, by bypassing the admin handlers or because the handler was dropped between its commit and its invalidation: the results of `PermissionsCache` are about announced commits, each of which has its invalidation from the moment it commits; without that only `CacheAge.ReturnsAreYoung` holds.
- Clocks: replicas share one monotonic clock, and the client registry one clock that never runs back; wall clocks in the session models show anything.
- SessionReplicas.StepKeeps: evictions may strike any entry at any moment, so the capacity of a replica's cache is not tracked there; `SessionStore.SessionCache` states it.
- ClientRegistry.WithinCap: sequential traces only; the source declares its count and insert non-atomic and the cap best-effort under concurrent registrations.
- The SQL text parser: the guard starts from the parsed statements, or from the fact that the text does not parse.
- The effects of functions outside the denylist (taken to be pure), of triggers and cascades behind a data write, and of a table function as the target of an INSERT.
- The Postgres and Mongo adapters and the Mongo read-only rejector: the gate ends at the adapter call, and the effect statements are about Postgres.
- Audit rows, response envelopes, elapsed times and metrics other than the active-session gauge.
- Machine widths: revisions, counters, limits and timestamps are unbounded integers, except where a session lifetime exceeds the date type.
- Latencies are exact reals; percentiles and the other floating-point statistics are not modelled.
- OIDC, JWT, PKCE, TLS, the OAuth code and refresh stores, start-up, configuration parsing, secret resolution and the Sentry scrubber: foreign calls, I/O or one-branch checks.
- The warm-up loop of the driver: the same shared counter without samples or errors.
