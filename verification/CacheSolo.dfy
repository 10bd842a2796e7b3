/** What one `get_for` call (src/authz/cache.rs) achieves when nobody else steps. */
module CacheSolo {
  import opened Common
  import opened Grants
  import opened Loader
  import opened PermissionsCache

  /** `n` steps of one call, or as many as it has left. */
  function Solo(s: State, t: Tid, n: nat): State
    decreases n
  {
    if n == 0 then s
    else
      match Step(s, Advance(t), 0)
      case None => s
      case Some(s') => Solo(s', t, n - 1)
  }

  /** The entry a call finds when it starts now is within its TTL. */
  ghost predicate WillHit(s: State, u: Sub) {
    u in s.inner && s.now + 1 - s.inner[u].loadedAt < s.ttl
  }

  // ---------------------------------------------------------------- along the way

  ghost predicate SoloLock(s: State, t: Tid) {
    && t in s.calls
    && s.readers == (if s.calls[t].phase.Reading? then {t} else {})
    && s.writer == (if s.calls[t].phase.HoldsWrite() then Some(ByCall(t)) else None)
    && (s.calls[t].phase.HasRev() ==> s.calls[t].phase.rev == s.revision)
    && !s.calls[t].phase.Dropped?
  }

  /** What the call holds is what the store says. */
  ghost predicate SoloData(s: State, t: Tid) {
    && t in s.calls && UpToDate(s.db, s.calls[t])
    && match s.calls[t].phase
       case Returned(g) => Projection(s.db, s.calls[t].sub) == Ok(g)
       case Failed(e) => Projection(s.db, s.calls[t].sub) == Err(e)
       case _ => true
  }

  /** How much the call has done since it started at `s0`. */
  ghost predicate SoloCount(s0: State, s: State, t: Tid, u: Sub) {
    && t in s.calls && s.calls[t].sub == u && s.db == s0.db && s.ttl == s0.ttl
    && var c := s.calls[t];
       && c.loads == (if c.phase.HasRev() || (c.phase.Done() && !WillHit(s0, u)) then 1 else 0)
       && (c.phase.AskRead? ==> s.now == s0.now) && (c.phase.Reading? ==> s.now == s0.now + 1)
       && (c.phase.LoopTop? || c.phase.HasRev() || c.phase.Failed? ==> !WillHit(s0, u))
  }

  /** What the call has done to the cache. */
  ghost predicate SoloCache(s0: State, s: State, t: Tid, u: Sub) {
    && t in s.calls && s.calls[t].sub == u
    && (!s.calls[t].phase.Returned? ==> s.inner == s0.inner)
    && (s.calls[t].phase.Returned? ==>
          && u in s.inner && s.inner[u].grants == s.calls[t].phase.grants
          && (if WillHit(s0, u) then s.inner == s0.inner else s.inner[u].loadedAt + 1 == s.now))
    && (forall x :: x != u ==> Get(s.inner, x) == Get(s0.inner, x))
  }

  lemma LockStep(s: State, t: Tid)
    requires SoloLock(s, t) && !s.calls[t].phase.Done()
    ensures Step(s, Advance(t), 0).Some? && SoloLock(Step(s, Advance(t), 0).value, t)
  {
    match s.calls[t].phase
    case AskRead => case Reading => case LoopTop => case FetchUser(_) => case FetchGrants(_, _) =>
    case FetchDatabases(_, _, _) => case Loaded(_, _) => case AskWrite(_, _) => case Holding(_, _) =>
    case Current(_, _) => case Returned(_) => case Failed(_) => case Dropped =>
  }

  lemma RankStep(s: State, t: Tid)
    requires SoloLock(s, t) && Step(s, Advance(t), 0).Some?
    ensures Rank(s.calls[t].phase) < Rank(Step(s, Advance(t), 0).value.calls[t].phase)
  {
    AdvanceFrame(s, t);
    match s.calls[t].phase
    case AskRead => case Reading => case LoopTop => case FetchUser(_) => case FetchGrants(_, _) =>
    case FetchDatabases(_, _, _) => case Loaded(_, _) => case AskWrite(_, _) => case Holding(_, _) =>
    case Current(_, _) => case Returned(_) => case Failed(_) => case Dropped =>
  }

  lemma DataStep(s: State, t: Tid)
    requires SoloData(s, t) && Step(s, Advance(t), 0).Some?
    requires s.calls[t].sub in s.inner ==> Projection(s.db, s.calls[t].sub) == Ok(s.inner[s.calls[t].sub].grants)
    ensures SoloData(Step(s, Advance(t), 0).value, t)
  {
    AdvanceFrame(s, t);
    match s.calls[t].phase
    case AskRead => case Reading => case LoopTop => case FetchUser(_) => case FetchGrants(_, _) =>
    case FetchDatabases(_, _, _) => case Loaded(_, _) => case AskWrite(_, _) => case Holding(_, _) =>
    case Current(_, _) => case Returned(_) => case Failed(_) => case Dropped =>
  }

  lemma CountStep(s0: State, s: State, t: Tid, u: Sub)
    requires SoloCount(s0, s, t, u) && SoloCache(s0, s, t, u) && SoloLock(s, t) && Step(s, Advance(t), 0).Some?
    ensures SoloCount(s0, Step(s, Advance(t), 0).value, t, u)
  {
    AdvanceFrame(s, t);
    match s.calls[t].phase
    case AskRead => case Reading => case LoopTop => case FetchUser(_) => case FetchGrants(_, _) =>
    case FetchDatabases(_, _, _) => case Loaded(_, _) => case AskWrite(_, _) => case Holding(_, _) =>
    case Current(_, _) => case Returned(_) => case Failed(_) => case Dropped =>
  }

  lemma CacheStep(s0: State, s: State, t: Tid, u: Sub)
    requires SoloCount(s0, s, t, u) && SoloCache(s0, s, t, u) && Step(s, Advance(t), 0).Some?
    ensures SoloCache(s0, Step(s, Advance(t), 0).value, t, u)
  {
    AdvanceFrame(s, t);
    match s.calls[t].phase
    case AskRead => case Reading => case LoopTop => case FetchUser(_) => case FetchGrants(_, _) =>
    case FetchDatabases(_, _, _) => case Loaded(_, _) => case AskWrite(_, _) => case Holding(_, _) =>
    case Current(_, _) => case Returned(_) => case Failed(_) => case Dropped =>
  }

  lemma {:induction false} SoloRun(s0: State, s: State, t: Tid, u: Sub, n: nat)
    requires SoloLock(s, t) && SoloData(s, t) && SoloCount(s0, s, t, u) && SoloCache(s0, s, t, u)
    requires 10 <= Rank(s.calls[t].phase) + n
    requires u in s0.inner ==> Projection(s0.db, u) == Ok(s0.inner[u].grants)
    ensures var s' := Solo(s, t, n);
            && SoloLock(s', t) && SoloData(s', t) && SoloCount(s0, s', t, u) && SoloCache(s0, s', t, u)
            && s'.calls[t].phase.Done()
    decreases n
  {
    if s.calls[t].phase.Done() {
      assert Step(s, Advance(t), 0).None?;
    } else {
      LockStep(s, t);
      RankStep(s, t);
      DataStep(s, t);
      CountStep(s0, s, t, u);
      CacheStep(s0, s, t, u);
      SoloRun(s0, Step(s, Advance(t), 0).value, t, u, n - 1);
    }
  }

  // ---------------------------------------------------------------- the end

  /** A call that runs alone, with the lock free and no covering write pending, ends within
      ten steps: with the store's grants for its user, or with the loader's error exactly
      when the store's rows do not decode. It loads only if it finds no entry within the TTL,
      leaves its result in the cache under the time of the insert, and leaves the other
      entries alone. */
  lemma SoloEnds(s: State, t: Tid)
    requires Reachable(s) && t in s.calls && s.calls[t].phase.AskRead?
    requires s.readers == {} && s.writer.None? && !Pending(s.invs, s.calls[t].sub)
    ensures var s', u := Solo(s, t, 10), s.calls[t].sub;
            && t in s'.calls && s'.db == s.db
            && (match Projection(s.db, u)
                case Ok(g) =>
                  && s'.calls[t].phase == Returned(g) && u in s'.inner && s'.inner[u].grants == g
                  && (if WillHit(s, u) then s'.inner == s.inner else s'.inner[u].loadedAt + 1 == s'.now)
                case Err(e) => s'.calls[t].phase == Failed(e) && s'.inner == s.inner)
            && s'.calls[t].loads == (if WillHit(s, u) then 0 else 1)
            && (forall x :: x != u ==> Get(s'.inner, x) == Get(s.inner, x))
  {
    ReachableInv(s);
    var u := s.calls[t].sub;
    if u in s.inner {
      assert EntryFresh(s.db, s.invs, u, s.inner[u]);
    }
    assert CallWork(s.revision, s.calls[t]);
    SoloRun(s, s, t, u, 10);
  }

  /** The same from the call's first moment. */
  lemma NewCallEnds(s: State, t: Tid, u: Sub)
    requires Reachable(s) && t !in s.calls
    requires s.readers == {} && s.writer.None? && !Pending(s.invs, u)
    ensures Step(s, Begin(t, u), 0).Some?
    ensures var s1 := Step(s, Begin(t, u), 0).value;
            var s' := Solo(s1, t, 10);
            && t in s'.calls && s'.db == s.db
            && (match Projection(s.db, u)
                case Ok(g) => s'.calls[t].phase == Returned(g)
                case Err(e) => s'.calls[t].phase == Failed(e))
            && s'.calls[t].loads == (if WillHit(s1, u) then 0 else 1)
  {
    var s1 := Step(s, Begin(t, u), 0).value;
    var s0, schedule :| Initial(s0) && Run(s0, schedule) == Some(s);
    var longer := schedule + [(Begin(t, u), 0)];
    assert longer[..|longer| - 1] == schedule;
    assert Run(s0, longer) == Some(s1);
    SoloEnds(s1, t);
  }
}
