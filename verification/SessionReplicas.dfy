/** Many replicas, each with its own session cache, over one state database, as an
    interleaving of steps (src/auth/session.rs, src/auth/session_cache.rs).

    A step is one cache access, one statement on the database or one clock reading.
    Replicas share a monotonic clock `mono`; every lookup samples a wall clock that may
    show anything. An entry can disappear from a cache at any moment, which covers every
    eviction and restart. A call that fails or is dropped is one that takes no further
    step. */
module SessionReplicas {
  import opened Common
  import opened SessionStore

  type Rid = nat
  type Tid = nat

  /** Where a call is. `row` was read (or inserted) at `readAt`; a successful lookup rests
      on the cache hit or row read at `decidedAt` and answers at `grantedAt`. */
  datatype Phase =
    | Sampled
    | Missed
    | GotRow(row: Session, readAt: nat)
    | Stamped(row: Session, cachedAt: nat, readAt: nat)
    | Refusing(error: AuthError)
    | Updated
    | Granted(row: Session, decidedAt: nat, grantedAt: nat)
    | Refused(error: AuthError)
    | Finished

  datatype Kind = Lookup(now: int) | Creating | Revoking

  datatype Task = Task(kind: Kind, replica: Rid, id: Id, phase: Phase)

  /** `revokedOn` is the instant each revoked session's row was stamped, `gap` the longest
      time any call so far took from reading its row to putting it into the cache. */
  datatype State = State(mono: nat, ttl: nat, db: Table, revokedOn: map<Id, nat>,
                         caches: map<Rid, map<Id, CacheEntry>>, tasks: map<Tid, Task>, gap: nat)
  {
    function CacheOf(r: Rid): map<Id, CacheEntry> {
      if r in caches then caches[r] else map[]
    }
  }

  datatype Action =
    | BeginLookup(t: Tid, replica: Rid, id: Id, now: int)
    | BeginCreate(t: Tid, replica: Rid, session: Session)
    | BeginRevoke(t: Tid, replica: Rid, id: Id, now: int)
    | Advance(t: Tid)
    | Evict(replica: Rid, id: Id)

  function SetPhase(s: State, t: Tid, phase: Phase): State
    requires t in s.tasks
  {
    s.(tasks := s.tasks[t := s.tasks[t].(phase := phase)])
  }

  function SetCache(s: State, r: Rid, m: map<Id, CacheEntry>): State {
    s.(caches := s.caches[r := m])
  }

  function AdvanceTask(s: State, t: Tid): Option<State>
    requires t in s.tasks
  {
    var task := s.tasks[t];
    var cache := s.CacheOf(task.replica);
    match task.phase
    case Sampled =>
      if !task.kind.Lookup? then None
      else if task.id in cache && Elapsed(s.mono, cache[task.id].cachedAt) < s.ttl
          && cache[task.id].session.IsActive(task.kind.now)
      then Some(SetPhase(s, t, Granted(cache[task.id].session, s.mono, s.mono)))
      else Some(SetPhase(s, t, Missed))
    case Missed =>
      if !task.kind.Lookup? then None
      else if task.id !in s.db then Some(SetPhase(s, t, Refusing(InvalidSession)))
      else if !s.db[task.id].IsActive(task.kind.now) then Some(SetPhase(s, t, Refusing(RevokedSession)))
      else Some(SetPhase(s, t, GotRow(s.db[task.id], s.mono)))
    case GotRow(row, readAt) =>
      Some(SetPhase(s, t, Stamped(row, s.mono, readAt)).(gap := Max(s.gap, s.mono - readAt)))
    case Stamped(row, cachedAt, readAt) =>
      var s1 := SetCache(s, task.replica, cache[task.id := CacheEntry(row, cachedAt)]);
      Some(SetPhase(s1, t, if task.kind.Lookup? then Granted(row, readAt, s.mono) else Finished)
           .(gap := Max(s.gap, s.mono - readAt)))
    case Refusing(error) => Some(SetPhase(SetCache(s, task.replica, cache - {task.id}), t, Refused(error)))
    case Updated => Some(SetPhase(SetCache(s, task.replica, cache - {task.id}), t, Finished))
    case Granted(_, _, _) => None
    case Refused(_) => None
    case Finished => None
  }

  function Apply(s: State, a: Action): Option<State> {
    match a
    case BeginLookup(t, r, id, now) =>
      if t in s.tasks then None else Some(s.(tasks := s.tasks[t := Task(Lookup(now), r, id, Sampled)]))
    case BeginCreate(t, r, session) =>
      if t in s.tasks || session.id in s.db || session.revokedAt.Some? then None
      else Some(s.(db := s.db[session.id := session],
          tasks := s.tasks[t := Task(Creating, r, session.id, GotRow(session, s.mono))]))
    case BeginRevoke(t, r, id, now) =>
      if t in s.tasks then None
      else
        var first := id in s.db && s.db[id].revokedAt.None?;
        Some(s.(db := DbRevoke(s.db, id, now),
                revokedOn := if first then s.revokedOn[id := s.mono] else s.revokedOn,
                tasks := s.tasks[t := Task(Revoking, r, id, Updated)]))
    case Advance(t) => if t in s.tasks then AdvanceTask(s, t) else None
    case Evict(r, id) => Some(SetCache(s, r, s.CacheOf(r) - {id}))
  }

  function Step(s: State, a: Action, dt: nat): Option<State> {
    match Apply(s, a)
    case None => None
    case Some(s') => Some(s'.(mono := s.mono + dt))
  }

  function Run(s: State, schedule: seq<(Action, nat)>): Option<State>
    decreases |schedule|
  {
    if schedule == [] then Some(s)
    else
      match Step(s, schedule[0].0, schedule[0].1)
      case None => None
      case Some(s') => Run(s', schedule[1..])
  }

  ghost predicate Initial(s: State) {
    && (forall id :: id in s.revokedOn <==> id in s.db && s.db[id].revokedAt.Some?)
    && (forall id :: id in s.revokedOn ==> s.revokedOn[id] <= s.mono)
    && s.caches == map[] && s.tasks == map[] && s.gap == 0
  }

  ghost predicate Reachable(s: State) {
    exists s0, schedule :: Initial(s0) && Run(s0, schedule) == Some(s)
  }

  // ---------------------------------------------------------------- invariant

  /** A copy of the row taken while it was not revoked. */
  ghost predicate IsCopy(db: Table, id: Id, row: Session) {
    id in db && row.revokedAt.None? && db[id].(revokedAt := None) == row
  }

  /** An instant no later than the revocation of `id`, give or take `slack`. */
  ghost predicate Before(revokedOn: map<Id, nat>, id: Id, instant: nat, slack: nat) {
    id in revokedOn ==> instant <= revokedOn[id] + slack
  }

  /** Granted on a row read before the revocation and cached without further delay, or on
      an entry within its window. */
  ghost predicate InTime(s: State, revoked: nat, decidedAt: nat, grantedAt: nat) {
    || (decidedAt <= revoked && grantedAt <= revoked + s.gap)
    || grantedAt < revoked + s.ttl + s.gap
  }

  ghost predicate TaskInv(s: State, task: Task) {
    match task.phase
    case GotRow(row, readAt) =>
      && IsCopy(s.db, task.id, row) && readAt <= s.mono && Before(s.revokedOn, task.id, readAt, 0)
      && (task.kind.Lookup? ==> task.kind.now < row.expiresAt)
    case Stamped(row, cachedAt, readAt) =>
      && IsCopy(s.db, task.id, row) && cachedAt <= s.mono && readAt <= s.mono
      && Before(s.revokedOn, task.id, cachedAt, s.gap) && Before(s.revokedOn, task.id, readAt, 0)
      && (task.kind.Lookup? ==> task.kind.now < row.expiresAt)
    case Granted(row, decidedAt, grantedAt) =>
      && task.kind.Lookup? && IsCopy(s.db, task.id, row) && task.kind.now < row.expiresAt
      && decidedAt <= grantedAt <= s.mono
      && (task.id in s.revokedOn ==> InTime(s, s.revokedOn[task.id], decidedAt, grantedAt))
    case _ => true
  }

  ghost predicate EntryInv(s: State, id: Id, e: CacheEntry) {
    IsCopy(s.db, id, e.session) && e.cachedAt <= s.mono && Before(s.revokedOn, id, e.cachedAt, s.gap)
  }

  ghost predicate Inv(s: State) {
    && (forall id :: id in s.revokedOn <==> id in s.db && s.db[id].revokedAt.Some?)
    && (forall id :: id in s.revokedOn ==> s.revokedOn[id] <= s.mono)
    && (forall t :: t in s.tasks ==> TaskInv(s, s.tasks[t]))
    && (forall r, id :: r in s.caches && id in s.caches[r] ==> EntryInv(s, id, s.caches[r][id]))
  }

  /** Between two states of a run: time and the gap only grow, rows only get revoked. */
  ghost predicate Later(s: State, s': State) {
    && s.mono <= s'.mono && s.gap <= s'.gap && s.ttl == s'.ttl
    && (forall id :: id in s.db ==> id in s'.db && s'.db[id].(revokedAt := s.db[id].revokedAt) == s.db[id]
                                    && (s.db[id].revokedAt.Some? ==> s'.db[id] == s.db[id]))
    && (forall id :: id in s.revokedOn ==> id in s'.revokedOn && s'.revokedOn[id] == s.revokedOn[id])
    && (forall id :: id in s'.revokedOn && id !in s.revokedOn ==> s.mono <= s'.revokedOn[id])
  }

  /** What a step of one call leaves alone. */
  ghost predicate OnlyTask(s: State, m: State, t: Tid) {
    && t in s.tasks && t in m.tasks && m.tasks == s.tasks[t := m.tasks[t]]
    && m.tasks[t].kind == s.tasks[t].kind && m.tasks[t].replica == s.tasks[t].replica && m.tasks[t].id == s.tasks[t].id
    && m.db == s.db && m.revokedOn == s.revokedOn && m.mono == s.mono && m.ttl == s.ttl && s.gap <= m.gap
  }

  lemma AdvanceFrame(s: State, t: Tid)
    requires t in s.tasks && AdvanceTask(s, t).Some?
    ensures OnlyTask(s, AdvanceTask(s, t).value, t)
  {
    match s.tasks[t].phase
    case Sampled => case Missed => case GotRow(_, _) => case Stamped(_, _, _) => case Refusing(_) =>
    case Updated => case Granted(_, _, _) => case Refused(_) => case Finished =>
  }

  lemma StepLater(s: State, a: Action, dt: nat)
    requires Inv(s) && Step(s, a, dt).Some?
    ensures Later(s, Step(s, a, dt).value)
  {
    match a
    case Advance(t) => AdvanceFrame(s, t);
    case BeginRevoke(_, _, id, now) =>
      var s' := Step(s, a, dt).value;
      assert s'.db == DbRevoke(s.db, id, now);
    case _ =>
  }

  lemma TaskLater(s: State, s': State, task: Task)
    requires Later(s, s') && TaskInv(s, task)
    ensures TaskInv(s', task)
  {
  }

  lemma EntryLater(s: State, s': State, id: Id, e: CacheEntry)
    requires Later(s, s') && EntryInv(s, id, e)
    ensures EntryInv(s', id, e)
  {
  }

  lemma AdvanceTaskInv(s: State, t: Tid)
    requires Inv(s) && t in s.tasks && AdvanceTask(s, t).Some?
    ensures TaskInv(AdvanceTask(s, t).value, AdvanceTask(s, t).value.tasks[t])
  {
    var task := s.tasks[t];
    assert TaskInv(s, task);
    if task.phase.Sampled? && task.replica in s.caches && task.id in s.caches[task.replica] {
      assert EntryInv(s, task.id, s.caches[task.replica][task.id]);
    }
  }

  /** The only new entry a step makes is the stamped row of its own call. */
  lemma AdvanceEntry(s: State, t: Tid, r: Rid, id: Id)
    requires t in s.tasks && AdvanceTask(s, t).Some?
    ensures var task, s' := s.tasks[t], AdvanceTask(s, t).value;
            r in s'.caches && id in s'.caches[r] ==>
              || (r in s.caches && id in s.caches[r] && s'.caches[r][id] == s.caches[r][id])
              || (task.phase.Stamped? && id == task.id
                 && s'.caches[r][id] == CacheEntry(task.phase.row, task.phase.cachedAt))
  {
  }

  lemma AdvanceEntryInv(s: State, t: Tid, r: Rid, id: Id)
    requires Inv(s) && t in s.tasks && AdvanceTask(s, t).Some?
    ensures var s' := AdvanceTask(s, t).value; r in s'.caches && id in s'.caches[r] ==>
            EntryInv(s', id, s'.caches[r][id])
  {
    AdvanceFrame(s, t);
    AdvanceEntry(s, t, r, id);
    assert TaskInv(s, s.tasks[t]);
    if r in s.caches && id in s.caches[r] {
      assert EntryInv(s, id, s.caches[r][id]);
    }
  }

  lemma AdvanceKeeps(s: State, t: Tid, dt: nat)
    requires Inv(s) && Step(s, Advance(t), dt).Some?
    ensures Inv(Step(s, Advance(t), dt).value)
  {
    var m, s' := AdvanceTask(s, t).value, Step(s, Advance(t), dt).value;
    AdvanceFrame(s, t);
    assert s' == m.(mono := s'.mono) && Later(m, s') && Later(s, s');
    AdvanceTaskInv(s, t);
    forall x | x in s'.tasks ensures TaskInv(s', s'.tasks[x]) {
      if x == t {
        TaskLater(m, s', m.tasks[t]);
      } else {
        TaskLater(s, s', s.tasks[x]);
      }
    }
    forall r, id | r in s'.caches && id in s'.caches[r] ensures EntryInv(s', id, s'.caches[r][id]) {
      AdvanceEntryInv(s, t, r, id);
      EntryLater(m, s', id, m.caches[r][id]);
    }
  }

  lemma OthersKeep(s: State, a: Action, dt: nat)
    requires Inv(s) && !a.Advance? && Step(s, a, dt).Some?
    ensures Inv(Step(s, a, dt).value)
  {
    var s' := Step(s, a, dt).value;
    StepLater(s, a, dt);
    forall x | x in s'.tasks ensures TaskInv(s', s'.tasks[x]) {
      if x in s.tasks { TaskLater(s, s', s.tasks[x]); }
    }
    forall r, id | r in s'.caches && id in s'.caches[r] ensures EntryInv(s', id, s'.caches[r][id]) {
      EntryLater(s, s', id, s.caches[r][id]);
    }
  }

  lemma StepKeeps(s: State, a: Action, dt: nat)
    requires Inv(s) && Step(s, a, dt).Some?
    ensures Inv(Step(s, a, dt).value)
  {
    match a
    case Advance(t) => AdvanceKeeps(s, t, dt);
    case _ => OthersKeep(s, a, dt);
  }

  lemma {:induction false} RunKeeps(s: State, schedule: seq<(Action, nat)>)
    requires Inv(s) && Run(s, schedule).Some?
    ensures Inv(Run(s, schedule).value)
    decreases |schedule|
  {
    if schedule == [] {
    } else {
      StepKeeps(s, schedule[0].0, schedule[0].1);
      RunKeeps(Step(s, schedule[0].0, schedule[0].1).value, schedule[1..]);
    }
  }

  lemma ReachableInv(s: State)
    requires Reachable(s)
    ensures Inv(s)
  {
    var s0, schedule :| Initial(s0) && Run(s0, schedule) == Some(s);
    RunKeeps(s0, schedule);
  }

  // ---------------------------------------------------------------- bounded staleness

  /** Over any number of replicas: no lookup succeeds once the cache window and the longest
      time from a row read to its cache insert have passed since the revocation, and none
      succeeds at or after the expiry by the wall clock it sampled. */
  lemma GrantedIsRecentAndUnexpired(s: State, t: Tid)
    requires Reachable(s) && t in s.tasks && s.tasks[t].phase.Granted?
    ensures var task := s.tasks[t];
            && task.kind.Lookup? && task.id in s.db && task.kind.now < s.db[task.id].expiresAt
            && task.phase.decidedAt <= task.phase.grantedAt <= s.mono
            && (task.id in s.revokedOn ==> task.phase.grantedAt <= s.revokedOn[task.id] + s.ttl + s.gap)
            && (task.id in s.revokedOn && (0 < s.ttl || s.revokedOn[task.id] < task.phase.decidedAt) ==>
                  task.phase.grantedAt < s.revokedOn[task.id] + s.ttl + s.gap)
  {
    ReachableInv(s);
    assert TaskInv(s, s.tasks[t]);
  }

  /** A stamped `revoked_at` survives every continuation unchanged. */
  lemma {:induction false} RevokedAtIsFinal(s: State, schedule: seq<(Action, nat)>, id: Id)
    requires Inv(s) && Run(s, schedule).Some? && id in s.db && s.db[id].revokedAt.Some?
    ensures id in Run(s, schedule).value.db && Run(s, schedule).value.db[id] == s.db[id]
    decreases |schedule|
  {
    if schedule == [] {
    } else {
      StepLater(s, schedule[0].0, schedule[0].1);
      StepKeeps(s, schedule[0].0, schedule[0].1);
      RevokedAtIsFinal(Step(s, schedule[0].0, schedule[0].1).value, schedule[1..], id);
    }
  }

  // ---------------------------------------------------------------- when the next request observes a revocation

  ghost predicate LiveEntry(s: State, r: Rid, id: Id) {
    r in s.caches && id in s.caches[r] && Elapsed(s.mono, s.caches[r][id].cachedAt) < s.ttl
  }

  /** The call has read the row and has yet to put it into the cache of `r`, where it
      would still count as fresh. */
  ghost predicate InFlight(s: State, task: Task, r: Rid, id: Id) {
    && task.replica == r && task.id == id
    && (task.phase.GotRow? || (task.phase.Stamped? && Elapsed(s.mono, task.phase.cachedAt) < s.ttl))
  }

  /** Nothing on replica `r` remembers the unrevoked row. */
  ghost predicate Quiet(s: State, r: Rid, id: Id) {
    && !LiveEntry(s, r, id)
    && forall t :: t in s.tasks ==> !InFlight(s, s.tasks[t], r, id)
  }

  ghost predicate GrantedAnew(s: State, s': State, r: Rid, id: Id) {
    exists t :: t in s'.tasks && t !in s.tasks && s'.tasks[t].replica == r && s'.tasks[t].id == id
        && s'.tasks[t].phase.Granted?
  }

  /** Calls for `id` on `r` that are not in `known` have not been granted. */
  ghost predicate NoneGranted(known: set<Tid>, s: State, r: Rid, id: Id) {
    forall t :: t in s.tasks && t !in known && s.tasks[t].replica == r && s.tasks[t].id == id ==>
      !s.tasks[t].phase.Granted? && !s.tasks[t].phase.GotRow? && !s.tasks[t].phase.Stamped?
  }

  lemma QuietAdvance(known: set<Tid>, s: State, t: Tid, r: Rid, id: Id)
    requires Inv(s) && id in s.revokedOn && t in s.tasks && AdvanceTask(s, t).Some?
    requires Quiet(s, r, id) && NoneGranted(known, s, r, id)
    ensures Quiet(AdvanceTask(s, t).value, r, id) && NoneGranted(known, AdvanceTask(s, t).value, r, id)
  {
    AdvanceFrame(s, t);
    var m := AdvanceTask(s, t).value;
    var task, task' := s.tasks[t], m.tasks[t];
    assert !InFlight(s, task, r, id);
    assert !s.db[id].IsActive(0);
    if task.replica == r && task.id == id {
      assert !task'.phase.GotRow?;
      assert !InFlight(m, task', r, id);
      assert task'.phase.Granted? ==> task.phase.Stamped?;
    }
    AdvanceEntry(s, t, r, id);
    assert !LiveEntry(m, r, id);
    forall x | x in m.tasks ensures !InFlight(m, m.tasks[x], r, id) {
      if x != t { assert !InFlight(s, s.tasks[x], r, id); }
    }
  }

  lemma QuietLater(known: set<Tid>, m: State, s: State, r: Rid, id: Id)
    requires Quiet(m, r, id) && NoneGranted(known, m, r, id) && m.mono <= s.mono && s == m.(mono := s.mono)
    ensures Quiet(s, r, id) && NoneGranted(known, s, r, id)
  {
    forall x | x in s.tasks ensures !InFlight(s, s.tasks[x], r, id) {
      assert !InFlight(m, m.tasks[x], r, id);
    }
  }

  lemma QuietOther(known: set<Tid>, s: State, a: Action, r: Rid, id: Id)
    requires Inv(s) && id in s.revokedOn && !a.Advance? && Apply(s, a).Some?
    requires Quiet(s, r, id) && NoneGranted(known, s, r, id)
    ensures Quiet(Apply(s, a).value, r, id) && NoneGranted(known, Apply(s, a).value, r, id)
  {
    var m := Apply(s, a).value;
    assert m.mono == s.mono && m.ttl == s.ttl;
    forall x | x in m.tasks ensures !InFlight(m, m.tasks[x], r, id) {
      if x in s.tasks { assert !InFlight(s, s.tasks[x], r, id); }
    }
  }

  lemma {:induction false} QuietForever(known: set<Tid>, s: State, schedule: seq<(Action, nat)>, r: Rid, id: Id)
    requires Inv(s) && id in s.revokedOn && Run(s, schedule).Some?
    requires Quiet(s, r, id) && NoneGranted(known, s, r, id)
    ensures NoneGranted(known, Run(s, schedule).value, r, id)
    decreases |schedule|
  {
    if schedule == [] {
    } else {
      var a, dt := schedule[0].0, schedule[0].1;
      var m, s' := Apply(s, a).value, Step(s, a, dt).value;
      match a {
        case Advance(t) => QuietAdvance(known, s, t, r, id); AdvanceFrame(s, t);
        case _ => QuietOther(known, s, a, r, id);
      }
      QuietLater(known, m, s', r, id);
      StepKeeps(s, a, dt);
      StepLater(s, a, dt);
      QuietForever(known, s', schedule[1..], r, id);
    }
  }

  /** From a state with something in flight or live, a lookup that starts afterwards can
      still be granted: finish the call in flight, then look up. */
  lemma NoisyGrants(s: State, r: Rid, id: Id, now: int, next: Tid) returns (schedule: seq<(Action, nat)>)
    requires Inv(s) && id in s.revokedOn && 0 < s.ttl && now < s.db[id].expiresAt && next !in s.tasks
    requires !Quiet(s, r, id)
    ensures Run(s, schedule).Some? && GrantedAnew(s, Run(s, schedule).value, r, id)
  {
    var begin, look := (BeginLookup(next, r, id, now), 0), (Advance(next), 0);
    if LiveEntry(s, r, id) {
      LiveGrants(s, r, id, now, next);
      schedule := [begin, look];
    } else {
      var t :| t in s.tasks && InFlight(s, s.tasks[t], r, id);
      assert TaskInv(s, s.tasks[t]);
      if s.tasks[t].phase.Stamped? {
        var s1 := Step(s, Advance(t), 0).value;
        StepKeeps(s, Advance(t), 0);
        LiveGrants(s1, r, id, now, next);
        schedule := [(Advance(t), 0), begin, look];
        assert schedule[1..] == [begin, look];
      } else {
        var s1 := Step(s, Advance(t), 0).value;
        StepKeeps(s, Advance(t), 0);
        var s2 := Step(s1, Advance(t), 0).value;
        StepKeeps(s1, Advance(t), 0);
        LiveGrants(s2, r, id, now, next);
        schedule := [(Advance(t), 0), (Advance(t), 0), begin, look];
        assert schedule[1..] == [(Advance(t), 0), begin, look];
        assert schedule[1..][1..] == [begin, look];
      }
    }
  }

  lemma LiveGrants(s: State, r: Rid, id: Id, now: int, next: Tid)
    requires Inv(s) && LiveEntry(s, r, id) && id in s.db && now < s.db[id].expiresAt && next !in s.tasks
    ensures var schedule: seq<(Action, nat)> := [(BeginLookup(next, r, id, now), 0), (Advance(next), 0)];
            && Run(s, schedule).Some? && next in Run(s, schedule).value.tasks
            && var task := Run(s, schedule).value.tasks[next]; task.replica == r && task.id == id && task.phase.Granted?
  {
    var schedule: seq<(Action, nat)> := [(BeginLookup(next, r, id, now), 0), (Advance(next), 0)];
    assert EntryInv(s, id, s.caches[r][id]);
    var s1 := Step(s, schedule[0].0, 0).value;
    assert schedule[1..] == [schedule[1]] && schedule[1..][1..] == [];
    assert Run(s1, schedule[1..]) == Run(Step(s1, schedule[1].0, 0).value, []);
  }

  /** After a revocation, the requests that start next are refused for good exactly when
      nothing on the replica remembers the row: no live cache entry and no call between its
      row read and its cache insert. */
  lemma RevocationObservedIffQuiet(s: State, r: Rid, id: Id, now: int, next: Tid)
    requires Reachable(s) && id in s.revokedOn && id in s.db && 0 < s.ttl && now < s.db[id].expiresAt
    requires next !in s.tasks
    ensures Quiet(s, r, id) <==>
              forall schedule :: Run(s, schedule).Some? ==> !GrantedAnew(s, Run(s, schedule).value, r, id)
  {
    ReachableInv(s);
    if Quiet(s, r, id) {
      forall schedule | Run(s, schedule).Some? ensures !GrantedAnew(s, Run(s, schedule).value, r, id) {
        QuietForever(s.tasks.Keys, s, schedule, r, id);
      }
    } else {
      var schedule := NoisyGrants(s, r, id, now, next);
    }
  }

  // ---------------------------------------------------------------- what a logout and a lookup achieve

  /** No call other than the logout itself is between its row read and its cache insert. */
  ghost predicate NoneInFlight(s: State, r: Rid, id: Id) {
    forall t :: t in s.tasks ==> !InFlight(s, s.tasks[t], r, id)
  }

  /** The last step of a logout leaves its replica quiet, unless a call is in flight. */
  lemma LogoutQuiets(s: State, t: Tid, dt: nat)
    requires Reachable(s) && t in s.tasks && s.tasks[t].phase.Updated?
    requires NoneInFlight(s, s.tasks[t].replica, s.tasks[t].id)
    ensures Step(s, Advance(t), dt).Some?
    ensures var s' := Step(s, Advance(t), dt).value;
            && s'.tasks[t].phase.Finished? && s.tasks[t].id !in s'.CacheOf(s.tasks[t].replica)
            && Quiet(s', s.tasks[t].replica, s.tasks[t].id)
  {
    var r, id := s.tasks[t].replica, s.tasks[t].id;
    AdvanceFrame(s, t);
    var m, s' := AdvanceTask(s, t).value, Step(s, Advance(t), dt).value;
    assert s' == m.(mono := s'.mono) && r in s'.caches && id !in s'.caches[r];
    forall x | x in s'.tasks ensures !InFlight(s', s'.tasks[x], r, id) {
      assert !InFlight(s, s.tasks[x], r, id);
    }
  }

  /** So a logout that finishes with nothing in flight on its replica is observed there by
      every later request. */
  lemma LogoutIsObserved(s: State, t: Tid, dt: nat, schedule: seq<(Action, nat)>)
    requires Reachable(s) && t in s.tasks && s.tasks[t].phase.Updated? && s.tasks[t].id in s.revokedOn
    requires NoneInFlight(s, s.tasks[t].replica, s.tasks[t].id)
    requires Step(s, Advance(t), dt).Some? && Run(Step(s, Advance(t), dt).value, schedule).Some?
    ensures var s' := Step(s, Advance(t), dt).value;
            !GrantedAnew(s', Run(s', schedule).value, s.tasks[t].replica, s.tasks[t].id)
  {
    var s' := Step(s, Advance(t), dt).value;
    LogoutQuiets(s, t, dt);
    ReachableInv(s);
    StepKeeps(s, Advance(t), dt);
    StepLater(s, Advance(t), dt);
    QuietForever(s'.tasks.Keys, s', schedule, s.tasks[t].replica, s.tasks[t].id);
  }

  /** The stored session is one a lookup at that time accepts. */
  ghost predicate Acceptable(db: Table, id: Id, now: int) {
    id in db && db[id].revokedAt.None? && now < db[id].expiresAt
  }

  /** A lookup is answered from the cache exactly when it finds a live entry that is not
      revoked or expired by its clock. */
  lemma HitIff(s: State, t: Tid)
    requires t in s.tasks && s.tasks[t].kind.Lookup? && s.tasks[t].phase.Sampled?
    ensures AdvanceTask(s, t).Some?
    ensures var task, next := s.tasks[t], AdvanceTask(s, t).value.tasks[t].phase;
            var hit := LiveEntry(s, task.replica, task.id) && s.caches[task.replica][task.id].session.revokedAt.None?
                       && task.kind.now < s.caches[task.replica][task.id].session.expiresAt;
            next == if hit then Granted(s.caches[task.replica][task.id].session, s.mono, s.mono) else Missed
  {
  }

  /** `n` steps of one call. */
  function Solo(s: State, t: Tid, n: nat): State
    decreases n
  {
    if n == 0 then s
    else
      match Step(s, Advance(t), 0)
      case None => s
      case Some(s') => Solo(s', t, n - 1)
  }

  lemma MissReads(s: State, t: Tid)
    requires t in s.tasks && s.tasks[t].kind.Lookup? && s.tasks[t].phase.Missed?
    ensures var task := s.tasks[t];
            Step(s, Advance(t), 0) == Some(SetPhase(s, t,
              if Acceptable(s.db, task.id, task.kind.now) then GotRow(s.db[task.id], s.mono)
              else Refusing(if task.id in s.db then RevokedSession else InvalidSession)))
  {
  }

  lemma RowIsCached(s: State, t: Tid)
    requires t in s.tasks && s.tasks[t].phase.GotRow? && s.tasks[t].phase.readAt <= s.mono
    ensures var task, s' := s.tasks[t], Solo(s, t, 2);
            && t in s'.tasks && s'.db == s.db && s'.mono == s.mono
            && s'.tasks[t].phase ==
               (if task.kind.Lookup? then Granted(task.phase.row, task.phase.readAt, s.mono) else Finished)
            && task.id in s'.CacheOf(task.replica)
            && s'.CacheOf(task.replica)[task.id] == CacheEntry(task.phase.row, s.mono)
  {
    var s1 := Step(s, Advance(t), 0).value;
    assert s1.tasks[t].phase == Stamped(s.tasks[t].phase.row, s.mono, s.tasks[t].phase.readAt);
    assert Solo(s, t, 2) == Solo(s1, t, 1) == Step(s1, Advance(t), 0).value;
  }

  /** A lookup that misses the cache and runs alone is granted exactly when the database
      accepts the session, with the stored row, and is refused for the right reason
      otherwise; the row, or nothing, is in the cache afterwards. */
  lemma MissIsDecidedByDb(s: State, t: Tid)
    requires t in s.tasks && s.tasks[t].kind.Lookup? && s.tasks[t].phase.Missed?
    ensures var task, s' := s.tasks[t], Solo(s, t, 3);
            && t in s'.tasks && s'.db == s.db
            && if Acceptable(s.db, task.id, task.kind.now) then
                 && s'.tasks[t].phase == Granted(s.db[task.id], s.mono, s.mono)
                 && task.id in s'.CacheOf(task.replica)
                 && s'.CacheOf(task.replica)[task.id] == CacheEntry(s.db[task.id], s.mono)
               else
                 && s'.tasks[t].phase == Refused(if task.id in s.db then RevokedSession else InvalidSession)
                 && task.id !in s'.CacheOf(task.replica)
  {
    MissReads(s, t);
    var s1 := Step(s, Advance(t), 0).value;
    assert Solo(s, t, 3) == Solo(s1, t, 2);
    if Acceptable(s.db, s.tasks[t].id, s.tasks[t].kind.now) {
      RowIsCached(s1, t);
    } else {
      var s2 := Step(s1, Advance(t), 0).value;
      assert s2.tasks[t].phase.Refused? && Solo(s1, t, 2) == Solo(s2, t, 1) == s2;
    }
  }

  /** A lookup from its start, running alone: a usable cached session answers it at once,
      else the database decides. */
  lemma LookupAnswers(s: State, t: Tid, r: Rid, id: Id, now: int)
    requires t !in s.tasks
    ensures Step(s, BeginLookup(t, r, id, now), 0).Some?
    ensures var s' := Solo(Step(s, BeginLookup(t, r, id, now), 0).value, t, 4);
            var hit := LiveEntry(s, r, id) && s.caches[r][id].session.revokedAt.None?
                       && now < s.caches[r][id].session.expiresAt;
            && t in s'.tasks && s'.db == s.db
            && (hit ==> s'.tasks[t].phase == Granted(s.caches[r][id].session, s.mono, s.mono))
            && (!hit && Acceptable(s.db, id, now) ==> s'.tasks[t].phase == Granted(s.db[id], s.mono, s.mono))
            && (!hit && !Acceptable(s.db, id, now) ==>
                  s'.tasks[t].phase == Refused(if id in s.db then RevokedSession else InvalidSession))
  {
    var s1 := Step(s, BeginLookup(t, r, id, now), 0).value;
    HitIff(s1, t);
    var s2 := Step(s1, Advance(t), 0).value;
    AdvanceFrame(s1, t);
    assert Solo(s1, t, 4) == Solo(s2, t, 3);
    if s2.tasks[t].phase.Missed? {
      MissIsDecidedByDb(s2, t);
    } else {
      assert Step(s2, Advance(t), 0).None?;
    }
  }

  /** A new session, its creation running alone, is stored and cached as of now. */
  lemma CreateStores(s: State, t: Tid, r: Rid, session: Session)
    requires t !in s.tasks && session.id !in s.db && session.revokedAt.None?
    ensures Step(s, BeginCreate(t, r, session), 0).Some?
    ensures var s' := Solo(Step(s, BeginCreate(t, r, session), 0).value, t, 2);
            && t in s'.tasks && s'.tasks[t].phase.Finished? && s'.db == s.db[session.id := session]
            && session.id in s'.CacheOf(r) && s'.CacheOf(r)[session.id] == CacheEntry(session, s.mono)
  {
    RowIsCached(Step(s, BeginCreate(t, r, session), 0).value, t);
  }

  /** A logout, running alone, stamps the row if it is there and unstamped, drops the entry on
      its own replica, and leaves every other row alone. */
  lemma LogoutStamps(s: State, t: Tid, r: Rid, id: Id, now: int)
    requires t !in s.tasks
    ensures Step(s, BeginRevoke(t, r, id, now), 0).Some?
    ensures var s' := Solo(Step(s, BeginRevoke(t, r, id, now), 0).value, t, 1);
            && t in s'.tasks && s'.tasks[t].phase.Finished? && id !in s'.CacheOf(r)
            && s'.db.Keys == s.db.Keys && (forall x :: x in s.db && x != id ==> s'.db[x] == s.db[x])
            && (id in s.db && s.db[id].revokedAt.None? ==>
                  s'.db[id] == s.db[id].(revokedAt := Some(now)) && id in s'.revokedOn && s'.revokedOn[id] == s.mono)
            && (id in s.db && s.db[id].revokedAt.Some? ==> s'.db[id] == s.db[id] && s'.revokedOn == s.revokedOn)
  {
    var s1 := Step(s, BeginRevoke(t, r, id, now), 0).value;
    assert Solo(s1, t, 1) == Step(s1, Advance(t), 0).value;
  }

  // ---------------------------------------------------------------- a revocation that is missed

  lemma {:induction false} RunOneMore(s: State, schedule: seq<(Action, nat)>, a: Action, dt: nat)
    requires Run(s, schedule).Some? && Step(Run(s, schedule).value, a, dt).Some?
    ensures Run(s, schedule + [(a, dt)]) == Step(Run(s, schedule).value, a, dt)
    decreases |schedule|
  {
    var longer := schedule + [(a, dt)];
    if schedule == [] {
      assert longer[1..] == schedule;
    } else {
      assert longer[1..] == schedule[1..] + [(a, dt)];
      RunOneMore(Step(s, schedule[0].0, schedule[0].1).value, schedule[1..], a, dt);
    }
  }

  lemma ReachableStep(s: State, a: Action, dt: nat) returns (s': State)
    requires Reachable(s) && Step(s, a, dt).Some?
    ensures s' == Step(s, a, dt).value && Reachable(s')
  {
    s' := Step(s, a, dt).value;
    var s0, schedule :| Initial(s0) && Run(s0, schedule) == Some(s);
    RunOneMore(s0, schedule, a, dt);
    assert Run(s0, schedule + [(a, dt)]) == Some(s');
  }

  /** One lookup has read the row and not yet cached it. */
  lemma ReadingRow(row: Session, ttl: nat) returns (s: State)
    requires row.revokedAt.None? && 0 < row.expiresAt
    ensures Reachable(s)
    ensures s == State(0, ttl, map[row.id := row], map[], map[],
                       map[0 := Task(Lookup(0), 0, row.id, GotRow(row, 0))], 0)
  {
    var s0 := State(0, ttl, map[row.id := row], map[], map[], map[], 0);
    assert Initial(s0) && Run(s0, []) == Some(s0);
    var s1 := ReachableStep(s0, BeginLookup(0, 0, row.id, 0), 0);
    var s2 := ReachableStep(s1, Advance(0), 0);
    assert s2.tasks == map[0 := Task(Lookup(0), 0, row.id, Missed)];
    s := ReachableStep(s2, Advance(0), 0);
    assert s.tasks == map[0 := Task(Lookup(0), 0, row.id, GotRow(row, 0))];
  }

  /** Meanwhile a logout stamps the row. */
  lemma LogoutCommitted(row: Session, ttl: nat) returns (s: State)
    requires row.revokedAt.None? && 0 < row.expiresAt
    ensures Reachable(s)
            && s == State(0, ttl, map[row.id := row.(revokedAt := Some(0))], map[row.id := 0], map[], s.tasks, 0)
    ensures s.tasks == map[0 := Task(Lookup(0), 0, row.id, GotRow(row, 0)), 1 := Task(Revoking, 0, row.id, Updated)]
  {
    var s1 := ReadingRow(row, ttl);
    s := ReachableStep(s1, BeginRevoke(1, 0, row.id, 0), 0);
    assert s.tasks == s1.tasks[1 := Task(Revoking, 0, row.id, Updated)];
    assert s.db == map[row.id := row.(revokedAt := Some(0))];
  }

  /** And finishes by evicting from its cache, after which `dt` passes. */
  lemma LogoutFinished(row: Session, ttl: nat, dt: nat) returns (s: State)
    requires row.revokedAt.None? && 0 < row.expiresAt
    ensures Reachable(s) && s.ttl == ttl && s.mono == dt && s.gap == 0 && s.revokedOn == map[row.id := 0]
    ensures s.db == map[row.id := row.(revokedAt := Some(0))]
    ensures s.tasks == map[0 := Task(Lookup(0), 0, row.id, GotRow(row, 0)), 1 := Task(Revoking, 0, row.id, Finished)]
  {
    var s1 := LogoutCommitted(row, ttl);
    s := ReachableStep(s1, Advance(1), dt);
    assert s.tasks == s1.tasks[1 := Task(Revoking, 0, row.id, Finished)];
  }

  /** On a single replica, with no clock in play: a lookup reads the row, the logout runs
      to completion, and requests that start after it can still be granted. */
  lemma LogoutCanBeMissed(row: Session, ttl: nat) returns (s: State)
    requires row.revokedAt.None? && 0 < row.expiresAt && 0 < ttl
    ensures Reachable(s) && s.ttl == ttl && row.id in s.revokedOn
    ensures s.tasks == map[0 := Task(Lookup(0), 0, row.id, GotRow(row, 0)), 1 := Task(Revoking, 0, row.id, Finished)]
    ensures exists schedule :: Run(s, schedule).Some? && GrantedAnew(s, Run(s, schedule).value, 0, row.id)
  {
    s := LogoutFinished(row, ttl, 0);
    assert InFlight(s, s.tasks[0], 0, row.id);
    ReachableInv(s);
    var schedule := NoisyGrants(s, 0, row.id, 0, 2);
  }

  /** A lookup that read the row before the logout caches it `gap` later, and `wait` passes. */
  lemma StaleInsert(row: Session, ttl: nat, gap: nat, wait: nat) returns (s: State)
    requires row.revokedAt.None? && 0 < row.expiresAt
    ensures Reachable(s) && s.ttl == ttl && s.mono == gap + wait && s.gap == gap && s.revokedOn == map[row.id := 0]
    ensures 0 in s.caches && row.id in s.caches[0] && s.caches[0][row.id] == CacheEntry(row, gap)
    ensures s.tasks.Keys == {0, 1}
  {
    var s1 := LogoutFinished(row, ttl, gap);
    var s2 := ReachableStep(s1, Advance(0), 0);
    assert s2.tasks[0] == Task(Lookup(0), 0, row.id, Stamped(row, gap, 0)) && s2.gap == gap;
    assert s2.tasks.Keys == {0, 1};
    s := ReachableStep(s2, Advance(0), wait);
  }

  lemma HitStep(s: State, id: Id, t: Tid)
    requires LiveEntry(s, 0, id) && s.caches[0][id].session.IsActive(0)
    requires t in s.tasks && s.tasks[t] == Task(Lookup(0), 0, id, Sampled)
    ensures Step(s, Advance(t), 0) == Some(SetPhase(s, t, Granted(s.caches[0][id].session, s.mono, s.mono)))
  {
  }

  lemma BeginStep(s: State, id: Id, t: Tid)
    requires t !in s.tasks
    ensures Step(s, BeginLookup(t, 0, id, 0), 0) == Some(s.(tasks := s.tasks[t := Task(Lookup(0), 0, id, Sampled)]))
  {
  }

  /** A lookup that finds a live entry is granted on the spot. */
  lemma HitNow(s: State, id: Id, t: Tid) returns (s': State)
    requires Reachable(s) && LiveEntry(s, 0, id) && s.caches[0][id].session.IsActive(0) && t !in s.tasks
    ensures Reachable(s') && s'.ttl == s.ttl && s'.gap == s.gap && s'.revokedOn == s.revokedOn
    ensures t in s'.tasks && s'.tasks[t] == Task(Lookup(0), 0, id, Granted(s.caches[0][id].session, s.mono, s.mono))
  {
    BeginStep(s, id, t);
    var s1 := ReachableStep(s, BeginLookup(t, 0, id, 0), 0);
    HitStep(s1, id, t);
    s' := ReachableStep(s1, Advance(t), 0);
  }

  /** No smaller bound would do: for every window and every gap, some run grants a lookup at
      the last instant the bound allows. */
  lemma BoundIsTight(row: Session, ttl: nat, gap: nat) returns (s: State)
    requires row.revokedAt.None? && 0 < row.expiresAt && 0 < ttl
    ensures Reachable(s) && s.ttl == ttl && s.gap == gap && row.id in s.revokedOn
    ensures 2 in s.tasks && s.tasks[2].id == row.id && s.tasks[2].phase.Granted?
    ensures s.tasks[2].phase.grantedAt + 1 == s.revokedOn[row.id] + ttl + gap
  {
    var s1 := StaleInsert(row, ttl, gap, ttl - 1);
    s := HitNow(s1, row.id, 2);
  }
}
