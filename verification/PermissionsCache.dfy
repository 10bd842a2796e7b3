/** The per-user grant cache as an interleaving of steps (src/authz/cache.rs).

    A step is one lock acquisition, one atomic access, one store read, or one map
    update made under a lock. Any number of `get_for` calls, admin commits and
    detached invalidations interleave freely. A call may be dropped at any of its
    `.await` points; a detached invalidation is never dropped. */
module PermissionsCache {
  import opened Common
  import opened Grants
  import opened Loader

  type Tid = nat

  datatype Scope = User(sub: Sub) | Everyone {
    predicate Covers(u: Sub) {
      this == Everyone || this == User(u)
    }
  }

  /** A detached `invalidate` / `invalidate_all`. It exists from the moment the
      write it announces commits, and its phases are the steps it has left. */
  datatype InvPhase = Committed | Bumped | Locked | Removed

  /** `rev` is the revision right after the bump, `bumpedAt` and `doneAt` the instants. */
  datatype Invalidation = Invalidation(scope: Scope, phase: InvPhase, rev: nat, bumpedAt: nat, doneAt: nat)

  /** `readAt` are the instants of the store reads behind the cached grants. */
  datatype Entry = Entry(loadedAt: nat, grants: seq<Grant>, readAt: seq<nat>)

  /** Where a `get_for` call is. `rev` is its `rev_before`. */
  datatype Phase =
    | AskRead
    | Reading
    | LoopTop
    | FetchUser(rev: nat)
    | FetchGrants(rev: nat, id: Id)
    | FetchDatabases(rev: nat, id: Id, rows: seq<GrantRow>)
    | Loaded(rev: nat, grants: seq<Grant>)
    | AskWrite(rev: nat, grants: seq<Grant>)
    | Holding(rev: nat, grants: seq<Grant>)
    | Current(rev: nat, grants: seq<Grant>)
    | Returned(grants: seq<Grant>)
    | Failed(error: LoadError)
    | Dropped
  {
    predicate Done() { Returned? || Failed? || Dropped? }
    predicate HasRev() {
      FetchUser? || FetchGrants? || FetchDatabases? || Loaded? || AskWrite? || Holding? || Current?
    }
    predicate HoldsWrite() { Holding? || Current? }
  }

  /** `openedAt` is the instant of the revision load that opened the current load and
      `readAt` the store reads since; `loads` and `steps` count what the call did. */
  datatype Call = Call(sub: Sub, phase: Phase, startedAt: nat, startRev: nat, openedAt: nat, readAt: seq<nat>,
      loads: nat, steps: nat)

  datatype Holder = ByCall(t: Tid) | ByInvalidation(i: Tid)

  /** `span` is the longest time so far from the revision load that opened a load to the
      insert that ended it. */
  datatype State = State(
    now: nat, ttl: nat, span: nat, db: Db,
    revision: nat, inner: map<Sub, Entry>,
    readers: set<Tid>, writer: Option<Holder>,
    calls: map<Tid, Call>, invs: map<Tid, Invalidation>)

  /** Writes the admin API commits. Writes to a grant announce the owner of its user
      row, deletes and patches of a user announce that user, every change to the
      database table announces everyone, and creating a user announces nobody. */
  datatype Commit =
    | CreateUser(sub: Sub, id: Id)
    | PatchUser(sub: Sub)
    | DeleteUser(sub: Sub)
    | WriteGrants(id: Id, rows: seq<GrantRow>)
    | WriteDatabases(databases: map<Id, DatabaseRow>)

  datatype Action =
    | Begin(t: Tid, sub: Sub)
    | Advance(t: Tid)
    | ReadFails(t: Tid)
    | Drop(t: Tid)
    | Admin(commit: Commit, i: Tid)
    | Invalidate(i: Tid)

  // ---------------------------------------------------------------- admin commits

  predicate CanCommit(db: Db, c: Commit) {
    match c
    case CreateUser(sub, id) => sub !in db.live && id !in db.owner
    case PatchUser(sub) => sub in db.live
    case DeleteUser(sub) => sub in db.live
    case WriteGrants(id, _) => id in db.owner
    case WriteDatabases(_) => true
  }

  function StoreAfter(db: Db, c: Commit): Db
    requires CanCommit(db, c)
  {
    match c
    case CreateUser(sub, id) => db.(owner := db.owner[id := sub], live := db.live[sub := id])
    case PatchUser(_) => db
    case DeleteUser(sub) => db.(live := db.live - {sub})
    case WriteGrants(id, rows) => db.(grants := db.grants[id := rows])
    case WriteDatabases(databases) => db.(databases := databases)
  }

  /** Whom the handler invalidates after the commit. */
  function Announced(db: Db, c: Commit): Option<Scope>
    requires CanCommit(db, c)
  {
    match c
    case CreateUser(_, _) => None
    case PatchUser(sub) => Some(User(sub))
    case DeleteUser(sub) => Some(User(sub))
    case WriteGrants(id, _) => Some(User(db.owner[id]))
    case WriteDatabases(_) => Some(Everyone)
  }

  // ---------------------------------------------------------------- steps

  function SetPhase(s: State, t: Tid, phase: Phase): State
    requires t in s.calls
  {
    s.(calls := s.calls[t := s.calls[t].(phase := phase, steps := s.calls[t].steps + 1)])
  }

  /** As `SetPhase`, also recording a store read made now. */
  function SetRead(s: State, t: Tid, phase: Phase): State
    requires t in s.calls
  {
    var c := s.calls[t];
    s.(calls := s.calls[t := c.(phase := phase, steps := c.steps + 1, readAt := c.readAt + [s.now])])
  }

  /** The next step of a `get_for` call; `None` while it waits for a lock or is done. */
  function AdvanceCall(s: State, t: Tid): Option<State>
    requires t in s.calls
  {
    var c := s.calls[t];
    match c.phase
    case AskRead =>
      if s.writer.Some? then None else Some(SetPhase(s, t, Reading).(readers := s.readers + {t}))
    case Reading =>
      var s1 := s.(readers := s.readers - {t});
      if c.sub in s.inner && s.now - s.inner[c.sub].loadedAt < s.ttl then
        var e := s.inner[c.sub];
        Some(s1.(calls := s.calls[t := c.(phase := Returned(e.grants), steps := c.steps + 1, readAt := e.readAt)]))
      else Some(SetPhase(s1, t, LoopTop))
    case LoopTop =>
      Some(s.(calls := s.calls[t := c.(phase := FetchUser(s.revision), steps := c.steps + 1,
                                       openedAt := s.now, readAt := [], loads := c.loads + 1)]))
    case FetchUser(rev) =>
      if c.sub in s.db.live then Some(SetRead(s, t, FetchGrants(rev, s.db.live[c.sub])))
      else Some(SetRead(s, t, Loaded(rev, [])))
    case FetchGrants(rev, id) =>
      var rows := s.db.GrantsOf(id);
      Some(SetRead(s, t, if rows == [] then Loaded(rev, []) else FetchDatabases(rev, id, rows)))
    case FetchDatabases(rev, _, rows) =>
      (match Project(rows, s.db.databases)
       case Err(e) => Some(SetRead(s, t, Failed(e)))
       case Ok(grants) => Some(SetRead(s, t, Loaded(rev, grants))))
    case Loaded(rev, grants) =>
      Some(SetPhase(s, t, if s.revision != rev then LoopTop else AskWrite(rev, grants)))
    case AskWrite(rev, grants) =>
      if s.writer.Some? || s.readers != {} then None
      else Some(SetPhase(s, t, Holding(rev, grants)).(writer := Some(ByCall(t))))
    case Holding(rev, grants) =>
      if s.revision == rev then Some(SetPhase(s, t, Current(rev, grants)))
      else Some(SetPhase(s, t, LoopTop).(writer := None))
    case Current(_, grants) =>
      Some(SetPhase(s, t, Returned(grants)).(writer := None, inner := s.inner[c.sub := Entry(s.now, grants, c.readAt)],
                                             span := Max(s.span, s.now - c.openedAt)))
    case Returned(_) => None
    case Failed(_) => None
    case Dropped => None
  }

  function Forget(inner: map<Sub, Entry>, scope: Scope): map<Sub, Entry> {
    match scope
    case User(sub) => inner - {sub}
    case Everyone => map[]
  }

  function AdvanceInvalidation(s: State, i: Tid): Option<State>
    requires i in s.invs
  {
    var v := s.invs[i];
    match v.phase
    case Committed =>
      Some(s.(revision := s.revision + 1,
          invs := s.invs[i := v.(phase := Bumped, rev := s.revision + 1, bumpedAt := s.now)]))
    case Bumped =>
      if s.writer.Some? || s.readers != {} then None
      else Some(s.(writer := Some(ByInvalidation(i)), invs := s.invs[i := v.(phase := Locked)]))
    case Locked =>
      Some(s.(writer := None, inner := Forget(s.inner, v.scope),
          invs := s.invs[i := v.(phase := Removed, doneAt := s.now)]))
    case Removed => None
  }

  function Apply(s: State, a: Action): Option<State> {
    match a
    case Begin(t, sub) =>
      if t in s.calls then None
      else Some(s.(calls := s.calls[t := Call(sub, AskRead, s.now, s.revision, s.now, [], 0, 0)]))
    case Advance(t) => if t in s.calls then AdvanceCall(s, t) else None
    case ReadFails(t) =>
      if t in s.calls
          && (s.calls[t].phase.FetchUser? || s.calls[t].phase.FetchGrants? || s.calls[t].phase.FetchDatabases?)
      then Some(SetPhase(s, t, Failed(Repo))) else None
    case Drop(t) =>
      if t in s.calls && !s.calls[t].phase.Done() && !s.calls[t].phase.HoldsWrite() && !s.calls[t].phase.Reading?
      then Some(SetPhase(s, t, Dropped)) else None
    case Admin(c, i) =>
      if !CanCommit(s.db, c) || i in s.invs then None
      else
        var s1 := s.(db := StoreAfter(s.db, c));
        (match Announced(s.db, c)
         case None => Some(s1)
         case Some(scope) => Some(s1.(invs := s.invs[i := Invalidation(scope, Committed, 0, 0, 0)])))
    case Invalidate(i) => if i in s.invs then AdvanceInvalidation(s, i) else None
  }

  /** One step, after which at least one instant has passed. */
  function Step(s: State, a: Action, dt: nat): Option<State> {
    match Apply(s, a)
    case None => None
    case Some(s') => Some(s'.(now := s.now + 1 + dt))
  }

  /** The state after a whole schedule, if every step of it was possible. */
  function Run(s: State, schedule: seq<(Action, nat)>): Option<State> {
    if schedule == [] then Some(s)
    else
      var n := |schedule| - 1;
      match Run(s, schedule[..n])
      case None => None
      case Some(m) => Step(m, schedule[n].0, schedule[n].1)
  }

  ghost predicate Initial(s: State) {
    && s.db.Valid() && s.span == 0 && s.revision == 0 && s.inner == map[]
    && s.readers == {} && s.writer == None && s.calls == map[] && s.invs == map[]
  }

  ghost predicate Reachable(s: State) {
    exists s0, schedule :: Initial(s0) && Run(s0, schedule) == Some(s)
  }

  // ---------------------------------------------------------------- invariants

  /** Some committed write covering `u` has not bumped the revision yet. */
  ghost predicate Unbumped(invs: map<Tid, Invalidation>, u: Sub) {
    exists i :: i in invs && invs[i].scope.Covers(u) && invs[i].phase.Committed?
  }

  /** Some committed write covering `u` has not run its remove step yet. */
  ghost predicate Pending(invs: map<Tid, Invalidation>, u: Sub) {
    exists i :: i in invs && invs[i].scope.Covers(u) && !invs[i].phase.Removed?
  }

  /** What a call has read so far is what the store says now. */
  ghost predicate UpToDate(db: Db, c: Call) {
    match c.phase
    case FetchGrants(_, id) => c.sub in db.live && db.live[c.sub] == id
    case FetchDatabases(_, id, rows) => c.sub in db.live && db.live[c.sub] == id && db.GrantsOf(id) == rows
    case Loaded(_, grants) => Projection(db, c.sub) == Ok(grants)
    case AskWrite(_, grants) => Projection(db, c.sub) == Ok(grants)
    case Holding(_, grants) => Projection(db, c.sub) == Ok(grants)
    case Current(_, grants) => Projection(db, c.sub) == Ok(grants)
    case _ => true
  }

  /** A call that has not been overtaken by a bump holds current data, unless a write
      covering it has committed and not bumped; once it has re-checked the revision
      under the lock, a write that has bumped but not removed is allowed too. */
  ghost predicate CallFresh(db: Db, revision: nat, invs: map<Tid, Invalidation>, c: Call) {
    && (c.phase.HasRev() ==> c.phase.rev <= revision)
    && (c.phase.HasRev() && c.phase.rev == revision ==> UpToDate(db, c) || Unbumped(invs, c.sub))
    && (c.phase.Current? ==> UpToDate(db, c) || Pending(invs, c.sub))
  }

  ghost predicate EntryFresh(db: Db, invs: map<Tid, Invalidation>, u: Sub, e: Entry) {
    Projection(db, u) == Ok(e.grants) || Pending(invs, u)
  }

  ghost predicate FreshInv(s: State) {
    && (forall u :: u in s.inner ==> EntryFresh(s.db, s.invs, u, s.inner[u]))
    && (forall t :: t in s.calls ==> CallFresh(s.db, s.revision, s.invs, s.calls[t]))
  }

  ghost predicate LockInv(s: State) {
    && (s.writer.Some? ==> s.readers == {})
    && s.readers <= s.calls.Keys
    && (forall t :: t in s.calls ==> CallLock(s.readers, s.writer, t, s.calls[t]))
    && (forall i :: i in s.invs ==> (s.invs[i].phase.Locked? <==> s.writer == Some(ByInvalidation(i))))
    && (match s.writer
        case None => true
        case Some(ByCall(t)) => t in s.calls
        case Some(ByInvalidation(i)) => i in s.invs)
  }

  ghost predicate CallLock(readers: set<Tid>, writer: Option<Holder>, t: Tid, c: Call) {
    && (c.phase.HoldsWrite() <==> writer == Some(ByCall(t)))
    && (c.phase.Reading? <==> t in readers)
  }

  /** Order of the call's own events in time. */
  ghost predicate CallOrder(now: nat, c: Call) {
    && c.startedAt < now && c.openedAt < now
    && (c.phase.HasRev() ==> c.startedAt < c.openedAt && (forall r :: r in c.readAt ==> c.openedAt < r))
    && ((c.phase.HasRev() && !c.phase.FetchUser?) || c.phase.Returned? ==> c.readAt != [])
  }

  ghost predicate InvOrder(now: nat, revision: nat, v: Invalidation) {
    && (!v.phase.Committed? ==> v.bumpedAt < now && v.rev <= revision)
    && (v.phase.Removed? ==> v.bumpedAt < v.doneAt < now)
  }

  ghost predicate After(readAt: seq<nat>, instant: nat) {
    readAt != [] && forall r :: r in readAt ==> instant < r
  }

  /** How one invalidation relates to one call. */
  ghost predicate PairOrder(v: Invalidation, c: Call) {
    && (!v.phase.Committed? && c.phase.HasRev() && v.rev <= c.phase.rev ==> v.bumpedAt < c.openedAt)
    && (v.phase.Removed? && c.phase.Current? ==> v.rev <= c.phase.rev)
    && (v.phase.Removed? && v.scope.Covers(c.sub) && c.phase.Returned? && v.doneAt < c.startedAt ==>
       After(c.readAt, v.bumpedAt))
  }

  ghost predicate EntryOrder(v: Invalidation, u: Sub, e: Entry) {
    v.phase.Removed? && v.scope.Covers(u) ==> After(e.readAt, v.bumpedAt)
  }

  ghost predicate OrderInv(s: State) {
    && (forall t :: t in s.calls ==> CallOrder(s.now, s.calls[t]))
    && (forall i :: i in s.invs ==> InvOrder(s.now, s.revision, s.invs[i]))
    && (forall u :: u in s.inner ==> s.inner[u].readAt != [])
    && (forall i, t :: i in s.invs && t in s.calls ==> PairOrder(s.invs[i], s.calls[t]))
    && (forall i, u :: i in s.invs && u in s.inner ==> EntryOrder(s.invs[i], u, s.inner[u]))
  }

  function Rank(p: Phase): nat {
    match p
    case AskRead => 0 case Reading => 1 case LoopTop => 2 case FetchUser(_) => 3 case FetchGrants(_, _) => 4
    case FetchDatabases(_, _, _) => 5 case Loaded(_, _) => 6 case AskWrite(_, _) => 7 case Holding(_, _) => 8
    case Current(_, _) => 9 case Returned(_) => 10 case Failed(_) => 10 case Dropped => 10
  }

  /** Loads and steps are paid for by revision bumps since the call began. */
  ghost predicate CallWork(revision: nat, c: Call) {
    && c.startRev <= revision
    && (c.phase.AskRead? || c.phase.Reading? ==> c.loads == 0 && c.steps <= Rank(c.phase))
    && (c.phase.LoopTop? ==> c.loads <= revision - c.startRev && c.steps <= 7 * c.loads + 2)
    && (c.phase.HasRev() ==> c.startRev <= c.phase.rev <= revision && 1 <= c.loads <= 1 + c.phase.rev - c.startRev
                             && c.steps <= 7 * (c.loads - 1) + Rank(c.phase))
    && (c.phase.Done() ==> c.loads <= 1 + revision - c.startRev && c.steps <= 10 + 7 * (revision - c.startRev))
  }

  ghost predicate WorkInv(s: State) {
    forall t :: t in s.calls ==> CallWork(s.revision, s.calls[t])
  }

  ghost predicate Inv(s: State) {
    s.db.Valid() && LockInv(s) && FreshInv(s) && OrderInv(s) && WorkInv(s)
  }

  // ---------------------------------------------------------------- one call advances

  /** What a step of one call leaves alone. */
  ghost predicate OnlyCall(s: State, s': State, t: Tid) {
    && t in s.calls && t in s'.calls
    && s'.calls == s.calls[t := s'.calls[t]]
    && s'.calls[t].sub == s.calls[t].sub && s'.calls[t].startedAt == s.calls[t].startedAt
    && s'.db == s.db && s'.revision == s.revision && s'.invs == s.invs && s'.now == s.now
  }

  lemma AdvanceFrame(s: State, t: Tid)
    requires t in s.calls && AdvanceCall(s, t).Some?
    ensures OnlyCall(s, AdvanceCall(s, t).value, t)
  {
    match s.calls[t].phase
    case AskRead => case Reading => case LoopTop => case FetchUser(_) => case FetchGrants(_, _) =>
    case FetchDatabases(_, _, _) => case Loaded(_, _) => case AskWrite(_, _) => case Holding(_, _) =>
    case Current(_, _) => case Returned(_) => case Failed(_) => case Dropped =>
  }

  lemma AdvanceCallLock(s: State, t: Tid, x: Tid)
    requires LockInv(s) && t in s.calls && AdvanceCall(s, t).Some? && x in s.calls
    ensures var s' := AdvanceCall(s, t).value; x in s'.calls && CallLock(s'.readers, s'.writer, x, s'.calls[x])
  {
    AdvanceFrame(s, t);
    assert CallLock(s.readers, s.writer, t, s.calls[t]) && CallLock(s.readers, s.writer, x, s.calls[x]);
  }

  lemma AdvanceLock(s: State, t: Tid)
    requires LockInv(s) && t in s.calls && AdvanceCall(s, t).Some?
    ensures LockInv(AdvanceCall(s, t).value)
  {
    AdvanceFrame(s, t);
    var s' := AdvanceCall(s, t).value;
    assert CallLock(s.readers, s.writer, t, s.calls[t]);
    forall x | x in s'.calls ensures CallLock(s'.readers, s'.writer, x, s'.calls[x]) {
      AdvanceCallLock(s, t, x);
    }
  }

  lemma AdvanceWork(s: State, t: Tid)
    requires t in s.calls && CallWork(s.revision, s.calls[t]) && AdvanceCall(s, t).Some?
    ensures CallWork(s.revision, AdvanceCall(s, t).value.calls[t])
  {
    if s.calls[t].phase.HasRev() {
      AdvanceLoadWork(s, t);
    }
  }

  /** Going back to the loop top costs a bump: the revision has passed `rev`. */
  lemma AdvanceLoadWork(s: State, t: Tid)
    requires t in s.calls && s.calls[t].phase.HasRev() && CallWork(s.revision, s.calls[t]) && AdvanceCall(s, t).Some?
    ensures CallWork(s.revision, AdvanceCall(s, t).value.calls[t])
  {
    var c := s.calls[t];
    var c' := AdvanceCall(s, t).value.calls[t];
    assert c'.loads == c.loads && c'.steps == c.steps + 1 && c'.startRev == c.startRev;
    assert Rank(c.phase) + 1 <= Rank(c'.phase) || (c'.phase.LoopTop? && c.phase.rev < s.revision && Rank(c.phase) <= 8);
    assert c'.phase.HasRev() ==> c'.phase.rev == c.phase.rev;
    assert !c'.phase.AskRead? && !c'.phase.Reading?;
  }

  lemma AdvanceFresh(s: State, t: Tid)
    requires t in s.calls && CallFresh(s.db, s.revision, s.invs, s.calls[t]) && AdvanceCall(s, t).Some?
    ensures CallFresh(s.db, s.revision, s.invs, AdvanceCall(s, t).value.calls[t])
  {
    match s.calls[t].phase
    case AskRead => case Reading => case LoopTop => case FetchUser(_) => case FetchGrants(_, _) =>
    case FetchDatabases(_, _, _) => case Loaded(_, _) => case AskWrite(_, _) => case Holding(_, _) =>
    case Current(_, _) => case Returned(_) => case Failed(_) => case Dropped =>
  }

  lemma AdvanceEntry(s: State, t: Tid, u: Sub)
    requires t in s.calls && CallFresh(s.db, s.revision, s.invs, s.calls[t]) && AdvanceCall(s, t).Some?
    requires u in s.inner ==> EntryFresh(s.db, s.invs, u, s.inner[u])
    ensures u in AdvanceCall(s, t).value.inner ==> EntryFresh(s.db, s.invs, u, AdvanceCall(s, t).value.inner[u])
  {
  }

  lemma AdvanceOrder(s: State, t: Tid, later: nat)
    requires t in s.calls && CallOrder(s.now, s.calls[t]) && AdvanceCall(s, t).Some? && s.now < later
    requires forall u :: u in s.inner ==> s.inner[u].readAt != []
    ensures CallOrder(later, AdvanceCall(s, t).value.calls[t])
  {
    match s.calls[t].phase
    case AskRead => case Reading => case LoopTop => case FetchUser(_) => case FetchGrants(_, _) =>
    case FetchDatabases(_, _, _) => case Loaded(_, _) => case AskWrite(_, _) => case Holding(_, _) =>
    case Current(_, _) => case Returned(_) => case Failed(_) => case Dropped =>
  }

  lemma AdvancePair(s: State, t: Tid, i: Tid)
    requires OrderInv(s) && t in s.calls && AdvanceCall(s, t).Some? && i in s.invs
    ensures PairOrder(s.invs[i], AdvanceCall(s, t).value.calls[t])
  {
    var v, c := s.invs[i], s.calls[t];
    assert PairOrder(v, c) && CallOrder(s.now, c) && InvOrder(s.now, s.revision, v);
    match c.phase
    case Reading => if c.sub in s.inner { assert EntryOrder(v, c.sub, s.inner[c.sub]); }
    case AskRead => case LoopTop => case FetchUser(_) => case FetchGrants(_, _) =>
    case FetchDatabases(_, _, _) => case Loaded(_, _) => case AskWrite(_, _) => case Holding(_, _) =>
    case Current(_, _) => case Returned(_) => case Failed(_) => case Dropped =>
  }

  lemma AdvanceEntryOrder(s: State, t: Tid, i: Tid, u: Sub)
    requires OrderInv(s) && t in s.calls && AdvanceCall(s, t).Some? && i in s.invs
    ensures u in AdvanceCall(s, t).value.inner ==>
              EntryOrder(s.invs[i], u, AdvanceCall(s, t).value.inner[u])
  {
    var v, c := s.invs[i], s.calls[t];
    assert PairOrder(v, c) && CallOrder(s.now, c);
    assert u in s.inner ==> EntryOrder(v, u, s.inner[u]);
  }

  lemma AdvanceReadSome(s: State, t: Tid, u: Sub)
    requires t in s.calls && AdvanceCall(s, t).Some? && CallOrder(s.now, s.calls[t])
    requires u in s.inner ==> s.inner[u].readAt != []
    ensures u in AdvanceCall(s, t).value.inner ==> AdvanceCall(s, t).value.inner[u].readAt != []
  {
  }

  lemma AdvanceKeeps(s: State, t: Tid, dt: nat)
    requires Inv(s) && Step(s, Advance(t), dt).Some?
    ensures Inv(Step(s, Advance(t), dt).value)
  {
    var m := AdvanceCall(s, t).value;
    var s' := Step(s, Advance(t), dt).value;
    AdvanceFrame(s, t);
    AdvanceLock(s, t);
    AdvanceWork(s, t);
    AdvanceFresh(s, t);
    AdvanceOrder(s, t, s'.now);
    forall u | u in s'.inner ensures EntryFresh(s'.db, s'.invs, u, s'.inner[u]) && s'.inner[u].readAt != [] {
      AdvanceEntry(s, t, u);
      AdvanceReadSome(s, t, u);
    }
    forall i, x | i in s'.invs && x in s'.calls ensures PairOrder(s'.invs[i], s'.calls[x]) {
      AdvancePair(s, t, i);
      assert PairOrder(s.invs[i], s.calls[x]);
    }
    forall i, u | i in s'.invs && u in s'.inner ensures EntryOrder(s'.invs[i], u, s'.inner[u]) {
      AdvanceEntryOrder(s, t, i, u);
    }
  }

  // ---------------------------------------------------------------- one call begins, fails or is dropped

  /** A step that moves one call to a phase with no claims on the store, the lock or
      the revision keeps everything. */
  lemma QuietCallKeeps(s: State, s': State, t: Tid)
    requires Inv(s) && t in s'.calls && s' == s.(now := s'.now, calls := s.calls[t := s'.calls[t]]) && s.now < s'.now
    requires var p := s'.calls[t].phase; p.AskRead? || p.Failed? || p.Dropped?
    requires CallWork(s'.revision, s'.calls[t]) && CallOrder(s'.now, s'.calls[t])
    requires t in s.calls ==> !s.calls[t].phase.HoldsWrite() && !s.calls[t].phase.Reading?
    ensures Inv(s')
  {
    assert CallLock(s'.readers, s'.writer, t, s'.calls[t]) by {
      if t in s.calls { assert CallLock(s.readers, s.writer, t, s.calls[t]); }
    }
    QuietCallOrder(s, s', t);
    forall x | x in s'.calls ensures CallFresh(s'.db, s'.revision, s'.invs, s'.calls[x]) {
      if x != t { assert CallFresh(s.db, s.revision, s.invs, s.calls[x]); }
    }
  }

  lemma QuietCallOrder(s: State, s': State, t: Tid)
    requires OrderInv(s) && t in s'.calls && s' == s.(now := s'.now, calls := s.calls[t := s'.calls[t]])
    requires s.now < s'.now
    requires var p := s'.calls[t].phase; p.AskRead? || p.Failed? || p.Dropped?
    requires CallOrder(s'.now, s'.calls[t])
    ensures OrderInv(s')
  {
    forall i, x | i in s'.invs && x in s'.calls ensures PairOrder(s'.invs[i], s'.calls[x]) {
      if x != t { assert PairOrder(s.invs[i], s.calls[x]); }
    }
    forall x | x in s'.calls ensures CallOrder(s'.now, s'.calls[x]) {
      if x != t { assert CallOrder(s.now, s.calls[x]); }
    }
  }

  lemma CallEdgeKeeps(s: State, a: Action, dt: nat)
    requires Inv(s) && (a.Begin? || a.ReadFails? || a.Drop?) && Step(s, a, dt).Some?
    ensures Inv(Step(s, a, dt).value)
  {
    var s' := Step(s, a, dt).value;
    if !a.Begin? {
      assert CallWork(s.revision, s.calls[a.t]) && CallOrder(s.now, s.calls[a.t]);
    }
    QuietCallKeeps(s, s', a.t);
  }

  // ---------------------------------------------------------------- an invalidation advances

  lemma WitnessSurvives(s: State, i: Tid, u: Sub)
    requires i in s.invs && AdvanceInvalidation(s, i).Some?
    ensures Unbumped(s.invs, u) && !s.invs[i].phase.Committed? ==> Unbumped(AdvanceInvalidation(s, i).value.invs, u)
    ensures Pending(s.invs, u) && !s.invs[i].phase.Locked? ==> Pending(AdvanceInvalidation(s, i).value.invs, u)
    ensures Pending(s.invs, u) && !s.invs[i].scope.Covers(u) ==> Pending(AdvanceInvalidation(s, i).value.invs, u)
  {
    var invs' := AdvanceInvalidation(s, i).value.invs;
    if Unbumped(s.invs, u) && !s.invs[i].phase.Committed? {
      var w :| w in s.invs && s.invs[w].scope.Covers(u) && s.invs[w].phase.Committed?;
      assert invs'[w] == s.invs[w];
    }
    if Pending(s.invs, u) && (!s.invs[i].phase.Locked? || !s.invs[i].scope.Covers(u)) {
      var w :| w in s.invs && s.invs[w].scope.Covers(u) && !s.invs[w].phase.Removed?;
      assert w in invs' && invs'[w].scope.Covers(u) && !invs'[w].phase.Removed?;
    }
  }

  lemma InvalidateFresh(s: State, i: Tid)
    requires LockInv(s) && FreshInv(s) && i in s.invs && AdvanceInvalidation(s, i).Some?
    ensures FreshInv(AdvanceInvalidation(s, i).value)
  {
    var s' := AdvanceInvalidation(s, i).value;
    forall u | u in s'.inner ensures EntryFresh(s'.db, s'.invs, u, s'.inner[u]) {
      assert EntryFresh(s.db, s.invs, u, s.inner[u]);
      WitnessSurvives(s, i, u);
    }
    forall t | t in s'.calls ensures CallFresh(s'.db, s'.revision, s'.invs, s'.calls[t]) {
      assert CallFresh(s.db, s.revision, s.invs, s.calls[t]);
      assert CallLock(s.readers, s.writer, t, s.calls[t]);
      WitnessSurvives(s, i, s.calls[t].sub);
    }
  }

  lemma InvalidateLock(s: State, i: Tid)
    requires LockInv(s) && i in s.invs && AdvanceInvalidation(s, i).Some?
    ensures LockInv(AdvanceInvalidation(s, i).value)
  {
    var s' := AdvanceInvalidation(s, i).value;
    forall t | t in s'.calls ensures CallLock(s'.readers, s'.writer, t, s'.calls[t]) {
      assert CallLock(s.readers, s.writer, t, s.calls[t]);
    }
  }

  lemma InvalidatePair(s: State, i: Tid, dt: nat, x: Tid, t: Tid)
    requires Inv(s) && Step(s, Invalidate(i), dt).Some? && x in s.invs && t in s.calls
    ensures PairOrder(Step(s, Invalidate(i), dt).value.invs[x], s.calls[t])
  {
    assert PairOrder(s.invs[x], s.calls[t]) && CallLock(s.readers, s.writer, t, s.calls[t])
           && CallOrder(s.now, s.calls[t]);
    assert CallFresh(s.db, s.revision, s.invs, s.calls[t]);
  }

  lemma InvalidateEntryOrder(s: State, i: Tid, dt: nat)
    requires OrderInv(s) && Step(s, Invalidate(i), dt).Some?
    ensures var s' := Step(s, Invalidate(i), dt).value;
            && (forall x :: x in s'.invs ==> InvOrder(s'.now, s'.revision, s'.invs[x]))
            && (forall x, u :: x in s'.invs && u in s'.inner ==> EntryOrder(s'.invs[x], u, s'.inner[u]))
  {
    var s' := Step(s, Invalidate(i), dt).value;
    forall x | x in s'.invs ensures InvOrder(s'.now, s'.revision, s'.invs[x]) {
      assert InvOrder(s.now, s.revision, s.invs[x]);
    }
    forall x, u | x in s'.invs && u in s'.inner ensures EntryOrder(s'.invs[x], u, s'.inner[u]) {
      assert EntryOrder(s.invs[x], u, s.inner[u]);
    }
  }

  lemma InvalidateOrder(s: State, i: Tid, dt: nat)
    requires Inv(s) && Step(s, Invalidate(i), dt).Some?
    ensures OrderInv(Step(s, Invalidate(i), dt).value)
  {
    var s' := Step(s, Invalidate(i), dt).value;
    InvalidateEntryOrder(s, i, dt);
    assert s'.calls == s.calls && s'.invs.Keys == s.invs.Keys;
    forall t | t in s'.calls ensures CallOrder(s'.now, s'.calls[t]) {
      assert CallOrder(s.now, s.calls[t]);
    }
    forall x, t | x in s'.invs && t in s'.calls ensures PairOrder(s'.invs[x], s'.calls[t]) {
      InvalidatePair(s, i, dt, x, t);
    }
  }

  lemma InvalidateWork(s: State, i: Tid, dt: nat)
    requires WorkInv(s) && Step(s, Invalidate(i), dt).Some?
    ensures WorkInv(Step(s, Invalidate(i), dt).value)
  {
    var s' := Step(s, Invalidate(i), dt).value;
    forall t | t in s'.calls ensures CallWork(s'.revision, s'.calls[t]) {
      assert CallWork(s.revision, s.calls[t]);
    }
  }

  lemma TimePasses(s: State, later: nat)
    requires LockInv(s) && FreshInv(s)
    ensures LockInv(s.(now := later)) && FreshInv(s.(now := later))
  {
  }

  lemma InvalidateKeeps(s: State, i: Tid, dt: nat)
    requires Inv(s) && Step(s, Invalidate(i), dt).Some?
    ensures Inv(Step(s, Invalidate(i), dt).value)
  {
    InvalidateFresh(s, i);
    InvalidateLock(s, i);
    InvalidateOrder(s, i, dt);
    InvalidateWork(s, i, dt);
    TimePasses(AdvanceInvalidation(s, i).value, s.now + 1 + dt);
  }

  // ---------------------------------------------------------------- an admin write commits

  /** A commit changes what a load for `u` can see only if it announces `u`; the one
      exception, a new user row, leaves the projection as it was. */
  lemma CommitFrame(db: Db, c: Commit, call: Call)
    requires db.Valid() && CanCommit(db, c)
    requires Announced(db, c).None? || !Announced(db, c).value.Covers(call.sub)
    ensures Projection(StoreAfter(db, c), call.sub) == Projection(db, call.sub)
    ensures UpToDate(db, call) ==> UpToDate(StoreAfter(db, c), call)
  {
  }

  lemma AdminWitness(s: State, c: Commit, i: Tid, u: Sub)
    requires Apply(s, Admin(c, i)).Some?
    ensures Unbumped(s.invs, u) ==> Unbumped(Apply(s, Admin(c, i)).value.invs, u)
    ensures Pending(s.invs, u) ==> Pending(Apply(s, Admin(c, i)).value.invs, u)
    ensures Announced(s.db, c).Some? && Announced(s.db, c).value.Covers(u) ==>
              Unbumped(Apply(s, Admin(c, i)).value.invs, u) && Pending(Apply(s, Admin(c, i)).value.invs, u)
  {
    var invs' := Apply(s, Admin(c, i)).value.invs;
    if Unbumped(s.invs, u) {
      var w :| w in s.invs && s.invs[w].scope.Covers(u) && s.invs[w].phase.Committed?;
      assert invs'[w] == s.invs[w];
    }
    if Pending(s.invs, u) {
      var w :| w in s.invs && s.invs[w].scope.Covers(u) && !s.invs[w].phase.Removed?;
      assert invs'[w] == s.invs[w];
    }
    if Announced(s.db, c).Some? && Announced(s.db, c).value.Covers(u) {
      assert i in invs' && invs'[i].scope.Covers(u) && invs'[i].phase.Committed?;
    }
  }

  lemma AdminKeeps(s: State, c: Commit, i: Tid, dt: nat)
    requires Inv(s) && Step(s, Admin(c, i), dt).Some?
    ensures Inv(Step(s, Admin(c, i), dt).value)
  {
    var s' := Step(s, Admin(c, i), dt).value;
    forall u | u in s'.inner ensures EntryFresh(s'.db, s'.invs, u, s'.inner[u]) {
      assert EntryFresh(s.db, s.invs, u, s.inner[u]);
      AdminWitness(s, c, i, u);
      if Announced(s.db, c).None? || !Announced(s.db, c).value.Covers(u) {
        CommitFrame(s.db, c, Call(u, LoopTop, 0, 0, 0, [], 0, 0));
      }
    }
    forall t | t in s'.calls ensures CallFresh(s'.db, s'.revision, s'.invs, s'.calls[t]) {
      var call := s.calls[t];
      assert CallFresh(s.db, s.revision, s.invs, call);
      AdminWitness(s, c, i, call.sub);
      if Announced(s.db, c).None? || !Announced(s.db, c).value.Covers(call.sub) {
        CommitFrame(s.db, c, call);
      }
    }
    AdminOrder(s, c, i, dt);
  }

  lemma AdminOrder(s: State, c: Commit, i: Tid, dt: nat)
    requires Inv(s) && Step(s, Admin(c, i), dt).Some?
    ensures var s' := Step(s, Admin(c, i), dt).value; s'.db.Valid() && LockInv(s') && OrderInv(s') && WorkInv(s')
  {
    var s' := Step(s, Admin(c, i), dt).value;
    assert s' == s.(now := s'.now, db := s'.db, invs := s'.invs) && s'.db == StoreAfter(s.db, c);
    assert s'.invs == s.invs || (i !in s.invs && s'.invs == s.invs[i := s'.invs[i]] && s'.invs[i].phase.Committed?);
    ValidKept(s.db, c);
    AnnounceOrder(s, s', i);
  }

  lemma ValidKept(db: Db, c: Commit)
    requires db.Valid() && CanCommit(db, c)
    ensures StoreAfter(db, c).Valid()
  {
  }

  lemma AnnounceOrder(s: State, s': State, i: Tid)
    requires LockInv(s) && OrderInv(s) && WorkInv(s) && s.now < s'.now
    requires s' == s.(now := s'.now, db := s'.db, invs := s'.invs)
    requires s'.invs == s.invs
             || (i !in s.invs && i in s'.invs && s'.invs == s.invs[i := s'.invs[i]] && s'.invs[i].phase.Committed?)
    ensures LockInv(s') && OrderInv(s') && WorkInv(s')
  {
    forall x, t | x in s'.invs && t in s'.calls ensures PairOrder(s'.invs[x], s'.calls[t]) {
      if x in s.invs { assert PairOrder(s.invs[x], s.calls[t]); }
    }
    forall t | t in s'.calls ensures CallOrder(s'.now, s'.calls[t]) {
      assert CallOrder(s.now, s.calls[t]);
    }
  }

  // ---------------------------------------------------------------- whole runs

  lemma StepKeeps(s: State, a: Action, dt: nat)
    requires Inv(s) && Step(s, a, dt).Some?
    ensures Inv(Step(s, a, dt).value)
  {
    match a
    case Begin(_, _) => CallEdgeKeeps(s, a, dt);
    case ReadFails(_) => CallEdgeKeeps(s, a, dt);
    case Drop(_) => CallEdgeKeeps(s, a, dt);
    case Advance(t) => AdvanceKeeps(s, t, dt);
    case Admin(c, i) => AdminKeeps(s, c, i, dt);
    case Invalidate(i) => InvalidateKeeps(s, i, dt);
  }

  lemma {:induction false} RunKeeps(s: State, schedule: seq<(Action, nat)>)
    requires Inv(s) && Run(s, schedule).Some?
    ensures Inv(Run(s, schedule).value)
  {
    if schedule == [] {
    } else {
      var n := |schedule| - 1;
      RunKeeps(s, schedule[..n]);
      StepKeeps(Run(s, schedule[..n]).value, schedule[n].0, schedule[n].1);
    }
  }

  lemma ReachableInv(s: State)
    requires Reachable(s)
    ensures Inv(s)
  {
    var s0, schedule :| Initial(s0) && Run(s0, schedule) == Some(s);
    RunKeeps(s0, schedule);
  }

  /** In every interleaving, each cached grant set is what a load of the current store
      would give, or a committed write covering that user has still to remove it. */
  lemma CachedIsCurrentOrPending(s: State, u: Sub)
    requires Reachable(s) && u in s.inner
    ensures Projection(s.db, u) == Ok(s.inner[u].grants) || Pending(s.invs, u)
  {
    ReachableInv(s);
    assert EntryFresh(s.db, s.invs, u, s.inner[u]);
  }

  /** A call returns either a fresh cached entry or what it has just inserted. */
  lemma ReturnsFrom(s: State, t: Tid)
    requires t in s.calls && AdvanceCall(s, t).Some? && AdvanceCall(s, t).value.calls[t].phase.Returned?
    ensures var c, out := s.calls[t], AdvanceCall(s, t).value.calls[t].phase.grants;
            || (c.phase.Reading? && c.sub in s.inner && s.inner[c.sub].grants == out
               && s.now - s.inner[c.sub].loadedAt < s.ttl)
            || (c.phase.Current? && c.phase.grants == out)
  {
  }

  /** At the instant a call returns, on the fast path or after any number of retries,
      its grants are current or a committed write covering the user is still pending. */
  lemma ReturnIsCurrentOrPending(s: State, t: Tid, dt: nat)
    requires Reachable(s) && Step(s, Advance(t), dt).Some? && Step(s, Advance(t), dt).value.calls[t].phase.Returned?
    ensures var s' := Step(s, Advance(t), dt).value;
            Projection(s'.db, s'.calls[t].sub) == Ok(s'.calls[t].phase.grants) || Pending(s'.invs, s'.calls[t].sub)
  {
    ReachableInv(s);
    AdvanceFrame(s, t);
    ReturnsFrom(s, t);
    var c := s.calls[t];
    assert CallFresh(s.db, s.revision, s.invs, c);
    if c.phase.Reading? { assert EntryFresh(s.db, s.invs, c.sub, s.inner[c.sub]); }
  }

  /** A call that began after a covering invalidation returned gives grants whose every
      store read came after that invalidation's revision bump. */
  lemma ReadsFollowInvalidation(s: State, t: Tid, i: Tid)
    requires Reachable(s) && t in s.calls && i in s.invs && s.calls[t].phase.Returned?
    requires s.invs[i].phase.Removed? && s.invs[i].scope.Covers(s.calls[t].sub)
    requires s.invs[i].doneAt < s.calls[t].startedAt
    ensures After(s.calls[t].readAt, s.invs[i].bumpedAt)
  {
    ReachableInv(s);
    assert PairOrder(s.invs[i], s.calls[t]);
  }

  /** The retry loop is bounded by the bumps that happen while the call runs. */
  lemma WorkBoundedByBumps(s: State, t: Tid)
    requires Reachable(s) && t in s.calls
    ensures s.calls[t].startRev <= s.revision
    ensures s.calls[t].loads <= 1 + s.revision - s.calls[t].startRev
    ensures s.calls[t].steps <= 10 + 7 * (s.revision - s.calls[t].startRev)
  {
    ReachableInv(s);
    assert CallWork(s.revision, s.calls[t]);
  }

  /** No deadlock: an unfinished call or invalidation can step, or whoever it waits
      for on the map lock can. */
  lemma SomeoneCanStep(s: State, a: Action)
    requires Reachable(s)
    requires (a.Advance? && a.t in s.calls && !s.calls[a.t].phase.Done())
             || (a.Invalidate? && a.i in s.invs && !s.invs[a.i].phase.Removed?)
    ensures Apply(s, a).Some?
            || (exists t :: t in s.readers && Apply(s, Advance(t)).Some?)
            || (s.writer.Some? && s.writer.value.ByCall? && Apply(s, Advance(s.writer.value.t)).Some?)
            || (s.writer.Some? && s.writer.value.ByInvalidation? && Apply(s, Invalidate(s.writer.value.i)).Some?)
  {
    ReachableInv(s);
    if s.readers != {} {
      var t :| t in s.readers;
      assert CallLock(s.readers, s.writer, t, s.calls[t]);
      assert Apply(s, Advance(t)).Some?;
    } else if s.writer.Some? && s.writer.value.ByCall? {
      var t := s.writer.value.t;
      assert CallLock(s.readers, s.writer, t, s.calls[t]);
    }
  }

  /** A load that fails, and a call that is dropped, leave the cache as it was. */
  lemma FailureCachesNothing(s: State, a: Action, dt: nat)
    requires a.Advance? || a.ReadFails? || a.Drop?
    requires Step(s, a, dt).Some? && Step(s, a, dt).value.calls[a.t].phase.Done()
    requires !Step(s, a, dt).value.calls[a.t].phase.Returned?
    ensures Step(s, a, dt).value.inner == s.inner && Step(s, a, dt).value.revision == s.revision
  {
  }

  // ---------------------------------------------------------------- what a call and an invalidation achieve

  /** Apart from a store that does not answer, only a malformed row with a live target fails
      a call, with the loader's error. */
  lemma FailsOnlyOnBadRow(s: State, t: Tid)
    requires t in s.calls && AdvanceCall(s, t).Some? && AdvanceCall(s, t).value.calls[t].phase.Failed?
    ensures s.calls[t].phase.FetchDatabases?
    ensures var rows, e := s.calls[t].phase.rows, AdvanceCall(s, t).value.calls[t].phase.error;
            Project(rows, s.db.databases) == Err(e) && !AllDecode(Kept(rows, s.db.databases))
  {
    ProjectExact(s.calls[t].phase.rows, s.db.databases);
  }

  /** A load that a bump has overtaken starts over, and gives the lock back if it had it. */
  lemma OvertakenLoadsRetry(s: State, t: Tid)
    requires t in s.calls && (s.calls[t].phase.Loaded? || s.calls[t].phase.Holding?)
    requires s.calls[t].phase.rev != s.revision
    ensures AdvanceCall(s, t).Some? && AdvanceCall(s, t).value.calls[t].phase == LoopTop
    ensures AdvanceCall(s, t).value.inner == s.inner
    ensures s.calls[t].phase.Holding? ==> AdvanceCall(s, t).value.writer.None?
  {
  }

  /** Whom a write is about, as the admin API promises: the owner of the grants or the user
      row it changes, everyone for the database table, nobody for a new user. */
  lemma AnnouncedExactly(db: Db, c: Commit, u: Sub)
    requires CanCommit(db, c)
    ensures var told := Announced(db, c).Some? && Announced(db, c).value.Covers(u);
            && (c.WriteDatabases? ==> told) && (c.CreateUser? ==> !told)
            && (c.PatchUser? || c.DeleteUser? ==> (told <==> u == c.sub))
            && (c.WriteGrants? ==> (told <==> u == db.owner[c.id]))
  {
  }

  /** What a commit does to the grants of the user it is about. */
  lemma CommitTakesEffect(db: Db, c: Commit, sub: Sub)
    requires db.Valid() && CanCommit(db, c)
    ensures var now := Projection(StoreAfter(db, c), sub);
            && (c.DeleteUser? && c.sub == sub ==> now == Ok([]))
            && (c.CreateUser? && c.sub == sub ==> now == Ok([]) && StoreAfter(db, c).live[sub] == c.id)
            && (c.PatchUser? ==> now == Projection(db, sub))
            && (c.WriteGrants? && sub in db.live && db.live[sub] == c.id ==> now == Project(c.rows, db.databases))
            && (c.WriteDatabases? && sub in db.live ==> now == Project(db.GrantsOf(db.live[sub]), c.databases))
  {
  }

  /** The map lock is shared by readers and kept from them only by a writer. */
  lemma ReadersShare(s: State, t: Tid)
    requires t in s.calls && s.calls[t].phase.AskRead?
    ensures AdvanceCall(s, t).Some? <==> s.writer.None?
    ensures s.writer.None? ==> AdvanceCall(s, t).value.readers == s.readers + {t}
  {
  }

  /** The last step of an invalidation drops exactly the entries it covers. */
  lemma RemovalIsExact(s: State, i: Tid, u: Sub)
    requires i in s.invs && s.invs[i].phase.Locked?
    ensures AdvanceInvalidation(s, i).Some?
    ensures Get(AdvanceInvalidation(s, i).value.inner, u) == if s.invs[i].scope.Covers(u) then None else Get(s.inner, u)
  {
  }
}
