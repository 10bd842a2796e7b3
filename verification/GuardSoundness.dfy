/** The guard (src/exec/sql_guard.rs) against the effects a statement can have. */
module GuardSoundness {
  import opened Common
  import opened SqlAst
  import opened SqlEffects
  import opened SqlGuard
  import opened SqlParts

  lemma CleanDoesNothing(n: Node, e: Effect)
    requires Clean(n)
    ensures !MayDo(n, e)
  {
  }

  /** A clean subtree can run any way it likes without leaving a trace. */
  lemma {:induction false} CleanRunsAreSilent(x: Exec, w: World)
    requires Possible(x) && AllClean(x.node)
    ensures Run(x, w) == w
    decreases x
  {
    SilentEvents(x.node, x.events, w);
  }

  lemma {:induction false} SilentEvents(n: Node, vs: seq<Event>, w: World)
    requires AllClean(n) && forall v :: v in vs ==> PossibleEvent(n, v)
    ensures RunEvents(vs, w) == w
    decreases vs
  {
    if vs == [] {
    } else {
      SilentEvent(n, vs[0], w);
      SilentEvents(n, vs[1..], w);
    }
  }

  lemma {:induction false} SilentEvent(n: Node, v: Event, w: World)
    requires AllClean(n) && PossibleEvent(n, v)
    ensures v.Sub? && RunEvent(v, w) == w
    decreases v
  {
    match v
    case Do(e) => CleanDoesNothing(n, e);
    case Sub(y) => PartsAreChildren(y.node, n); CleanRunsAreSilent(y, w);
  }

  /** A statement whose children are all clean touches nothing beyond its own targets,
      and nothing at all unless it is itself a data write. */
  lemma {:induction false} TopEvents(s: Statement, vs: seq<Event>, w: World)
    requires !s.Utility? && !s.Explain? && BelowClean(s)
    requires forall v :: v in vs ==> PossibleEvent(S(s), v)
    ensures OnlyTargetRows(s, w, RunEvents(vs, w))
    ensures !IsDataWrite(s) ==> RunEvents(vs, w) == w
  {
    if vs == [] {
    } else {
      assert PossibleEvent(S(s), vs[0]);
      if vs[0].Sub? {
        PartsAreChildren(vs[0].exec.node, S(s));
        CleanRunsAreSilent(vs[0].exec, w);
      }
      TopEvents(s, vs[1..], RunEvent(vs[0], w));
    }
  }

  /** A non-analyzing `EXPLAIN` runs nothing. */
  lemma ExplainRunsNothing(x: Exec)
    requires Possible(x) && x.node.S? && x.node.s.Explain? && !SomeWrapperExecutes(x.node.s)
    ensures x.events == []
  {
    if x.events != [] {
      var v := x.events[0];
      assert !PossibleEvent(x.node, v);
    }
  }

  /** Whatever the guard accepts, no run of it changes the catalog, holds a lock or
      touches a file; rows change only in the named target of a bare data write; and
      everything below the top level is silent. */
  lemma AcceptedRunsAreBounded(parsed: Option<seq<Statement>>, access: Access, x: Exec, w: World)
    requires Verdict(parsed, access).None? && x.node == S(parsed.value[0]) && Possible(x)
    ensures OnlyTargetRows(parsed.value[0], w, Run(x, w))
    ensures !IsDataWrite(parsed.value[0]) ==> Run(x, w) == w
    ensures forall y, v :: Sub(y) in x.events ==> Run(y, v) == v
  {
    AcceptedIff(parsed, access);
    var s := parsed.value[0];
    if s.Explain? {
      ExplainRunsNothing(x);
    } else {
      BelowCleanIff(s);
      TopEvents(s, x.events, w);
      forall y, v | Sub(y) in x.events ensures Run(y, v) == v {
        assert PossibleEvent(x.node, Sub(y));
        PartsAreChildren(y.node, x.node);
        CleanRunsAreSilent(y, v);
      }
    }
  }

  /** Read access is safe: no run of an accepted statement leaves any trace. */
  lemma ReadOnlyIsSafe(parsed: Option<seq<Statement>>, x: Exec, w: World)
    requires Verdict(parsed, ReadOnly).None? && x.node == S(parsed.value[0]) && Possible(x)
    ensures Run(x, w) == w
  {
    AcceptedIff(parsed, ReadOnly);
    AcceptedRunsAreBounded(parsed, ReadOnly, x, w);
  }

  // ---------------------------------------------------------------- the statements are not empty

  /** A lock clause, an INTO and a call of a denied or computed name each change the
      world when they run, from any world. */
  lemma ForbiddenPartsAct(n: Node, w: World)
    requires !Clean(n) && (n.Q? || n.L? || n.E? || (n.T? && (n.t.Table? ==> n.t.called)))
    ensures CanAct(n, w)
  {
    var files: map<string, seq<nat>> := if w.files == map[] then map["" := []] else map[];
    assert w.files == map[] ==> "" in files;
    match n
    case Q(q) =>
      var lock := q.locks[0];
      assert Perform(TakeLock(lock), w).locks[lock] == w.locks[lock] + 1;
      ActsBy(n, TakeLock(lock), w);
    case L(l) =>
      var catalog: set<ObjectName> := if w.catalog == {} then {[]} else {};
      assert w.catalog == {} ==> [] in catalog;
      ActsBy(n, ChangeCatalog(catalog), w);
    case E(Call(_, _)) => ActsBy(n, TouchFiles(files), w);
    case T(Table(_, _, _)) => ActsBy(n, TouchFiles(files), w);
    case T(TableFunction(_, _)) => ActsBy(n, TouchFiles(files), w);
  }

  /** Write access is not empty: a bare INSERT is accepted with it, refused without it, and
      has a run that stores any rows in its target. */
  lemma AcceptedWriteHappens(into: ObjectName, rows: seq<Row>, w: World)
    returns (parsed: Option<seq<Statement>>, x: Exec)
    ensures Verdict(parsed, ReadWrite).None? && Verdict(parsed, ReadOnly) == Some(NotAllowed("INSERT"))
    ensures x.node == S(parsed.value[0]) && Possible(x)
    ensures Run(x, w) == w.(rows := w.rows[into := rows])
  {
    var s := Insert(into, None, None, []);
    var write := Do(WriteRows(into, rows));
    parsed, x := Some([s]), Exec(S(s), [write]);
    assert Children(S(s)) == [];
    BelowCleanIff(s);
    AcceptedIff(parsed, ReadWrite);
    assert PossibleEvent(x.node, write);
    assert RunEvents([write], w) == RunEvents([], RunEvent(write, w));
  }
}
