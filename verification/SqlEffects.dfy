/** What running a statement can do to the server, independently of the guard.

    An execution is a tree: running a node performs some events, each an effect of the
    node itself or a run of one of the parts it executes, in any order and any number
    of times (a predicate runs once per row, a subquery once per outer row, some parts
    not at all). `EXPLAIN` runs its statement only with `ANALYZE`. Functions outside the
    denylist are taken to be pure, and a data write to touch its target tables only. */
module SqlEffects {
  import opened Common
  import opened SqlAst
  import opened SqlParts

  type Row = nat

  /** Rows per table, the catalog, the locks held and the server's files. */
  datatype World = World(rows: map<ObjectName, seq<Row>>, catalog: set<ObjectName>, locks: multiset<Lock>,
      files: map<string, seq<nat>>)

  datatype Effect =
    | WriteRows(table: ObjectName, rows: seq<Row>)
    | ChangeCatalog(catalog: set<ObjectName>)
    | TakeLock(lock: Lock)
    | TouchFiles(files: map<string, seq<nat>>)

  datatype Exec = Exec(node: Node, events: seq<Event>)
  datatype Event = Do(effect: Effect) | Sub(exec: Exec)

  function Perform(e: Effect, w: World): World {
    match e
    case WriteRows(table, rows) => w.(rows := w.rows[table := rows])
    case ChangeCatalog(catalog) => w.(catalog := catalog)
    case TakeLock(lock) => w.(locks := w.locks + multiset{lock})
    case TouchFiles(files) => w.(files := files)
  }

  /** The tables a data write names as its target. */
  ghost predicate IsTarget(s: Statement, table: ObjectName) {
    || (s.Insert? && table == s.into)
    || (s.Update? && s.table.relation.Table? && table == s.table.relation.name)
    || (s.Delete? && exists w :: w in s.tables && w.relation.Table? && table == w.relation.name)
  }

  /** The effects a node can have of its own accord. A denied name reaches the server's
      files, and so may a computed one, which could resolve to anything. */
  ghost predicate MayDo(n: Node, e: Effect) {
    match n
    case S(Utility(_)) => true
    case S(s) => e.WriteRows? && IsTarget(s, e.table)
    case Q(q) => e.TakeLock? && e.lock in q.locks
    case L(l) => l.into.Some? && (e.ChangeCatalog? || (e.WriteRows? && e.table == l.into.value))
    case E(Call(name, _)) => e.TouchFiles? && DeniedName(name)
    case T(Table(name, called, _)) => e.TouchFiles? && called && DeniedName(name)
    case T(TableFunction(name, _)) => e.TouchFiles? && DeniedName(name)
    case _ => false
  }

  /** The parts that run when a node runs. */
  ghost predicate Runs(n: Node, c: Node) {
    PartOf(c, n) && (n.S? && n.s.Explain? ==> Executes(n.s))
  }

  ghost predicate Possible(x: Exec)
    decreases x
  {
    forall v :: v in x.events ==> PossibleEvent(x.node, v)
  }

  ghost predicate PossibleEvent(n: Node, v: Event)
    decreases v
  {
    match v
    case Do(e) => MayDo(n, e)
    case Sub(y) => Runs(n, y.node) && Possible(y)
  }

  function Run(x: Exec, w: World): World {
    RunEvents(x.events, w)
  }

  function RunEvents(vs: seq<Event>, w: World): World {
    if vs == [] then w else RunEvents(vs[1..], RunEvent(vs[0], w))
  }

  function RunEvent(v: Event, w: World): World {
    match v
    case Do(e) => Perform(e, w)
    case Sub(y) => Run(y, w)
  }

  /** Everything but the rows of the statement's own targets is as before. */
  ghost predicate OnlyTargetRows(s: Statement, w: World, w': World) {
    && w'.catalog == w.catalog && w'.locks == w.locks && w'.files == w.files
    && forall t :: !IsTarget(s, t) ==> Get(w'.rows, t) == Get(w.rows, t)
  }

  // ---------------------------------------------------------------- the semantics is not silent

  /** Some effect of the node changes the world. */
  ghost predicate CanAct(n: Node, w: World) {
    exists e :: MayDo(n, e) && Perform(e, w) != w
  }

  lemma ActsBy(n: Node, e: Effect, w: World)
    requires MayDo(n, e) && Perform(e, w) != w
    ensures CanAct(n, w)
  {
  }
}
