/** The part of the SQL syntax tree the guard inspects, and the generic pre-order walk
    over it (the `Visit` derive used by src/exec/sql_guard.rs). */
module SqlAst {
  import opened Common

  /** `Computed` is a name part that is not a plain identifier. */
  datatype NamePart = Ident(value: string) | Computed

  type ObjectName = seq<NamePart>

  datatype Statement =
    | Select(query: Query)
    | Insert(into: ObjectName, source: Option<Query>, on: Option<OnInsert>, returning: seq<Expr>)
    | Update(table: TableWithJoins, assignments: seq<Expr>, from: seq<TableWithJoins>, where: seq<Expr>,
        returning: seq<Expr>)
    | Delete(tables: seq<TableWithJoins>, using: seq<TableWithJoins>, where: seq<Expr>, returning: seq<Expr>)
    | Explain(analyze: bool, options: Option<seq<string>>, statement: Statement)
    | ExplainTable(name: ObjectName)
    | Utility(kind: UtilityKind)

  datatype UtilityKind =
    | Truncate | Drop | CreateTable | CreateView | CreateIndex | CreateSchema | CreateDatabase | CreateFunction
    | CreateRole | AlterTable | GrantTo | RevokeFrom | StartTransaction | CommitTransaction | RollbackTransaction
    | SetTransaction | SetOther | CopyData | Unsupported

  datatype OnInsert = DuplicateKeyUpdate(exprs: seq<Expr>) | OnConflict(exprs: seq<Expr>) | OtherOn(exprs: seq<Expr>)

  datatype Lock = ForUpdate | ForShare

  datatype Query = Query(ctes: seq<Query>, body: SetExpr, tail: seq<Expr>, locks: seq<Lock>)

  datatype SetExpr =
    | SelectBody(select: SelectExpr)
    | QueryBody(query: Query)
    | SetOperation(left: SetExpr, right: SetExpr)
    | Values(rows: seq<Expr>)
    | StatementBody(statement: Statement)
    | TableBody

  datatype SelectExpr = SelectExpr(projection: seq<Expr>, into: Option<ObjectName>, from: seq<TableWithJoins>,
      clauses: seq<Expr>)

  datatype TableWithJoins = TableWithJoins(relation: TableFactor, joins: seq<Join>)

  datatype Join = Join(relation: TableFactor, constraint: seq<Expr>)

  datatype TableFactor =
    | Table(name: ObjectName, called: bool, args: seq<Expr>)
    | TableFunction(name: ObjectName, exprs: seq<Expr>)
    | Derived(query: Query)
    | NestedJoin(join: TableWithJoins)
    | Unnest(exprs: seq<Expr>)

  datatype Expr =
    | Leaf
    | Call(name: ObjectName, args: seq<Expr>)
    | Subquery(query: Query)
    | Compound(parts: seq<Expr>)

  /** A position in the tree. */
  datatype Node =
    | S(s: Statement) | Q(q: Query) | B(b: SetExpr) | L(l: SelectExpr)
    | W(w: TableWithJoins) | J(j: Join) | T(t: TableFactor) | E(e: Expr)

  // ---------------------------------------------------------------- children

  function Es(es: seq<Expr>): (ns: seq<Node>)
    ensures forall n :: n in ns ==> n.E? && n.e in es
  {
    seq(|es|, i requires 0 <= i < |es| => E(es[i]))
  }

  function Qs(qs: seq<Query>): (ns: seq<Node>)
    ensures |ns| == |qs| && forall n :: n in ns ==> n.Q? && n.q in qs
  {
    seq(|qs|, i requires 0 <= i < |qs| => Q(qs[i]))
  }

  function Ws(ws: seq<TableWithJoins>): (ns: seq<Node>)
    ensures forall n :: n in ns ==> n.W? && n.w in ws
  {
    seq(|ws|, i requires 0 <= i < |ws| => W(ws[i]))
  }

  function Js(js: seq<Join>): (ns: seq<Node>)
    ensures forall n :: n in ns ==> n.J? && n.j in js
  {
    seq(|js|, i requires 0 <= i < |js| => J(js[i]))
  }

  function ChildrenS(s: Statement): (cs: seq<Node>)
    ensures forall c :: c in cs ==> !c.B? && !c.L? && Size(c) < SizeS(s)
  {
    match s
    case Select(q) => [Q(q)]
    case Insert(_, source, on, returning) =>
      (match source case None => [] case Some(q) => [Q(q)])
      + (match on case None => [] case Some(o) => Es(o.exprs))
      + Es(returning)
    case Update(table, assignments, from, where, returning) =>
      [W(table)] + Es(assignments) + Ws(from) + Es(where) + Es(returning)
    case Delete(tables, using, where, returning) => Ws(tables) + Ws(using) + Es(where) + Es(returning)
    case Explain(_, _, s) => [S(s)]
    case ExplainTable(_) => []
    case Utility(_) => []
  }

  function ChildrenB(b: SetExpr): (cs: seq<Node>)
    ensures forall c :: c in cs ==> Size(c) < SizeB(b)
  {
    match b
    case SelectBody(l) => [L(l)]
    case QueryBody(q) => [Q(q)]
    case SetOperation(left, right) => [B(left), B(right)]
    case Values(rows) => Es(rows)
    case StatementBody(s) => [S(s)]
    case TableBody => []
  }

  function ChildrenT(t: TableFactor): (cs: seq<Node>)
    ensures forall c :: c in cs ==> !c.B? && !c.L? && Size(c) < SizeT(t)
  {
    match t
    case Table(_, _, args) => Es(args)
    case TableFunction(_, es) => Es(es)
    case Derived(q) => [Q(q)]
    case NestedJoin(w) => [W(w)]
    case Unnest(es) => Es(es)
  }

  function ChildrenE(e: Expr): (cs: seq<Node>)
    ensures forall c :: c in cs ==> !c.B? && !c.L? && Size(c) < SizeE(e)
  {
    match e
    case Leaf => []
    case Call(_, args) => Es(args)
    case Subquery(q) => [Q(q)]
    case Compound(parts) => Es(parts)
  }

  /** The direct children of a node, in visiting order. */
  function Children(n: Node): (cs: seq<Node>)
    ensures forall c :: c in cs ==> Size(c) < Size(n)
  {
    match n
    case S(s) => ChildrenS(s)
    case Q(q) => Qs(q.ctes) + [B(q.body)] + Es(q.tail)
    case B(b) => ChildrenB(b)
    case L(l) => Es(l.projection) + Ws(l.from) + Es(l.clauses)
    case W(w) => [T(w.relation)] + Js(w.joins)
    case J(j) => [T(j.relation)] + Es(j.constraint)
    case T(t) => ChildrenT(t)
    case E(e) => ChildrenE(e)
  }

  /** Every node below `n`, `n` first, in the order the walk reaches them. */
  function PreOrder(n: Node): (ns: seq<Node>)
    ensures ns != [] && ns[0] == n
    decreases Size(n), 1
  {
    [n] + Flatten(Walks(n))
  }

  /** The walks of the children, one after another. */
  function Walks(n: Node): (walks: seq<seq<Node>>)
    ensures |walks| == |Children(n)| && forall i :: 0 <= i < |walks| ==> walks[i] == PreOrder(Children(n)[i])
    decreases Size(n), 0
  {
    seq(|Children(n)|, i requires 0 <= i < |Children(n)| => PreOrder(Children(n)[i]))
  }

  function Flatten<X>(xss: seq<seq<X>>): seq<X> {
    if xss == [] then [] else Flatten(xss[..|xss| - 1]) + xss[|xss| - 1]
  }

  lemma {:induction false} FlattenMembers<X>(xss: seq<seq<X>>, x: X)
    ensures x in Flatten(xss) <==> exists k :: 0 <= k < |xss| && x in xss[k]
  {
    if xss == [] {
    } else {
      var init := xss[..|xss| - 1];
      FlattenMembers(init, x);
      assert forall k :: 0 <= k < |init| ==> init[k] == xss[k];
    }
  }

  // ---------------------------------------------------------------- termination measure

  function Size(n: Node): nat {
    match n
    case S(s) => SizeS(s) case Q(q) => SizeQ(q) case B(b) => SizeB(b) case L(l) => SizeL(l)
    case W(w) => SizeW(w) case J(j) => SizeJ(j) case T(t) => SizeT(t) case E(e) => SizeE(e)
  }

  function SizeS(s: Statement): nat
    decreases s, 1
  {
    match s
    case Select(q) => 1 + SizeQ(q)
    case Insert(_, source, on, returning) =>
      1 + (match source case None => 0 case Some(q) => SizeQ(q))
          + (match on case None => 0 case Some(o) => SizeEs(o.exprs)) + SizeEs(returning)
    case Update(table, assignments, from, where, returning) =>
      1 + SizeW(table) + SizeEs(assignments) + SizeWs(from) + SizeEs(where) + SizeEs(returning)
    case Delete(tables, using, where, returning) => 1 + SizeWs(tables) + SizeWs(using) + SizeEs(where)
        + SizeEs(returning)
    case Explain(_, _, s) => 1 + SizeS(s)
    case ExplainTable(_) => 1
    case Utility(_) => 1
  }

  function SizeQ(q: Query): nat
    decreases q, 1
  {
    1 + SizeQs(q.ctes) + SizeB(q.body) + SizeEs(q.tail)
  }

  function SizeB(b: SetExpr): nat
    decreases b, 1
  {
    match b
    case SelectBody(l) => 1 + SizeL(l)
    case QueryBody(q) => 1 + SizeQ(q)
    case SetOperation(left, right) => 1 + SizeB(left) + SizeB(right)
    case Values(rows) => 1 + SizeEs(rows)
    case StatementBody(s) => 1 + SizeS(s)
    case TableBody => 1
  }

  function SizeL(l: SelectExpr): nat
    decreases l, 1
  {
    1 + SizeEs(l.projection) + SizeWs(l.from) + SizeEs(l.clauses)
  }

  function SizeW(w: TableWithJoins): nat
    decreases w, 1
  {
    1 + SizeT(w.relation) + SizeJs(w.joins)
  }

  function SizeJ(j: Join): nat
    decreases j, 1
  {
    1 + SizeT(j.relation) + SizeEs(j.constraint)
  }

  function SizeT(t: TableFactor): nat
    decreases t, 1
  {
    match t
    case Table(_, _, args) => 1 + SizeEs(args)
    case TableFunction(_, es) => 1 + SizeEs(es)
    case Derived(q) => 1 + SizeQ(q)
    case NestedJoin(w) => 1 + SizeW(w)
    case Unnest(es) => 1 + SizeEs(es)
  }

  function SizeE(e: Expr): nat
    decreases e, 1
  {
    match e
    case Leaf => 1
    case Call(_, args) => 1 + SizeEs(args)
    case Subquery(q) => 1 + SizeQ(q)
    case Compound(parts) => 1 + SizeEs(parts)
  }

  function SizeEs(es: seq<Expr>): (r: nat)
    ensures forall e :: e in es ==> SizeE(e) <= r
    decreases es, 0
  {
    if es == [] then 0 else SizeE(es[0]) + SizeEs(es[1..])
  }

  function SizeQs(qs: seq<Query>): (r: nat)
    ensures forall q :: q in qs ==> SizeQ(q) <= r
    decreases qs, 0
  {
    if qs == [] then 0 else SizeQ(qs[0]) + SizeQs(qs[1..])
  }

  function SizeWs(ws: seq<TableWithJoins>): (r: nat)
    ensures forall w :: w in ws ==> SizeW(w) <= r
    decreases ws, 0
  {
    if ws == [] then 0 else SizeW(ws[0]) + SizeWs(ws[1..])
  }

  function SizeJs(js: seq<Join>): (r: nat)
    ensures forall j :: j in js ==> SizeJ(j) <= r
    decreases js, 0
  {
    if js == [] then 0 else SizeJ(js[0]) + SizeJs(js[1..])
  }
}
