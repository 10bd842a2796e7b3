/** What stands in a statement, said field by field and without the walk: the reference for
    what the guard has to find and for what running a statement runs. */
module SqlParts {
  import opened Common
  import opened SqlAst

  // ---------------------------------------------------------------- spelling

  /** The same character, or the two cases of one ASCII letter. */
  ghost predicate SameLetter(c: char, d: char) {
    || c == d
    || ('A' <= c <= 'Z' && d as int == c as int + 32)
    || ('A' <= d <= 'Z' && c as int == d as int + 32)
  }

  ghost predicate Spelled(a: string, b: string) {
    |a| == |b| && forall i :: 0 <= i < |a| ==> SameLetter(a[i], b[i])
  }

  /** The functions that reach the server's files. */
  ghost const FILE_FUNCTIONS: set<string> :=
    {"lo_export", "lo_import", "pg_ls_dir", "pg_read_binary_file", "pg_read_file", "pg_stat_file"}

  /** A name that calls such a function, or is computed and so could be anything. */
  ghost predicate DeniedName(name: ObjectName) {
    && name != []
    && var last := name[|name| - 1];
       last.Computed? || exists d :: d in FILE_FUNCTIONS && Spelled(d, last.value)
  }

  /** An `EXPLAIN` that runs its statement: by keyword, or by an option of that name. */
  ghost predicate Executes(s: Statement) {
    s.Explain? && (s.analyze || (s.options.Some? && exists o :: o in s.options.value && Spelled(o, "analyze")))
  }

  /** Some wrapper runs what it wraps. */
  ghost predicate SomeWrapperExecutes(s: Statement) {
    s.Explain? && (Executes(s) || SomeWrapperExecutes(s.statement))
  }

  // ---------------------------------------------------------------- parts

  ghost predicate AnyExpr(c: Node, es: seq<Expr>) { c.E? && c.e in es }

  ghost predicate AnyTable(c: Node, ws: seq<TableWithJoins>) { c.W? && c.w in ws }

  /** `c` stands directly in `n`. */
  ghost predicate PartOf(c: Node, n: Node) {
    match n
    case S(s) => InStatement(c, s)
    case Q(q) => (c.Q? && c.q in q.ctes) || c == B(q.body) || AnyExpr(c, q.tail)
    case B(b) => InBody(c, b)
    case L(l) => AnyExpr(c, l.projection) || AnyTable(c, l.from) || AnyExpr(c, l.clauses)
    case W(w) => c == T(w.relation) || (c.J? && c.j in w.joins)
    case J(j) => c == T(j.relation) || AnyExpr(c, j.constraint)
    case T(t) => InTable(c, t)
    case E(e) => InExpr(c, e)
  }

  ghost predicate InStatement(c: Node, s: Statement) {
    match s
    case Select(q) => c == Q(q)
    case Insert(_, source, on, returning) =>
      || (source.Some? && c == Q(source.value))
      || (on.Some? && AnyExpr(c, on.value.exprs))
      || AnyExpr(c, returning)
    case Update(table, assignments, from, where, returning) =>
      c == W(table) || AnyExpr(c, assignments) || AnyTable(c, from) || AnyExpr(c, where) || AnyExpr(c, returning)
    case Delete(tables, using, where, returning) =>
      AnyTable(c, tables) || AnyTable(c, using) || AnyExpr(c, where) || AnyExpr(c, returning)
    case Explain(_, _, inner) => c == S(inner)
    case ExplainTable(_) => false
    case Utility(_) => false
  }

  ghost predicate InBody(c: Node, b: SetExpr) {
    match b
    case SelectBody(l) => c == L(l)
    case QueryBody(q) => c == Q(q)
    case SetOperation(left, right) => c == B(left) || c == B(right)
    case Values(rows) => AnyExpr(c, rows)
    case StatementBody(s) => c == S(s)
    case TableBody => false
  }

  ghost predicate InTable(c: Node, t: TableFactor) {
    match t
    case Table(_, _, args) => AnyExpr(c, args)
    case TableFunction(_, exprs) => AnyExpr(c, exprs)
    case Derived(q) => c == Q(q)
    case NestedJoin(w) => c == W(w)
    case Unnest(exprs) => AnyExpr(c, exprs)
  }

  ghost predicate InExpr(c: Node, e: Expr) {
    match e
    case Leaf => false
    case Call(_, args) => AnyExpr(c, args)
    case Subquery(q) => c == Q(q)
    case Compound(parts) => AnyExpr(c, parts)
  }

  /** From `p[0]` down to the last node, one part at a time. */
  ghost predicate Path(p: seq<Node>) {
    |p| < 2 || (PartOf(p[1], p[0]) && Path(p[1..]))
  }

  /** `m` stands somewhere below `n`. */
  ghost predicate Occurs(m: Node, n: Node) {
    exists p :: 2 <= |p| && p[0] == n && p[|p| - 1] == m && Path(p)
  }

  // ---------------------------------------------------------------- the walk goes to every part

  lemma ExprMembers(c: Node, es: seq<Expr>)
    ensures c in Es(es) <==> AnyExpr(c, es)
  {
    if AnyExpr(c, es) {
      var i :| 0 <= i < |es| && es[i] == c.e;
      assert Es(es)[i] == c;
    }
  }

  lemma TableMembers(c: Node, ws: seq<TableWithJoins>)
    ensures c in Ws(ws) <==> AnyTable(c, ws)
  {
    if AnyTable(c, ws) {
      var i :| 0 <= i < |ws| && ws[i] == c.w;
      assert Ws(ws)[i] == c;
    }
  }

  lemma QueryMembers(c: Node, qs: seq<Query>)
    ensures c in Qs(qs) <==> c.Q? && c.q in qs
  {
    if c.Q? && c.q in qs {
      var i :| 0 <= i < |qs| && qs[i] == c.q;
      assert Qs(qs)[i] == c;
    }
  }

  lemma JoinMembers(c: Node, js: seq<Join>)
    ensures c in Js(js) <==> c.J? && c.j in js
  {
    if c.J? && c.j in js {
      var i :| 0 <= i < |js| && js[i] == c.j;
      assert Js(js)[i] == c;
    }
  }

  lemma StatementParts(c: Node, s: Statement)
    ensures InStatement(c, s) <==> c in ChildrenS(s)
  {
    match s
    case Insert(_, _, on, returning) =>
      ExprMembers(c, returning);
      if on.Some? { ExprMembers(c, on.value.exprs); }
    case Update(_, assignments, from, where, returning) =>
      ExprMembers(c, assignments);
      TableMembers(c, from);
      ExprMembers(c, where);
      ExprMembers(c, returning);
    case Delete(tables, using, where, returning) =>
      TableMembers(c, tables);
      TableMembers(c, using);
      ExprMembers(c, where);
      ExprMembers(c, returning);
    case _ =>
  }

  lemma BodyParts(c: Node, b: SetExpr)
    ensures InBody(c, b) <==> c in ChildrenB(b)
  {
    if b.Values? { ExprMembers(c, b.rows); }
  }

  lemma TableParts(c: Node, t: TableFactor)
    ensures InTable(c, t) <==> c in ChildrenT(t)
  {
    match t
    case Table(_, _, args) => ExprMembers(c, args);
    case TableFunction(_, exprs) => ExprMembers(c, exprs);
    case Unnest(exprs) => ExprMembers(c, exprs);
    case _ =>
  }

  lemma ExprParts(c: Node, e: Expr)
    ensures InExpr(c, e) <==> c in ChildrenE(e)
  {
    match e
    case Call(_, args) => ExprMembers(c, args);
    case Compound(parts) => ExprMembers(c, parts);
    case _ =>
  }

  /** The walk visits every part of every node, and nothing else. */
  lemma PartsAreChildren(c: Node, n: Node)
    ensures PartOf(c, n) <==> c in Children(n)
  {
    match n
    case S(s) => StatementParts(c, s);
    case Q(q) => QueryMembers(c, q.ctes); ExprMembers(c, q.tail);
    case B(b) => BodyParts(c, b);
    case L(l) => ExprMembers(c, l.projection); TableMembers(c, l.from); ExprMembers(c, l.clauses);
    case W(w) => JoinMembers(c, w.joins);
    case J(j) => ExprMembers(c, j.constraint);
    case T(t) => TableParts(c, t);
    case E(e) => ExprParts(c, e);
  }

  lemma PartOccurs(c: Node, n: Node)
    requires PartOf(c, n)
    ensures Occurs(c, n)
  {
    assert [n, c][1..] == [c] && Path([n, c]);
  }

  lemma OccursDeeper(m: Node, c: Node, n: Node)
    requires PartOf(c, n) && Occurs(m, c)
    ensures Occurs(m, n)
  {
    var p :| 2 <= |p| && p[0] == c && p[|p| - 1] == m && Path(p);
    assert ([n] + p)[1..] == p && Path([n] + p);
  }
}
