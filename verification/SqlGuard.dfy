/** The SQL guard (src/exec/sql_guard.rs), from the parsed statements onward. */
module SqlGuard {
  import opened Common
  import opened SqlAst
  import opened SqlParts

  datatype Access = ReadOnly | ReadWrite

  datatype GuardError =
    | Parse | MultiStatement(n: nat) | NotAllowed(family: string) | Locking | WriteInReadPath(kind: string)
    | SelectInto | ExplainAnalyze | DeniedFunction(name: string)

  // ---------------------------------------------------------------- names

  const DENIED_FUNCTIONS: seq<string> :=
    ["pg_read_file", "pg_read_binary_file", "pg_ls_dir", "pg_stat_file", "lo_export", "lo_import"]

  function LowerAscii(c: char): char {
    if 'A' <= c <= 'Z' then c - 'A' + 'a' else c
  }

  predicate EqIgnoreAsciiCase(a: string, b: string) {
    |a| == |b| && forall i :: 0 <= i < |a| ==> LowerAscii(a[i]) == LowerAscii(b[i])
  }

  lemma EqIffSpelled(a: string, b: string)
    ensures EqIgnoreAsciiCase(a, b) <==> Spelled(a, b)
  {
  }

  /** The first denylist entry matching `name`, scanning from `from`. */
  function FindDenied(name: string, from: nat): (r: Option<string>)
    requires from <= |DENIED_FUNCTIONS|
    ensures r.Some? <==> exists k :: from <= k < |DENIED_FUNCTIONS| && EqIgnoreAsciiCase(DENIED_FUNCTIONS[k], name)
    ensures r.Some? ==> r.value in DENIED_FUNCTIONS && EqIgnoreAsciiCase(r.value, name)
    decreases |DENIED_FUNCTIONS| - from
  {
    if from == |DENIED_FUNCTIONS| then None
    else if EqIgnoreAsciiCase(DENIED_FUNCTIONS[from], name) then Some(DENIED_FUNCTIONS[from])
    else FindDenied(name, from + 1)
  }

  /** The objection to a name, by its last part. */
  function CheckDeniedName(name: ObjectName): Option<GuardError> {
    if name == [] then None
    else
      match name[|name| - 1]
      case Computed => Some(NotAllowed("computed function name"))
      case Ident(v) =>
        match FindDenied(v, 0)
        case None => None
        case Some(d) => Some(DeniedFunction(d))
  }

  // ---------------------------------------------------------------- the visitor

  function BodyHasSelectInto(b: SetExpr): bool {
    match b
    case SelectBody(l) => l.into.Some?
    case SetOperation(left, right) => BodyHasSelectInto(left) || BodyHasSelectInto(right)
    case _ => false
  }

  /** What the callback for `n` answers, given whether a statement was already seen. */
  function Offence(n: Node, topSeen: bool): Option<GuardError> {
    match n
    case S(s) =>
      if !topSeen then None
      else if s.Insert? then Some(WriteInReadPath("INSERT"))
      else if s.Update? then Some(WriteInReadPath("UPDATE"))
      else if s.Delete? then Some(WriteInReadPath("DELETE"))
      else Some(NotAllowed("nested statement"))
    case Q(q) =>
      if q.locks != [] then Some(Locking)
      else if BodyHasSelectInto(q.body) then Some(SelectInto)
      else None
    case E(Call(name, _)) => CheckDeniedName(name)
    case T(Table(name, _, _)) => CheckDeniedName(name)
    case T(TableFunction(name, _)) => CheckDeniedName(name)
    case _ => None
  }

  /** The first offence along a list of nodes. */
  function Scan(ns: seq<Node>, topSeen: bool): Option<GuardError> {
    if ns == [] then None
    else
      match Offence(ns[0], topSeen)
      case Some(e) => Some(e)
      case None => Scan(ns[1..], topSeen || ns[0].S?)
  }

  /** The flag after the walk: it stops where the scan does. */
  function SeenAfter(ns: seq<Node>, topSeen: bool): bool {
    if ns == [] || Offence(ns[0], topSeen).Some? then topSeen else SeenAfter(ns[1..], topSeen || ns[0].S?)
  }

  lemma {:induction false} ScanAppend(xs: seq<Node>, ys: seq<Node>, topSeen: bool)
    ensures Scan(xs + ys, topSeen) ==
            if Scan(xs, topSeen).Some? then Scan(xs, topSeen) else Scan(ys, SeenAfter(xs, topSeen))
    ensures SeenAfter(xs + ys, topSeen) ==
            if Scan(xs, topSeen).Some? then SeenAfter(xs, topSeen) else SeenAfter(ys, SeenAfter(xs, topSeen))
  {
    if xs == [] {
      assert xs + ys == ys;
    } else {
      assert (xs + ys)[1..] == xs[1..] + ys;
      ScanAppend(xs[1..], ys, topSeen || xs[0].S?);
    }
  }

  /** The stateful walker: one flag, children in order, stop at the first offence. */
  class GuardVisitor {
    var topSeen: bool

    constructor ()
      ensures !topSeen
    {
      topSeen := false;
    }

    method Visit(n: Node) returns (r: Option<GuardError>)
      modifies this
      ensures r == Scan(PreOrder(n), old(topSeen))
      ensures topSeen == SeenAfter(PreOrder(n), old(topSeen))
      decreases Size(n), 1
    {
      ScanHead(n, topSeen);
      r := Offence(n, topSeen);
      if r.None? {
        topSeen := topSeen || n.S?;
        r := VisitAll(Children(n), Walks(n), Size(n));
      }
    }

    method VisitAll(children: seq<Node>, ghost walks: seq<seq<Node>>, ghost size: nat) returns (r: Option<GuardError>)
      requires |walks| == |children|
      requires forall i :: 0 <= i < |children| ==> walks[i] == PreOrder(children[i]) && Size(children[i]) < size
      modifies this
      ensures r == Scan(Flatten(walks), old(topSeen))
      ensures topSeen == SeenAfter(Flatten(walks), old(topSeen))
      decreases size, 0
    {
      ghost var seen := topSeen;
      for i := 0 to |children|
        invariant Scan(Flatten(walks[..i]), seen).None?
        invariant topSeen == SeenAfter(Flatten(walks[..i]), seen)
      {
        ScanNext(walks, i, seen);
        r := Visit(children[i]);
        if r.Some? {
          ScanStops(walks, i + 1, seen);
          return;
        }
      }
      assert walks[..|children|] == walks;
      r := None;
    }
  }

  lemma ScanHead(n: Node, seen: bool)
    ensures Scan(PreOrder(n), seen) == if Offence(n, seen).Some? then Offence(n, seen)
            else Scan(Flatten(Walks(n)), seen || n.S?)
    ensures SeenAfter(PreOrder(n), seen) == if Offence(n, seen).Some? then seen
            else SeenAfter(Flatten(Walks(n)), seen || n.S?)
  {
    assert PreOrder(n)[1..] == Flatten(Walks(n));
    assert PreOrder(n) == [n] + Flatten(Walks(n));
  }

  lemma ScanNext(walks: seq<seq<Node>>, i: nat, seen: bool)
    requires i < |walks| && Scan(Flatten(walks[..i]), seen).None?
    ensures Scan(Flatten(walks[..i + 1]), seen) == Scan(walks[i], SeenAfter(Flatten(walks[..i]), seen))
    ensures SeenAfter(Flatten(walks[..i + 1]), seen) == SeenAfter(walks[i], SeenAfter(Flatten(walks[..i]), seen))
  {
    assert walks[..i + 1][..i] == walks[..i];
    assert Flatten(walks[..i + 1]) == Flatten(walks[..i]) + walks[i];
    ScanAppend(Flatten(walks[..i]), walks[i], seen);
  }

  lemma ScanStops(walks: seq<seq<Node>>, i: nat, seen: bool)
    requires i <= |walks| && Scan(Flatten(walks[..i]), seen).Some?
    ensures Scan(Flatten(walks), seen) == Scan(Flatten(walks[..i]), seen)
    ensures SeenAfter(Flatten(walks), seen) == SeenAfter(Flatten(walks[..i]), seen)
  {
    FlattenPrefix(walks, i);
    var head := Flatten(walks[..i]);
    ScanAppend(head, Flatten(walks)[|head|..], seen);
    assert Flatten(walks) == head + Flatten(walks)[|head|..];
  }

  lemma {:induction false} FlattenPrefix<X>(xss: seq<seq<X>>, n: nat)
    requires n <= |xss|
    ensures Flatten(xss[..n]) <= Flatten(xss)
    decreases |xss|
  {
    if n < |xss| {
      FlattenPrefix(xss[..|xss| - 1], n);
      assert xss[..|xss| - 1][..n] == xss[..n];
    } else {
      assert xss[..n] == xss;
    }
  }

  // ---------------------------------------------------------------- the top-level check

  predicate ExplainAnalyzes(analyze: bool, options: Option<seq<string>>) {
    analyze || (options.Some? && exists o :: o in options.value && EqIgnoreAsciiCase(o, "analyze"))
  }

  function CheckOnInsert(on: Option<OnInsert>): Option<GuardError> {
    if on.Some? && on.value.OtherOn? then Some(NotAllowed("unsupported ON clause")) else None
  }

  function Family(kind: UtilityKind): string {
    match kind
    case Truncate => "TRUNCATE" case Drop => "DROP" case CreateTable => "CREATE TABLE" case CreateView => "CREATE VIEW"
    case CreateIndex => "CREATE INDEX" case CreateSchema => "CREATE SCHEMA" case CreateDatabase => "CREATE DATABASE"
    case CreateFunction => "CREATE FUNCTION" case CreateRole => "CREATE ROLE" case AlterTable => "ALTER TABLE"
    case GrantTo => "GRANT" case RevokeFrom => "REVOKE" case StartTransaction => "BEGIN/START"
    case CommitTransaction => "COMMIT" case RollbackTransaction => "ROLLBACK" case SetTransaction => "SET TRANSACTION"
    case SetOther => "SET" case CopyData => "COPY" case Unsupported => "unsupported"
  }

  function CheckStatementShape(s: Statement, access: Access): Option<GuardError> {
    match s
    case Insert(_, _, on, _) => if access.ReadWrite? then CheckOnInsert(on) else Some(NotAllowed("INSERT"))
    case Update(_, _, _, _, _) => if access.ReadWrite? then None else Some(NotAllowed("UPDATE"))
    case Delete(_, _, _, _) => if access.ReadWrite? then None else Some(NotAllowed("DELETE"))
    case Select(_) => None
    case ExplainTable(_) => None
    case Utility(kind) => Some(NotAllowed(Family(kind)))
    case Explain(_, _, _) => Some(NotAllowed("unsupported"))
  }

  /** The statement under all `EXPLAIN` wrappers. */
  function Target(s: Statement): Statement {
    if s.Explain? then Target(s.statement) else s
  }

  predicate AnalyzesSomewhere(s: Statement) {
    s.Explain? && (ExplainAnalyzes(s.analyze, s.options) || AnalyzesSomewhere(s.statement))
  }

  lemma ExplainExecutes(s: Statement)
    requires s.Explain?
    ensures ExplainAnalyzes(s.analyze, s.options) <==> Executes(s)
  {
    if s.options.Some? {
      forall o | o in s.options.value ensures EqIgnoreAsciiCase(o, "analyze") <==> Spelled(o, "analyze") {
        EqIffSpelled(o, "analyze");
      }
    }
  }

  lemma {:induction false} AnalyzesIff(s: Statement)
    ensures AnalyzesSomewhere(s) <==> SomeWrapperExecutes(s)
  {
    if s.Explain? {
      ExplainExecutes(s);
      AnalyzesIff(s.statement);
    }
  }

  /** The verdict of `check_sql`; `None` is acceptance. */
  function Verdict(parsed: Option<seq<Statement>>, access: Access): Option<GuardError> {
    if parsed.None? || |parsed.value| == 0 then Some(Parse)
    else if |parsed.value| > 1 then Some(MultiStatement(|parsed.value|))
    else
      var s := parsed.value[0];
      if AnalyzesSomewhere(s) then Some(ExplainAnalyze)
      else if CheckStatementShape(Target(s), access).Some? then CheckStatementShape(Target(s), access)
      else Scan(PreOrder(S(Target(s))), false)
  }

  /** `check_sql`: peel `EXPLAIN` wrappers, check the shape, then walk the tree. */
  method CheckSql(parsed: Option<seq<Statement>>, access: Access) returns (r: Option<GuardError>)
    ensures r == Verdict(parsed, access)
  {
    if parsed.None? || |parsed.value| == 0 {
      return Some(Parse);
    }
    if |parsed.value| > 1 {
      return Some(MultiStatement(|parsed.value|));
    }
    var s := parsed.value[0];
    while s.Explain?
      invariant Target(s) == Target(parsed.value[0])
      invariant AnalyzesSomewhere(s) == AnalyzesSomewhere(parsed.value[0])
      decreases s
    {
      if ExplainAnalyzes(s.analyze, s.options) {
        return Some(ExplainAnalyze);
      }
      s := s.statement;
    }
    r := CheckStatementShape(s, access);
    if r.Some? {
      return;
    }
    var visitor := new GuardVisitor();
    r := visitor.Visit(S(s));
  }

  // ---------------------------------------------------------------- what acceptance means

  /** Nothing in this node itself is forbidden below the top level. Unlike the
      callbacks, this judges every SELECT where it stands. */
  ghost predicate Clean(n: Node) {
    match n
    case S(_) => false
    case Q(q) => q.locks == []
    case L(l) => l.into.None?
    case E(Call(name, _)) => !DeniedName(name)
    case T(Table(name, _, _)) => !DeniedName(name)
    case T(TableFunction(name, _)) => !DeniedName(name)
    case _ => true
  }

  /** Clean all the way down. */
  ghost predicate AllClean(n: Node)
    decreases Size(n)
  {
    Clean(n) && forall c :: c in Children(n) ==> AllClean(c)
  }

  /** No callback objects anywhere below, once the top statement has been seen. */
  ghost predicate AllQuiet(n: Node)
    decreases Size(n)
  {
    Offence(n, true).None? && forall c :: c in Children(n) ==> AllQuiet(c)
  }

  /** A node's walk is the node and its children's walks. */
  lemma WalkMembers(n: Node, m: Node)
    ensures m in Flatten(Walks(n)) <==> exists c :: c in Children(n) && m in PreOrder(c)
  {
    var walks := Walks(n);
    FlattenMembers(walks, m);
    if m in Flatten(walks) {
      var k :| 0 <= k < |walks| && m in walks[k];
      assert Children(n)[k] in Children(n);
    }
    if c :| c in Children(n) && m in PreOrder(c) {
      var k :| 0 <= k < |Children(n)| && Children(n)[k] == c;
      assert m in walks[k];
    }
  }

  ghost predicate QuietNodes(ns: seq<Node>) {
    forall m :: m in ns ==> Offence(m, true).None?
  }

  lemma {:induction false} QuietWalk(n: Node)
    ensures AllQuiet(n) <==> QuietNodes(PreOrder(n))
    decreases Size(n), 1
  {
    QuietBelow(n);
    assert PreOrder(n) == [n] + Flatten(Walks(n));
  }

  lemma {:induction false} QuietBelow(n: Node)
    ensures QuietNodes(Flatten(Walks(n))) <==> forall c :: c in Children(n) ==> AllQuiet(c)
    decreases Size(n), 0
  {
    forall c | c in Children(n) ensures AllQuiet(c) <==> QuietNodes(PreOrder(c)) {
      QuietWalk(c);
    }
    forall m ensures m in Flatten(Walks(n)) <==> exists c :: c in Children(n) && m in PreOrder(c) {
      WalkMembers(n, m);
    }
  }

  lemma DenylistIsComplete(d: string)
    ensures d in DENIED_FUNCTIONS <==> d in FILE_FUNCTIONS
  {
  }

  lemma DeniedIffRefused(name: ObjectName)
    ensures CheckDeniedName(name).Some? <==> DeniedName(name)
  {
    if name != [] && name[|name| - 1].Ident? {
      var v := name[|name| - 1].value;
      forall k | 0 <= k < |DENIED_FUNCTIONS|
        ensures DENIED_FUNCTIONS[k] in FILE_FUNCTIONS
        ensures EqIgnoreAsciiCase(DENIED_FUNCTIONS[k], v) <==> Spelled(DENIED_FUNCTIONS[k], v)
      {
        DenylistIsComplete(DENIED_FUNCTIONS[k]);
        EqIffSpelled(DENIED_FUNCTIONS[k], v);
      }
      if d :| d in FILE_FUNCTIONS && Spelled(d, v) {
        DenylistIsComplete(d);
        var k :| 0 <= k < |DENIED_FUNCTIONS| && DENIED_FUNCTIONS[k] == d;
      }
    }
  }

  /** The callbacks plus the body check at each query see every SELECT: a walk is quiet
      exactly when every node in it is clean, except that the SELECTs directly in a
      body answer to the enclosing query. */
  ghost predicate Covered(n: Node) {
    AllClean(n) <==> AllQuiet(n) && (n.B? ==> !BodyHasSelectInto(n.b)) && (n.L? ==> n.l.into.None?)
  }

  lemma {:induction false} Coverage(n: Node)
    ensures Covered(n)
    decreases Size(n)
  {
    forall c | c in Children(n) ensures Covered(c) {
      Coverage(c);
    }
    if n.Q? {
      CoverageQuery(n);
    } else if n.B? && n.b.SelectBody? {
      CoverageSelect(n.b.select);
    } else if n.B? && n.b.SetOperation? {
      CoverageSetOperation(n.b.left, n.b.right);
    } else {
      PlainChildren(n);
      CoveragePlain(n);
    }
  }

  /** Outside the three composite cases a node answers for itself. */
  lemma CoveragePlain(n: Node)
    requires !n.Q? && (n.B? ==> !n.b.SelectBody? && !n.b.SetOperation?)
    requires forall c :: c in Children(n) ==> Covered(c) && !c.B? && !c.L?
    ensures Covered(n)
  {
    LocalCoverage(n);
  }

  lemma LocalCoverage(n: Node)
    requires !n.Q?
    ensures Clean(n) <==> Offence(n, true).None? && (n.L? ==> n.l.into.None?)
  {
    match n
    case E(Call(name, _)) => DeniedIffRefused(name);
    case T(Table(name, _, _)) => DeniedIffRefused(name);
    case T(TableFunction(name, _)) => DeniedIffRefused(name);
    case _ =>
  }

  lemma CoverageQuery(n: Node)
    requires n.Q? && forall c :: c in Children(n) ==> Covered(c)
    ensures Covered(n)
  {
    var body := B(n.q.body);
    assert Children(n)[|n.q.ctes|] == body;
    assert Covered(body);
    forall c | c in Children(n) && c != body ensures AllClean(c) <==> AllQuiet(c) {
      assert Covered(c) && !c.B? && !c.L?;
    }
  }

  lemma CoverageSelect(l: SelectExpr)
    requires Covered(L(l))
    ensures Covered(B(SelectBody(l)))
  {
    var n := B(SelectBody(l));
    assert Children(n) == [L(l)];
    assert Clean(n) && Offence(n, true).None?;
  }

  lemma CoverageSetOperation(left: SetExpr, right: SetExpr)
    requires Covered(B(left)) && Covered(B(right))
    ensures Covered(B(SetOperation(left, right)))
  {
    var n := B(SetOperation(left, right));
    assert Children(n) == [B(left), B(right)];
    assert Clean(n) && Offence(n, true).None?;
  }

  /** Bodies stand only under queries and set operations, SELECTs only under bodies. */
  lemma PlainChildren(n: Node)
    requires !n.Q? && (n.B? ==> !n.b.SelectBody? && !n.b.SetOperation?)
    ensures forall c :: c in Children(n) ==> !c.B? && !c.L?
  {
  }

  lemma {:induction false} ScanNoneIffQuiet(ns: seq<Node>)
    ensures Scan(ns, true).None? <==> QuietNodes(ns)
  {
    if ns == [] {
    } else {
      ScanNoneIffQuiet(ns[1..]);
      assert ns == [ns[0]] + ns[1..];
    }
  }

  ghost predicate Shape(s: Statement, access: Access) {
    || s.Select? || s.ExplainTable?
    || (access.ReadWrite? && (s.Update? || s.Delete? || (s.Insert? && (s.on.Some? ==> !s.on.value.OtherOn?))))
  }

  ghost predicate BelowClean(s: Statement) {
    forall c :: c in Children(S(s)) ==> AllClean(c)
  }

  /** Nothing forbidden stands anywhere below. */
  ghost predicate NothingForbidden(s: Statement) {
    forall m :: Occurs(m, S(s)) ==> Clean(m)
  }

  lemma {:induction false} CleanAlong(p: seq<Node>)
    requires p != [] && Path(p) && AllClean(p[0])
    ensures Clean(p[|p| - 1])
  {
    if |p| == 1 {
    } else {
      PartsAreChildren(p[1], p[0]);
      assert AllClean(p[1]);
      CleanAlong(p[1..]);
    }
  }

  lemma {:induction false} CleanEverywhere(n: Node)
    requires Clean(n) && forall m :: Occurs(m, n) ==> Clean(m)
    ensures AllClean(n)
    decreases Size(n)
  {
    forall c | c in Children(n) ensures AllClean(c) {
      PartsAreChildren(c, n);
      PartOccurs(c, n);
      forall m | Occurs(m, c) ensures Clean(m) {
        OccursDeeper(m, c, n);
      }
      CleanEverywhere(c);
    }
  }

  lemma BelowCleanIff(s: Statement)
    ensures BelowClean(s) <==> NothingForbidden(s)
  {
    if BelowClean(s) {
      forall m | Occurs(m, S(s)) ensures Clean(m) {
        var p :| 2 <= |p| && p[0] == S(s) && p[|p| - 1] == m && Path(p);
        PartsAreChildren(p[1], p[0]);
        CleanAlong(p[1..]);
      }
    }
    if NothingForbidden(s) {
      forall c | c in Children(S(s)) ensures AllClean(c) {
        PartsAreChildren(c, S(s));
        PartOccurs(c, S(s));
        forall m | Occurs(m, c) ensures Clean(m) {
          OccursDeeper(m, c, S(s));
        }
        CleanEverywhere(c);
      }
    }
  }

  /** What a statement has to be: no wrapper that executes, an admitted shape underneath, and
      below it no nested statement, no lock, no INTO on any SELECT and no denied or computed
      name, at any depth. */
  ghost predicate Admitted(s: Statement, access: Access) {
    !SomeWrapperExecutes(s) && Shape(Target(s), access) && NothingForbidden(Target(s))
  }

  lemma AdmittedIff(s: Statement, access: Access)
    ensures Admitted(s, access) <==>
              && !AnalyzesSomewhere(s) && CheckStatementShape(Target(s), access).None?
              && Scan(PreOrder(S(Target(s))), false).None?
  {
    AnalyzesIff(s);
    ShapeIff(Target(s), access);
    TopScan(Target(s));
    BelowCleanIff(Target(s));
  }

  /** Acceptance, exactly: one statement, and that one admitted. */
  lemma AcceptedIff(parsed: Option<seq<Statement>>, access: Access)
    ensures Verdict(parsed, access).None? <==>
              parsed.Some? && |parsed.value| == 1 && Admitted(parsed.value[0], access)
  {
    if parsed.Some? && |parsed.value| == 1 {
      AdmittedIff(parsed.value[0], access);
    }
  }

  /** On a query with both, the lock is what is reported. */
  lemma LocksComeFirst(q: Query, topSeen: bool)
    requires q.locks != []
    ensures Offence(Q(q), topSeen) == Some(Locking)
  {
  }

  lemma ShapeIff(s: Statement, access: Access)
    ensures CheckStatementShape(s, access).None? <==> Shape(s, access)
  {
  }

  lemma TopScan(s: Statement)
    ensures Scan(PreOrder(S(s)), false).None? <==> BelowClean(s)
  {
    var n := S(s);
    ScanHead(n, false);
    ScanNoneIffQuiet(Flatten(Walks(n)));
    forall c | c in Children(n) ensures AllClean(c) <==> AllQuiet(c) {
      Coverage(c);
    }
    QuietBelow(n);
  }

  predicate IsDataWrite(s: Statement) {
    s.Insert? || s.Update? || s.Delete?
  }

  /** Read access is contained in write access, and what write access adds is exactly a
      top-level data write, bare or under `EXPLAIN` wrappers that do not execute it. */
  lemma WriteAccessAdds(parsed: Option<seq<Statement>>)
    ensures Verdict(parsed, ReadOnly).None? <==>
              Verdict(parsed, ReadWrite).None? && !IsDataWrite(Target(parsed.value[0]))
  {
    AcceptedIff(parsed, ReadOnly);
    AcceptedIff(parsed, ReadWrite);
  }

  // ---------------------------------------------------------------- what a refusal means

  /** The name a node calls or selects from. */
  function CalledName(n: Node): Option<ObjectName> {
    match n
    case E(Call(name, _)) => Some(name)
    case T(Table(name, _, _)) => Some(name)
    case T(TableFunction(name, _)) => Some(name)
    case _ => None
  }

  /** The error tells the truth about this node. */
  ghost predicate Blames(n: Node, e: GuardError) {
    match e
    case Locking => n.Q? && n.q.locks != []
    case SelectInto => n.L? && n.l.into.Some?
    case WriteInReadPath(kind) =>
      n.S? && ((n.s.Insert? && kind == "INSERT") || (n.s.Update? && kind == "UPDATE")
          || (n.s.Delete? && kind == "DELETE"))
    case DeniedFunction(d) =>
      var name := CalledName(n);
      name.Some? && name.value != [] && var last := name.value[|name.value| - 1];
        last.Ident? && d in FILE_FUNCTIONS && Spelled(d, last.value)
    case NotAllowed(what) =>
      || (what == "nested statement" && n.S? && !IsDataWrite(n.s))
      || (what == "computed function name" && CalledName(n).Some? && CalledName(n).value != []
          && CalledName(n).value[|CalledName(n).value| - 1].Computed?)
    case _ => false
  }

  ghost predicate BlamesBelow(s: Statement, e: GuardError) {
    exists m :: Occurs(m, S(s)) && Blames(m, e)
  }

  /** What a statement of a shape that is not admitted is called. Of the data writes only an
      INSERT can be refused with write access, and then for its ON clause. */
  ghost function ComplaintAt(s: Statement, access: Access): string {
    if s.Insert? then (if access.ReadWrite? then "unsupported ON clause" else "INSERT")
    else if s.Update? then "UPDATE"
    else if s.Delete? then "DELETE"
    else if s.Utility? then UtilityName(s.kind)
    else "unsupported"
  }

  ghost function UtilityName(kind: UtilityKind): string {
    if kind.CreateTable? then "CREATE TABLE"
    else if kind.CreateView? then "CREATE VIEW"
    else if kind.CreateIndex? then "CREATE INDEX"
    else if kind.CreateSchema? then "CREATE SCHEMA"
    else if kind.CreateDatabase? then "CREATE DATABASE"
    else if kind.CreateFunction? then "CREATE FUNCTION"
    else if kind.CreateRole? then "CREATE ROLE"
    else if kind.AlterTable? then "ALTER TABLE"
    else if kind.Truncate? then "TRUNCATE"
    else if kind.Drop? then "DROP"
    else if kind.GrantTo? then "GRANT"
    else if kind.RevokeFrom? then "REVOKE"
    else if kind.StartTransaction? then "BEGIN/START"
    else if kind.CommitTransaction? then "COMMIT"
    else if kind.RollbackTransaction? then "ROLLBACK"
    else if kind.SetTransaction? then "SET TRANSACTION"
    else if kind.SetOther? then "SET"
    else if kind.CopyData? then "COPY"
    else "unsupported"
  }

  ghost predicate Justified(parsed: Option<seq<Statement>>, access: Access, e: GuardError) {
    match e
    case Parse => parsed.None? || parsed.value == []
    case MultiStatement(n) => parsed.Some? && n == |parsed.value| && 1 < n
    case _ =>
      && parsed.Some? && |parsed.value| == 1
      && var s := Target(parsed.value[0]);
         if SomeWrapperExecutes(parsed.value[0]) then e == ExplainAnalyze
         else if !Shape(s, access) then e == NotAllowed(ComplaintAt(s, access))
         else BlamesBelow(s, e)
  }

  lemma {:induction false} ScanFinds(ns: seq<Node>)
    requires Scan(ns, true).Some?
    ensures exists m :: m in ns && Offence(m, true) == Scan(ns, true)
  {
    if Offence(ns[0], true).Some? {
      assert ns[0] in ns;
    } else {
      ScanFinds(ns[1..]);
    }
  }

  lemma {:induction false} WalkTransitive(n: Node, m: Node, x: Node)
    requires m in PreOrder(n) && x in PreOrder(m)
    ensures x in PreOrder(n)
    decreases Size(n)
  {
    assert PreOrder(n) == [n] + Flatten(Walks(n));
    if m != n {
      WalkMembers(n, m);
      var c :| c in Children(n) && m in PreOrder(c);
      WalkTransitive(c, m, x);
      WalkMembers(n, x);
    }
  }

  lemma ChildWalk(n: Node, c: Node, x: Node)
    requires c in Children(n) && x in PreOrder(c)
    ensures x in PreOrder(n)
  {
    WalkMembers(n, x);
    assert PreOrder(n) == [n] + Flatten(Walks(n));
  }

  lemma {:induction false} IntoBelow(b: SetExpr) returns (x: Node)
    requires BodyHasSelectInto(b)
    ensures x in PreOrder(B(b)) && Blames(x, SelectInto)
  {
    match b
    case SelectBody(l) =>
      x := L(l);
      assert PreOrder(x)[0] == x;
      ChildWalk(B(b), x, x);
    case SetOperation(left, right) =>
      if BodyHasSelectInto(left) {
        x := IntoBelow(left);
        ChildWalk(B(b), B(left), x);
      } else {
        x := IntoBelow(right);
        ChildWalk(B(b), B(right), x);
      }
  }

  lemma NameBlames(n: Node, name: ObjectName, e: GuardError)
    requires CalledName(n) == Some(name) && CheckDeniedName(name) == Some(e)
    ensures Blames(n, e)
  {
    if e.DeniedFunction? {
      DenylistIsComplete(e.name);
      EqIffSpelled(e.name, name[|name| - 1].value);
    }
  }

  lemma NodeBlames(n: Node, e: GuardError)
    requires Offence(n, true) == Some(e) && e != SelectInto
    ensures Blames(n, e)
  {
    match n
    case E(Call(name, _)) => NameBlames(n, name, e);
    case T(Table(name, _, _)) => NameBlames(n, name, e);
    case T(TableFunction(name, _)) => NameBlames(n, name, e);
    case _ =>
  }

  lemma BodyBlames(n: Node) returns (x: Node)
    requires n.Q? && BodyHasSelectInto(n.q.body)
    ensures x in PreOrder(n) && Blames(x, SelectInto)
  {
    x := IntoBelow(n.q.body);
    assert Children(n)[|n.q.ctes|] == B(n.q.body);
    ChildWalk(n, B(n.q.body), x);
  }

  lemma OnlyBodies(n: Node)
    requires Offence(n, true) == Some(SelectInto)
    ensures n.Q? && BodyHasSelectInto(n.q.body)
  {
  }

  /** An objecting node is itself to blame, or the SELECT in its body is. */
  lemma OffenceBlames(n: Node, e: GuardError) returns (x: Node)
    requires Offence(n, true) == Some(e)
    ensures x in PreOrder(n) && Blames(x, e)
  {
    if e == SelectInto {
      OnlyBodies(n);
      x := BodyBlames(n);
    } else {
      NodeBlames(n, e);
      x := n;
      assert PreOrder(n)[0] == n;
    }
  }

  lemma ScanBlames(s: Statement)
    requires Scan(PreOrder(S(s)), false).Some?
    ensures BlamesBelow(s, Scan(PreOrder(S(s)), false).value)
  {
    var n := S(s);
    ScanHead(n, false);
    ScanFinds(Flatten(Walks(n)));
    var m :| m in Flatten(Walks(n)) && Offence(m, true) == Scan(Flatten(Walks(n)), true);
    var x := OffenceBlames(m, Scan(Flatten(Walks(n)), true).value);
    WalkMembers(n, m);
    var c :| c in Children(n) && m in PreOrder(c);
    WalkTransitive(c, m, x);
    WalkMembers(n, x);
    WalkOccurs(n, x);
  }

  lemma {:induction false} WalkOccurs(n: Node, m: Node)
    requires m in Flatten(Walks(n))
    ensures Occurs(m, n)
    decreases Size(n)
  {
    WalkMembers(n, m);
    var c :| c in Children(n) && m in PreOrder(c);
    PartsAreChildren(c, n);
    PartOccurs(c, n);
    assert PreOrder(c) == [c] + Flatten(Walks(c));
    if m != c {
      WalkOccurs(c, m);
      OccursDeeper(m, c, n);
    }
  }

  /** Every refusal is true: the error names the first check that fails and, for the
      walk, something that really stands below the top-level statement. */
  lemma RefusalIsJustified(parsed: Option<seq<Statement>>, access: Access)
    requires Verdict(parsed, access).Some?
    ensures Justified(parsed, access, Verdict(parsed, access).value)
  {
    if parsed.Some? && |parsed.value| == 1 {
      AnalyzesIff(parsed.value[0]);
    }
    if parsed.Some? && |parsed.value| == 1 && !AnalyzesSomewhere(parsed.value[0]) {
      var s := Target(parsed.value[0]);
      ShapeIff(s, access);
      if Shape(s, access) {
        ScanBlames(s);
      }
    }
  }
}
