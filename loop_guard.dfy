/**
 * The loop-guard pass (`infiniteLoopSafetyPlugin` with `addLoopCheck`).
 * Every `while`, `do-while` and counting `for` loop gets a fresh counter
 * declared just before it (`let _loopCounter = 0`) and a body that starts
 * with `_loopCounter++` and a check that calls `onError` and breaks once the
 * counter exceeds 10000. `for-in` and `for-of` loops are not guarded (the
 * loops nested in them are).
 */
module LoopGuard {
  import opened Wrappers
  import opened Syntax
  import opened Uid

  const IterationLimit := 10000
  const ErrorMessage := "\U{1F504} Whoa there! Infinite loop detected! \U{1F6D1}"
  const OnError := "onError"

  /** The three loop kinds the plugin registers a visitor for. */
  predicate IsGuardKind(k: StmtKind) {
    k.While? || k.DoWhile? || k.For?
  }

  /** `loopBody.node.loc?.start?.line || 0`: the body's line, not the loop keyword's. */
  function ReportedLine(body: Stmt): (line: nat)
    ensures body.info.startLine == Some(line) || (body.info.startLine.None? && line == 0)
  {
    match body.info.startLine
    case Some(line) => line
    case None => 0
  }

  // The statements `addLoopCheck` builds.

  /** `let <name> = 0;` */
  function CounterDeclaration(name: string): Stmt {
    Statement(VarDecl(Let, [Declarator(Synthetic, Id(name), Some(Num(0)))]))
  }

  /** `<name>++;` */
  function CounterIncrement(name: string): Stmt {
    Statement(ExprStmt(Expr(Synthetic, Update("++", false, Id(name)))))
  }

  /** `onError(new Error(message), line)` */
  function OnErrorCall(line: nat): Expr {
    Expr(Synthetic, Call(Id(OnError), [Expr(Synthetic, New(Id("Error"), [Str(ErrorMessage)])), Num(line)]))
  }

  /** `if (<name> > 10000) { onError(new Error(message), line); break; }` */
  function LimitCheck(name: string, line: nat): Stmt {
    Statement(If(
      Expr(Synthetic, Binary(">", Id(name), Num(IterationLimit))),
      Statement(Block([Statement(ExprStmt(OnErrorCall(line))), Statement(Break)])),
      None))
  }

  /**
   * The original statements of a loop body: a block's statements, or the
   * single statement itself, which `replaceWith` leaves without comments.
   */
  function BodyStatements(body: Stmt): seq<Stmt> {
    if body.kind.Block? then body.kind.stmts else [Stmt(Detached(body.info), body.kind)]
  }

  /**
   * The block that replaces `body`: increment, limit check, then `rest`;
   * it takes over the comments of the body it replaces.
   */
  function Rebody(body: Stmt, name: string, rest: seq<Stmt>): Stmt {
    Stmt(Inherit(body.info),
      Block([CounterIncrement(name), LimitCheck(name, ReportedLine(body))] + rest))
  }

  /** The new body: increment, limit check, then the original statements. */
  function NewBody(body: Stmt, name: string): Stmt {
    Rebody(body, name, BodyStatements(body))
  }

  function LoopBody(k: StmtKind): Stmt
    requires IsGuardKind(k)
  {
    k.body
  }

  /** The same loop with another body; the loop's header is kept. */
  function WithBody(k: StmtKind, body: Stmt): (r: StmtKind)
    requires IsGuardKind(k)
    ensures IsGuardKind(r) && r.body == body
    ensures r.While? == k.While? && r.DoWhile? == k.DoWhile? && r.For? == k.For?
    ensures r.For? ==> r.init == k.init && r.cond == k.cond && r.update == k.update
    ensures !r.For? ==> r.test == k.test
    ensures HeaderCounters(r) == HeaderCounters(k)
  {
    match k
    case While(t, _) => While(t, body)
    case DoWhile(_, t) => DoWhile(body, t)
    case For(i, c, u, _) => For(i, c, u, body)
  }

  /** The rule at one loop, before the traversal goes on into it. */
  function AddLoopCheck(loop: Stmt, name: string): (r: seq<Stmt>)
    requires IsGuardKind(loop.kind)
    ensures |r| == 2 && r[0] == CounterDeclaration(name)
    ensures r[1].info == loop.info && StmtTag(r[1].kind) == StmtTag(loop.kind) && CounterOf(r[1]) == name
  {
    [CounterDeclaration(name), Stmt(loop.info, WithBody(loop.kind, NewBody(loop.kind.body, name)))]
  }

  // The counters of the guard-kind loops of a tree, in traversal order. A
  // loop's counter is the identifier that the first statement of its block
  // body updates (`x++`, `--x`, ...), or "" when that statement is not such
  // an update; for a guarded loop it is the name of its own counter.

  function IncrementedName(body: Stmt): string {
    if && body.kind.Block?
       && |body.kind.stmts| > 0
       && body.kind.stmts[0].kind.ExprStmt?
       && body.kind.stmts[0].kind.expr.kind.Update?
       && body.kind.stmts[0].kind.expr.kind.argument.kind.Ident?
    then body.kind.stmts[0].kind.expr.kind.argument.kind.name
    else ""
  }

  function CounterOf(s: Stmt): string {
    if IsGuardKind(s.kind) then IncrementedName(s.kind.body) else ""
  }

  function CountersInExpr(e: Expr): seq<string>
    decreases e
  {
    match e.kind
    case Ident(_) => []
    case NumLit(_) => []
    case StrLit(_) => []
    case Member(o, p, _) => CountersInExpr(o) + CountersInExpr(p)
    case Call(c, args) => CountersInExpr(c) + CountersInExprs(args)
    case New(c, args) => CountersInExpr(c) + CountersInExprs(args)
    case Update(_, _, a) => CountersInExpr(a)
    case Binary(_, l, r) => CountersInExpr(l) + CountersInExpr(r)
    case OtherExpr(_, ops, bodies) => CountersInExprs(ops) + CountersInStmts(bodies)
  }

  function CountersInExprs(es: seq<Expr>): seq<string>
    decreases es
  {
    if es == [] then [] else CountersInExpr(es[0]) + CountersInExprs(es[1..])
  }

  function CountersInOpt(o: Option<Expr>): seq<string>
    decreases o
  {
    match o
    case None => []
    case Some(e) => CountersInExpr(e)
  }

  function CountersInDeclarator(d: Declarator): seq<string>
    decreases d
  {
    CountersInExpr(d.id) + CountersInOpt(d.init)
  }

  function CountersInDeclarators(ds: seq<Declarator>): seq<string>
    decreases ds
  {
    if ds == [] then [] else CountersInDeclarator(ds[0]) + CountersInDeclarators(ds[1..])
  }

  function CountersInHead(h: ForHead): seq<string>
    decreases h
  {
    match h
    case HeadDecl(_, _, ds) => CountersInDeclarators(ds)
    case HeadExpr(e) => CountersInExpr(e)
  }

  function CountersInOptHead(h: Option<ForHead>): seq<string>
    decreases h
  {
    match h
    case None => []
    case Some(x) => CountersInHead(x)
  }

  function CountersInStmt(s: Stmt): seq<string>
    decreases s
  {
    (if IsGuardKind(s.kind) then [CounterOf(s)] else []) +
    match s.kind
    case ExprStmt(e) => CountersInExpr(e)
    case VarDecl(_, ds) => CountersInDeclarators(ds)
    case Block(ss) => CountersInStmts(ss)
    case If(t, c, a) =>
      CountersInExpr(t) + CountersInStmt(c) + (match a case None => [] case Some(x) => CountersInStmt(x))
    case While(t, b) => CountersInExpr(t) + CountersInStmt(b)
    case DoWhile(b, t) => CountersInExpr(t) + CountersInStmt(b)
    case For(i, c, u, b) =>
      CountersInOptHead(i) + CountersInOpt(c) + CountersInOpt(u) + CountersInStmt(b)
    case ForIn(l, r, b) => CountersInHead(l) + CountersInExpr(r) + CountersInStmt(b)
    case ForOf(l, r, b) => CountersInHead(l) + CountersInExpr(r) + CountersInStmt(b)
    case Break => []
    case OtherStmt(_, ops, bodies) => CountersInExprs(ops) + CountersInStmts(bodies)
  }

  /** The counters in a guard-kind loop's header: its test, or a `for`'s three clauses. */
  function HeaderCounters(k: StmtKind): seq<string>
    requires IsGuardKind(k)
  {
    match k
    case While(t, _) => CountersInExpr(t)
    case DoWhile(_, t) => CountersInExpr(t)
    case For(i, c, u, _) => CountersInOptHead(i) + CountersInOpt(c) + CountersInOpt(u)
  }

  lemma LoopCounters(s: Stmt)
    requires IsGuardKind(s.kind)
    ensures CountersInStmt(s) == [CounterOf(s)] + HeaderCounters(s.kind) + CountersInStmt(s.kind.body)
  {
  }

  function CountersInStmts(ss: seq<Stmt>): seq<string>
    decreases ss
  {
    if ss == [] then [] else CountersInStmt(ss[0]) + CountersInStmts(ss[1..])
  }

  lemma {:induction false} CountersInStmtsConcat(a: seq<Stmt>, b: seq<Stmt>)
    ensures CountersInStmts(a + b) == CountersInStmts(a) + CountersInStmts(b)
  {
    if a == [] {
      assert a + b == b;
    } else {
      assert (a + b)[0] == a[0] && (a + b)[1..] == a[1..] + b;
      CountersInStmtsConcat(a[1..], b);
    }
  }

  lemma {:induction false} CountersInExprsConcat(a: seq<Expr>, b: seq<Expr>)
    ensures CountersInExprs(a + b) == CountersInExprs(a) + CountersInExprs(b)
  {
    if a == [] {
      assert a + b == b;
    } else {
      assert (a + b)[0] == a[0] && (a + b)[1..] == a[1..] + b;
      CountersInExprsConcat(a[1..], b);
    }
  }

  lemma {:induction false} CountersInDeclaratorsConcat(a: seq<Declarator>, b: seq<Declarator>)
    ensures CountersInDeclarators(a + b) == CountersInDeclarators(a) + CountersInDeclarators(b)
  {
    if a == [] {
      assert a + b == b;
    } else {
      assert (a + b)[0] == a[0] && (a + b)[1..] == a[1..] + b;
      CountersInDeclaratorsConcat(a[1..], b);
    }
  }

  // The shape of the pass's output. In a statement list every guard-kind
  // loop is preceded by the declaration of the counter its body increments;
  // a single-statement slot never holds a guard-kind loop; every guard-kind
  // loop's body starts with the increment and the limit check.

  ghost predicate IsLimitCheck(s: Stmt, name: string) {
    exists line: nat :: s == LimitCheck(name, line)
  }

  ghost predicate GuardedExpr(e: Expr)
    decreases e
  {
    match e.kind
    case Ident(_) => true
    case NumLit(_) => true
    case StrLit(_) => true
    case Member(o, p, _) => GuardedExpr(o) && GuardedExpr(p)
    case Call(c, args) => GuardedExpr(c) && GuardedExprs(args)
    case New(c, args) => GuardedExpr(c) && GuardedExprs(args)
    case Update(_, _, a) => GuardedExpr(a)
    case Binary(_, l, r) => GuardedExpr(l) && GuardedExpr(r)
    case OtherExpr(_, ops, bodies) => GuardedExprs(ops) && GuardedSlots(bodies)
  }

  ghost predicate GuardedExprs(es: seq<Expr>)
    decreases es
  {
    forall k :: 0 <= k < |es| ==> GuardedExpr(es[k])
  }

  ghost predicate GuardedOpt(o: Option<Expr>)
    decreases o
  {
    match o
    case None => true
    case Some(e) => GuardedExpr(e)
  }

  ghost predicate GuardedDeclarator(d: Declarator)
    decreases d
  {
    GuardedExpr(d.id) && GuardedOpt(d.init)
  }

  ghost predicate GuardedDeclarators(ds: seq<Declarator>)
    decreases ds
  {
    forall k :: 0 <= k < |ds| ==> GuardedDeclarator(ds[k])
  }

  ghost predicate GuardedHead(h: ForHead)
    decreases h
  {
    match h
    case HeadDecl(_, _, ds) => GuardedDeclarators(ds)
    case HeadExpr(e) => GuardedExpr(e)
  }

  ghost predicate GuardedOptHead(h: Option<ForHead>)
    decreases h
  {
    match h
    case None => true
    case Some(x) => GuardedHead(x)
  }

  ghost predicate GuardedHeader(k: StmtKind)
    requires IsGuardKind(k)
    decreases k
  {
    match k
    case While(t, _) => GuardedExpr(t)
    case DoWhile(_, t) => GuardedExpr(t)
    case For(i, c, u, _) => GuardedOptHead(i) && GuardedOpt(c) && GuardedOpt(u)
  }

  ghost predicate GuardedLoopBody(body: Stmt, name: string)
    decreases body
  {
    && body.kind.Block?
    && |body.kind.stmts| >= 2
    && body.kind.stmts[0] == CounterIncrement(name)
    && IsLimitCheck(body.kind.stmts[1], name)
    && GuardedList(body.kind.stmts)
  }

  ghost predicate GuardedStmt(s: Stmt)
    decreases s, 0
  {
    match s.kind
    case ExprStmt(e) => GuardedExpr(e)
    case VarDecl(_, ds) => GuardedDeclarators(ds)
    case Block(ss) => GuardedList(ss)
    case If(t, c, a) =>
      GuardedExpr(t) && GuardedSlot(c) && (match a case None => true case Some(x) => GuardedSlot(x))
    case While(_, b) => GuardedHeader(s.kind) && GuardedLoopBody(b, CounterOf(s))
    case DoWhile(b, _) => GuardedHeader(s.kind) && GuardedLoopBody(b, CounterOf(s))
    case For(_, _, _, b) => GuardedHeader(s.kind) && GuardedLoopBody(b, CounterOf(s))
    case ForIn(l, r, b) => GuardedHead(l) && GuardedExpr(r) && GuardedSlot(b)
    case ForOf(l, r, b) => GuardedHead(l) && GuardedExpr(r) && GuardedSlot(b)
    case Break => true
    case OtherStmt(_, ops, bodies) => GuardedExprs(ops) && GuardedSlots(bodies)
  }

  ghost predicate GuardedSlot(s: Stmt)
    decreases s, 1
  {
    !IsGuardKind(s.kind) && GuardedStmt(s)
  }

  ghost predicate GuardedSlots(ss: seq<Stmt>)
    decreases ss
  {
    forall k :: 0 <= k < |ss| ==> GuardedSlot(ss[k])
  }

  ghost predicate GuardedList(ss: seq<Stmt>)
    decreases ss, 1
  {
    forall i :: 0 <= i < |ss| ==> GuardedAt(ss, i)
  }

  /** The statement at `i` is guarded, and a loop there follows its counter's declaration. */
  ghost predicate GuardedAt(ss: seq<Stmt>, i: int)
    requires 0 <= i < |ss|
    decreases ss, 0
  {
    && GuardedStmt(ss[i])
    && (IsGuardKind(ss[i].kind) ==> i > 0 && ss[i - 1] == CounterDeclaration(CounterOf(ss[i])))
  }

  lemma GuardedListConcat(a: seq<Stmt>, b: seq<Stmt>)
    requires GuardedList(a) && GuardedList(b)
    ensures GuardedList(a + b)
  {
    var ab := a + b;
    forall i | 0 <= i < |ab|
      ensures GuardedAt(ab, i)
    {
      if i < |a| {
        assert GuardedAt(a, i);
        assert ab[i] == a[i];
        if i > 0 { assert ab[i - 1] == a[i - 1]; }
      } else {
        var j := i - |a|;
        assert GuardedAt(b, j);
        assert ab[i] == b[j];
        if j > 0 { assert ab[i - 1] == b[j - 1]; }
      }
    }
  }

  /** `onError(new Error(message), line)` holds no loop. */
  lemma OnErrorCallGuarded(line: nat)
    ensures GuardedExpr(OnErrorCall(line)) && CountersInExpr(OnErrorCall(line)) == []
  {
    var err := Expr(Synthetic, New(Id("Error"), [Str(ErrorMessage)]));
    assert GuardedExpr(Id("Error")) && GuardedExpr(Str(ErrorMessage));
    assert CountersInExprs([Str(ErrorMessage)]) == CountersInExpr(Str(ErrorMessage)) + CountersInExprs([]) == [];
    assert GuardedExprs([Str(ErrorMessage)]);
    assert CountersInExpr(err) == [];
    assert GuardedExpr(err);
    var args := [err, Num(line)];
    assert args[1..] == [Num(line)];
    assert CountersInExprs([Num(line)]) == CountersInExpr(Num(line)) + CountersInExprs([]) == [];
    assert CountersInExprs(args) == [];
    assert GuardedExpr(Num(line));
    assert GuardedExprs(args);
  }

  /** The test `<name> > 10000` holds no loop. */
  lemma LimitTestGuarded(name: string)
    ensures GuardedExpr(Expr(Synthetic, Binary(">", Id(name), Num(IterationLimit))))
    ensures CountersInExpr(Expr(Synthetic, Binary(">", Id(name), Num(IterationLimit)))) == []
  {
    assert GuardedExpr(Id(name)) && GuardedExpr(Num(IterationLimit));
    assert CountersInExpr(Id(name)) == [] && CountersInExpr(Num(IterationLimit)) == [];
  }

  /** The limit check's block `{ onError(...); break; }` holds no loop. */
  lemma ReportBlockGuarded(line: nat)
    ensures GuardedSlot(Statement(Block([Statement(ExprStmt(OnErrorCall(line))), Statement(Break)])))
    ensures CountersInStmt(Statement(Block([Statement(ExprStmt(OnErrorCall(line))), Statement(Break)]))) == []
  {
    OnErrorCallGuarded(line);
    var report := Statement(ExprStmt(OnErrorCall(line)));
    var brk := Statement(Break);
    assert CountersInStmt(report) == [];
    assert [report, brk][1..] == [brk];
    assert CountersInStmts([brk]) == CountersInStmt(brk) + CountersInStmts([]) == [];
    assert CountersInStmts([report, brk]) == [];
    assert GuardedAt([report, brk], 0) && GuardedAt([report, brk], 1);
    assert GuardedList([report, brk]);
  }

  /** The limit check holds no loop. */
  lemma LimitCheckGuarded(name: string, line: nat)
    ensures GuardedStmt(LimitCheck(name, line)) && CountersInStmt(LimitCheck(name, line)) == []
  {
    ReportBlockGuarded(line);
    LimitTestGuarded(name);
  }

  /** The statements `addLoopCheck` builds hold no loop and are in the guarded shape. */
  lemma GuardStatementsGuarded(name: string, line: nat)
    ensures GuardedStmt(CounterIncrement(name)) && CountersInStmt(CounterIncrement(name)) == []
    ensures GuardedStmt(LimitCheck(name, line)) && CountersInStmt(LimitCheck(name, line)) == []
    ensures GuardedStmt(CounterDeclaration(name)) && CountersInStmt(CounterDeclaration(name)) == []
    ensures IsLimitCheck(LimitCheck(name, line), name)
  {
    LimitCheckGuarded(name, line);
    assert GuardedExpr(Id(name)) && CountersInExpr(Id(name)) == [];
    var d := Declarator(Synthetic, Id(name), Some(Num(0)));
    assert GuardedDeclarator(d);
    assert CountersInDeclarators([d]) == CountersInDeclarator(d) + CountersInDeclarators([]);
  }

  /** The name a rebuilt body increments first is the counter it was built with. */
  lemma RebodyCounter(body: Stmt, name: string, rest: seq<Stmt>, k: StmtKind)
    requires IsGuardKind(k)
    ensures CounterOf(Stmt(Synthetic, WithBody(k, Rebody(body, name, rest)))) == name
  {
  }

  /**
   * A loop rebuilt around `rest`, with its declaration before it: its
   * counters are its own, then the header's, then those of `rest`, and it is
   * in the guarded shape when its header and `rest` are.
   */
  lemma GuardedLoopFacts(name: string, info: Info, k: StmtKind, body: Stmt, rest: seq<Stmt>)
    requires IsGuardKind(k) && GuardedHeader(k) && GuardedList(rest)
    ensures var loop := Stmt(info, WithBody(k, Rebody(body, name, rest)));
      && CountersInStmts([CounterDeclaration(name), loop]) == [name] + HeaderCounters(k) + CountersInStmts(rest)
      && GuardedList([CounterDeclaration(name), loop])
  {
    var nb := Rebody(body, name, rest);
    var loop := Stmt(info, WithBody(k, nb));
    var line := ReportedLine(body);
    GuardStatementsGuarded(name, line);
    var guards := [CounterIncrement(name), LimitCheck(name, line)];
    assert guards[1..] == [LimitCheck(name, line)];
    assert CountersInStmts([LimitCheck(name, line)]) == CountersInStmt(LimitCheck(name, line)) + CountersInStmts([]);
    assert CountersInStmts(guards) == [];
    CountersInStmtsConcat(guards, rest);
    assert CountersInStmt(nb) == CountersInStmts(rest);
    assert GuardedList(guards);
    GuardedListConcat(guards, rest);
    assert GuardedLoopBody(nb, name);
    LoopCounters(loop);
    assert GuardedHeader(loop.kind);
    assert GuardedStmt(loop);
    var out := [CounterDeclaration(name), loop];
    assert out[1..] == [loop];
    assert CountersInStmts([loop]) == CountersInStmt(loop) + CountersInStmts([]);
  }

  // What the pass keeps. `Unguard*` takes the added statements out of an
  // output: the declaration before each guard-kind loop of a statement list,
  // and the increment and limit check that start each guard-kind loop's
  // body, of which only the reported line is kept, as a `LineMark`. `Plain*`
  // brings an input to the form the pass leaves once those are taken out: a
  // guard-kind loop's body becomes a block with the body's comments and no
  // location, holding the mark of the line the check reports and then the
  // body's statements; a guard-kind loop in a single-statement slot becomes
  // a block with the slot's comments holding that loop, which keeps the
  // location and loses the comments. Everything else is kept node for node.

  /** Stands for a limit check that reports `line`, whatever its counter. */
  function LineMark(line: int): Stmt {
    Statement(ExprStmt(Num(line)))
  }

  /** The line a limit check reports: the second argument of its `onError` call. */
  ghost function CheckedLine(check: Stmt): int {
    if && check.kind.If?
       && check.kind.consequent.kind.Block?
       && |check.kind.consequent.kind.stmts| > 0
       && check.kind.consequent.kind.stmts[0].kind.ExprStmt?
       && check.kind.consequent.kind.stmts[0].kind.expr.kind.Call?
       && |check.kind.consequent.kind.stmts[0].kind.expr.kind.arguments| == 2
       && check.kind.consequent.kind.stmts[0].kind.expr.kind.arguments[1].kind.NumLit?
    then check.kind.consequent.kind.stmts[0].kind.expr.kind.arguments[1].kind.num
    else -1
  }

  ghost function PlainExpr(e: Expr): Expr
    decreases e
  {
    Expr(e.info, match e.kind
      case Ident(_) => e.kind
      case NumLit(_) => e.kind
      case StrLit(_) => e.kind
      case Member(o, p, computed) => Member(PlainExpr(o), PlainExpr(p), computed)
      case Call(c, args) => Call(PlainExpr(c), PlainExprs(args))
      case New(c, args) => New(PlainExpr(c), PlainExprs(args))
      case Update(op, prefix, a) => Update(op, prefix, PlainExpr(a))
      case Binary(op, l, r) => Binary(op, PlainExpr(l), PlainExpr(r))
      case OtherExpr(tag, ops, bodies) => OtherExpr(tag, PlainExprs(ops), PlainSlots(bodies)))
  }

  ghost function PlainExprs(es: seq<Expr>): seq<Expr>
    decreases es
  {
    if es == [] then [] else [PlainExpr(es[0])] + PlainExprs(es[1..])
  }

  ghost function PlainOpt(o: Option<Expr>): Option<Expr>
    decreases o
  {
    match o
    case None => None
    case Some(e) => Some(PlainExpr(e))
  }

  ghost function PlainDeclarator(d: Declarator): Declarator
    decreases d
  {
    Declarator(d.info, PlainExpr(d.id), PlainOpt(d.init))
  }

  ghost function PlainDeclarators(ds: seq<Declarator>): seq<Declarator>
    decreases ds
  {
    if ds == [] then [] else [PlainDeclarator(ds[0])] + PlainDeclarators(ds[1..])
  }

  ghost function PlainHead(h: ForHead): ForHead
    decreases h
  {
    match h
    case HeadDecl(info, k, ds) => HeadDecl(info, k, PlainDeclarators(ds))
    case HeadExpr(e) => HeadExpr(PlainExpr(e))
  }

  ghost function PlainOptHead(h: Option<ForHead>): Option<ForHead>
    decreases h
  {
    match h
    case None => None
    case Some(x) => Some(PlainHead(x))
  }

  /** A guard-kind loop's header in plain form; the body is left as it is. */
  ghost function PlainHeader(k: StmtKind): StmtKind
    requires IsGuardKind(k)
    decreases k, 0
  {
    match k
    case While(t, b) => While(PlainExpr(t), b)
    case DoWhile(b, t) => DoWhile(b, PlainExpr(t))
    case For(i, c, u, b) => For(PlainOptHead(i), PlainOpt(c), PlainOpt(u), b)
  }

  /** The statement with info `info` and kind `k`, in plain form. */
  ghost function PlainAt(info: Info, k: StmtKind): Stmt
    decreases k, 1
  {
    Stmt(info, match k
      case ExprStmt(e) => ExprStmt(PlainExpr(e))
      case VarDecl(dk, ds) => VarDecl(dk, PlainDeclarators(ds))
      case Block(ss) => Block(PlainList(ss))
      case If(t, c, a) =>
        If(PlainExpr(t), PlainSlot(c), match a case None => None case Some(x) => Some(PlainSlot(x)))
      case While(_, b) => WithBody(PlainHeader(k), PlainBody(b))
      case DoWhile(b, _) => WithBody(PlainHeader(k), PlainBody(b))
      case For(_, _, _, b) => WithBody(PlainHeader(k), PlainBody(b))
      case ForIn(l, r, b) => ForIn(PlainHead(l), PlainExpr(r), PlainSlot(b))
      case ForOf(l, r, b) => ForOf(PlainHead(l), PlainExpr(r), PlainSlot(b))
      case Break => Break
      case OtherStmt(tag, ops, bodies) => OtherStmt(tag, PlainExprs(ops), PlainSlots(bodies)))
  }

  /** A guard-kind loop's body: a block with its comments holding the line mark and its statements. */
  ghost function PlainBody(body: Stmt): Stmt
    decreases body
  {
    Stmt(Inherit(body.info), Block([LineMark(ReportedLine(body))] +
      if body.kind.Block? then PlainList(body.kind.stmts)
      else [PlainAt(Detached(body.info), body.kind)]))
  }

  ghost function PlainSlot(s: Stmt): Stmt
    decreases s
  {
    if IsGuardKind(s.kind) then Stmt(Inherit(s.info), Block([PlainAt(Detached(s.info), s.kind)]))
    else PlainAt(s.info, s.kind)
  }

  ghost function PlainSlots(ss: seq<Stmt>): seq<Stmt>
    decreases ss
  {
    if ss == [] then [] else [PlainSlot(ss[0])] + PlainSlots(ss[1..])
  }

  ghost function PlainList(ss: seq<Stmt>): seq<Stmt>
    decreases ss
  {
    if ss == [] then [] else [PlainStmt(ss[0])] + PlainList(ss[1..])
  }

  ghost function PlainStmt(s: Stmt): Stmt
    decreases s
  {
    PlainAt(s.info, s.kind)
  }

  lemma PlainBodyStatements(body: Stmt)
    ensures PlainBody(body) == Stmt(Inherit(body.info), Block([LineMark(ReportedLine(body))] + PlainList(BodyStatements(body))))
  {
    if !body.kind.Block? {
      var x := Stmt(Detached(body.info), body.kind);
      PlainListSingleton(x);
      assert BodyStatements(body) == [x];
      assert PlainStmt(x) == PlainAt(Detached(body.info), body.kind);
    }
  }

  lemma PlainListSingleton(x: Stmt)
    ensures PlainList([x]) == [PlainStmt(x)]
  {
    assert [x][1..] == [];
  }

  ghost function UnguardExpr(e: Expr): Expr
    decreases e
  {
    Expr(e.info, match e.kind
      case Ident(_) => e.kind
      case NumLit(_) => e.kind
      case StrLit(_) => e.kind
      case Member(o, p, computed) => Member(UnguardExpr(o), UnguardExpr(p), computed)
      case Call(c, args) => Call(UnguardExpr(c), UnguardExprs(args))
      case New(c, args) => New(UnguardExpr(c), UnguardExprs(args))
      case Update(op, prefix, a) => Update(op, prefix, UnguardExpr(a))
      case Binary(op, l, r) => Binary(op, UnguardExpr(l), UnguardExpr(r))
      case OtherExpr(tag, ops, bodies) => OtherExpr(tag, UnguardExprs(ops), UnguardStmts(bodies)))
  }

  ghost function UnguardExprs(es: seq<Expr>): seq<Expr>
    decreases es
  {
    if es == [] then [] else [UnguardExpr(es[0])] + UnguardExprs(es[1..])
  }

  ghost function UnguardOpt(o: Option<Expr>): Option<Expr>
    decreases o
  {
    match o
    case None => None
    case Some(e) => Some(UnguardExpr(e))
  }

  ghost function UnguardDeclarator(d: Declarator): Declarator
    decreases d
  {
    Declarator(d.info, UnguardExpr(d.id), UnguardOpt(d.init))
  }

  ghost function UnguardDeclarators(ds: seq<Declarator>): seq<Declarator>
    decreases ds
  {
    if ds == [] then [] else [UnguardDeclarator(ds[0])] + UnguardDeclarators(ds[1..])
  }

  ghost function UnguardHead(h: ForHead): ForHead
    decreases h
  {
    match h
    case HeadDecl(info, k, ds) => HeadDecl(info, k, UnguardDeclarators(ds))
    case HeadExpr(e) => HeadExpr(UnguardExpr(e))
  }

  ghost function UnguardOptHead(h: Option<ForHead>): Option<ForHead>
    decreases h
  {
    match h
    case None => None
    case Some(x) => Some(UnguardHead(x))
  }

  /** A guard-kind loop's header with the guards taken out; the body is left as it is. */
  ghost function UnguardHeader(k: StmtKind): StmtKind
    requires IsGuardKind(k)
    decreases k, 0
  {
    match k
    case While(t, b) => While(UnguardExpr(t), b)
    case DoWhile(b, t) => DoWhile(b, UnguardExpr(t))
    case For(i, c, u, b) => For(UnguardOptHead(i), UnguardOpt(c), UnguardOpt(u), b)
  }

  ghost function UnguardStmt(s: Stmt): Stmt
    decreases s, 1
  {
    Stmt(s.info, match s.kind
      case ExprStmt(e) => ExprStmt(UnguardExpr(e))
      case VarDecl(dk, ds) => VarDecl(dk, UnguardDeclarators(ds))
      case Block(ss) => Block(UnguardList(ss))
      case If(t, c, a) =>
        If(UnguardExpr(t), UnguardStmt(c), match a case None => None case Some(x) => Some(UnguardStmt(x)))
      case While(_, b) => WithBody(UnguardHeader(s.kind), UnguardBody(b))
      case DoWhile(b, _) => WithBody(UnguardHeader(s.kind), UnguardBody(b))
      case For(_, _, _, b) => WithBody(UnguardHeader(s.kind), UnguardBody(b))
      case ForIn(l, r, b) => ForIn(UnguardHead(l), UnguardExpr(r), UnguardStmt(b))
      case ForOf(l, r, b) => ForOf(UnguardHead(l), UnguardExpr(r), UnguardStmt(b))
      case Break => Break
      case OtherStmt(tag, ops, bodies) => OtherStmt(tag, UnguardExprs(ops), UnguardStmts(bodies)))
  }

  /** A guarded body with the line mark in place of its increment and limit check. */
  ghost function UnguardBody(body: Stmt): Stmt
    decreases body, 2
  {
    if body.kind.Block? && |body.kind.stmts| >= 2 then
      Stmt(body.info, Block([LineMark(CheckedLine(body.kind.stmts[1]))] + UnguardList(body.kind.stmts[2..])))
    else UnguardStmt(body)
  }

  ghost function UnguardStmts(ss: seq<Stmt>): seq<Stmt>
    decreases ss
  {
    if ss == [] then [] else [UnguardStmt(ss[0])] + UnguardStmts(ss[1..])
  }

  /** A statement list without the declaration before each guard-kind loop. */
  ghost function UnguardList(ss: seq<Stmt>): seq<Stmt>
    decreases ss
  {
    if ss == [] then []
    else if |ss| >= 2 && IsGuardKind(ss[1].kind) then [UnguardStmt(ss[1])] + UnguardList(ss[2..])
    else [UnguardStmt(ss[0])] + UnguardList(ss[1..])
  }

  /** An output list is taken apart one input statement at a time. */
  lemma UnguardListConcat(h: seq<Stmt>, t: seq<Stmt>)
    requires |h| == 1 || (|h| == 2 && IsGuardKind(h[1].kind))
    requires !IsGuardKind(h[0].kind)
    requires t != [] ==> !IsGuardKind(t[0].kind)
    ensures UnguardList(h + t) == UnguardList(h) + UnguardList(t)
  {
    var ht := h + t;
    if |h| == 1 {
      assert ht[0] == h[0] && ht[1..] == t;
      assert UnguardList(h) == [UnguardStmt(h[0])];
      if t != [] {
        assert ht[1] == t[0];
      }
      assert UnguardList(ht) == [UnguardStmt(h[0])] + UnguardList(t);
    } else {
      assert ht[1] == h[1] && ht[2..] == t;
      assert UnguardList(h) == [UnguardStmt(h[1])];
      assert UnguardList(ht) == [UnguardStmt(h[1])] + UnguardList(t);
    }
  }

  /** A loop rebuilt around `rest`, with its declaration, unguards to the plain loop. */
  lemma UnguardGuardedLoop(info: Info, k: StmtKind, h: StmtKind, name: string, rest: seq<Stmt>)
    requires IsGuardKind(k) && IsGuardKind(h) && h.body == k.body
    requires h.While? == k.While? && h.DoWhile? == k.DoWhile? && h.For? == k.For?
    requires UnguardHeader(h) == PlainHeader(k)
    requires UnguardList(rest) == PlainList(BodyStatements(k.body))
    ensures UnguardList([CounterDeclaration(name), Stmt(info, WithBody(h, Rebody(k.body, name, rest)))]) == [PlainAt(info, k)]
  {
    var nb := Rebody(k.body, name, rest);
    var loop := Stmt(info, WithBody(h, nb));
    assert nb.kind.stmts[2..] == rest;
    assert CheckedLine(nb.kind.stmts[1]) == ReportedLine(k.body);
    PlainBodyStatements(k.body);
    assert UnguardBody(nb) == PlainBody(k.body);
    assert UnguardStmt(loop) == PlainAt(info, k);
    assert [CounterDeclaration(name), loop][2..] == [];
  }

  /** The shape of the loop `GuardLoop` builds around `rest`. */
  lemma GuardedLoopShape(info: Info, k: StmtKind, h: StmtKind, name: string, rest: seq<Stmt>)
    requires IsGuardKind(k) && IsGuardKind(h)
    requires h.While? == k.While? && h.DoWhile? == k.DoWhile? && h.For? == k.For?
    ensures var body := Rebody(k.body, name, rest);
      var loop := Stmt(info, WithBody(h, body));
      && IsGuardKind(loop.kind) && CounterOf(loop) == name
      && StmtTag(loop.kind) == StmtTag(k) && loop.kind.body == body
      && body.info == Inherit(k.body.info) && body.kind.Block? && |body.kind.stmts| >= 2
      && body.kind.stmts[..2] == [CounterIncrement(name), LimitCheck(name, ReportedLine(k.body))]
      && body.kind.stmts[2..] == rest
  {
    var body := Rebody(k.body, name, rest);
    assert body.kind.stmts[2..] == rest;
  }

  // The traversal. Each function threads the ledger of known names through
  // the subtree in Babel's visiting order (a loop is handled on entry, then
  // its header, then its new body) and promises: the ledger grows by exactly
  // the counters of the output's loops, one per guard-kind loop of the input;
  // the output has the guarded shape; a subtree without such loops is
  // returned unchanged.

  datatype Out<T> = Out(node: T, used: set<string>)

  /** `after` is `before` plus the names in `names`, each of them new and all distinct. */
  ghost predicate Grows(before: set<string>, after: set<string>, names: seq<string>) {
    && (forall x :: x in after <==> x in before || x in names)
    && |after| == |before| + |names|
  }

  lemma GrowsTrans(a: set<string>, b: set<string>, c: set<string>, n1: seq<string>, n2: seq<string>)
    requires Grows(a, b, n1) && Grows(b, c, n2)
    ensures Grows(a, c, n1 + n2)
  {
  }

  lemma GrowsNone(a: set<string>)
    ensures Grows(a, a, [])
  {
  }

  function GuardExpr(e: Expr, used: set<string>): (r: Out<Expr>)
    ensures Grows(used, r.used, CountersInExpr(r.node))
    ensures |CountersInExpr(r.node)| == |CountersInExpr(e)|
    ensures GuardedExpr(r.node)
    ensures CountersInExpr(e) == [] ==> r == Out(e, used)
    ensures UnguardExpr(r.node) == PlainExpr(e)
    decreases e, 1
  {
    match e.kind
    case Ident(_) => GrowsNone(used); Out(e, used)
    case NumLit(_) => GrowsNone(used); Out(e, used)
    case StrLit(_) => GrowsNone(used); Out(e, used)
    case Member(o, p, computed) =>
      var ro := GuardExpr(o, used);
      var rp := GuardExpr(p, ro.used);
      GrowsTrans(used, ro.used, rp.used, CountersInExpr(ro.node), CountersInExpr(rp.node));
      Out(Expr(e.info, Member(ro.node, rp.node, computed)), rp.used)
    case Call(_, _) => GuardListExpr(e, used)
    case New(_, _) => GuardListExpr(e, used)
    case Update(op, prefix, a) =>
      var ra := GuardExpr(a, used);
      Out(Expr(e.info, Update(op, prefix, ra.node)), ra.used)
    case Binary(op, lhs, rhs) =>
      var rl := GuardExpr(lhs, used);
      var rr := GuardExpr(rhs, rl.used);
      GrowsTrans(used, rl.used, rr.used, CountersInExpr(rl.node), CountersInExpr(rr.node));
      Out(Expr(e.info, Binary(op, rl.node, rr.node)), rr.used)
    case OtherExpr(_, _, _) => GuardOtherExpr(e, used)
  }

  /** Calls and `new`: a callee, then the arguments. */
  function GuardListExpr(e: Expr, used: set<string>): (r: Out<Expr>)
    requires e.kind.Call? || e.kind.New?
    ensures Grows(used, r.used, CountersInExpr(r.node))
    ensures |CountersInExpr(r.node)| == |CountersInExpr(e)|
    ensures GuardedExpr(r.node)
    ensures CountersInExpr(e) == [] ==> r == Out(e, used)
    ensures UnguardExpr(r.node) == PlainExpr(e)
    decreases e, 0
  {
    match e.kind
    case Call(c, args) =>
      var rc := GuardExpr(c, used);
      var ra := GuardExprs(args, rc.used);
      GrowsTrans(used, rc.used, ra.used, CountersInExpr(rc.node), CountersInExprs(ra.node));
      Out(Expr(e.info, Call(rc.node, ra.node)), ra.used)
    case New(c, args) =>
      var rc := GuardExpr(c, used);
      var ra := GuardExprs(args, rc.used);
      GrowsTrans(used, rc.used, ra.used, CountersInExpr(rc.node), CountersInExprs(ra.node));
      Out(Expr(e.info, New(rc.node, ra.node)), ra.used)
  }

  /** Any other expression: its operands, then the statements of its bodies. */
  function GuardOtherExpr(e: Expr, used: set<string>): (r: Out<Expr>)
    requires e.kind.OtherExpr?
    ensures Grows(used, r.used, CountersInExpr(r.node))
    ensures |CountersInExpr(r.node)| == |CountersInExpr(e)|
    ensures GuardedExpr(r.node)
    ensures CountersInExpr(e) == [] ==> r == Out(e, used)
    ensures UnguardExpr(r.node) == PlainExpr(e)
    decreases e, 0
  {
    match e.kind
    case OtherExpr(tag, ops, bodies) =>
      var ro := GuardExprs(ops, used);
      var rb := GuardSlots(bodies, ro.used);
      GrowsTrans(used, ro.used, rb.used, CountersInExprs(ro.node), CountersInStmts(rb.node));
      Out(Expr(e.info, OtherExpr(tag, ro.node, rb.node)), rb.used)
  }

  function GuardExprs(es: seq<Expr>, used: set<string>): (r: Out<seq<Expr>>)
    ensures Grows(used, r.used, CountersInExprs(r.node))
    ensures |CountersInExprs(r.node)| == |CountersInExprs(es)|
    ensures GuardedExprs(r.node)
    ensures CountersInExprs(es) == [] ==> r == Out(es, used)
    ensures UnguardExprs(r.node) == PlainExprs(es)
    decreases es
  {
    if es == [] then GrowsNone(used); Out([], used)
    else
      var h := GuardExpr(es[0], used);
      var t := GuardExprs(es[1..], h.used);
      GrowsTrans(used, h.used, t.used, CountersInExpr(h.node), CountersInExprs(t.node));
      assert ([h.node] + t.node)[0] == h.node && ([h.node] + t.node)[1..] == t.node;
      assert es == [es[0]] + es[1..];
      Out([h.node] + t.node, t.used)
  }

  function GuardOpt(o: Option<Expr>, used: set<string>): (r: Out<Option<Expr>>)
    ensures Grows(used, r.used, CountersInOpt(r.node))
    ensures |CountersInOpt(r.node)| == |CountersInOpt(o)|
    ensures GuardedOpt(r.node)
    ensures CountersInOpt(o) == [] ==> r == Out(o, used)
    ensures UnguardOpt(r.node) == PlainOpt(o)
    decreases o
  {
    match o
    case None => GrowsNone(used); Out(None, used)
    case Some(e) =>
      var re := GuardExpr(e, used);
      Out(Some(re.node), re.used)
  }

  function GuardDeclarator(d: Declarator, used: set<string>): (r: Out<Declarator>)
    ensures Grows(used, r.used, CountersInDeclarator(r.node))
    ensures |CountersInDeclarator(r.node)| == |CountersInDeclarator(d)|
    ensures GuardedDeclarator(r.node)
    ensures CountersInDeclarator(d) == [] ==> r == Out(d, used)
    ensures UnguardDeclarator(r.node) == PlainDeclarator(d)
    decreases d
  {
    var ri := GuardExpr(d.id, used);
    var rv := GuardOpt(d.init, ri.used);
    GrowsTrans(used, ri.used, rv.used, CountersInExpr(ri.node), CountersInOpt(rv.node));
    Out(Declarator(d.info, ri.node, rv.node), rv.used)
  }

  function GuardDeclarators(ds: seq<Declarator>, used: set<string>): (r: Out<seq<Declarator>>)
    ensures Grows(used, r.used, CountersInDeclarators(r.node))
    ensures |CountersInDeclarators(r.node)| == |CountersInDeclarators(ds)|
    ensures GuardedDeclarators(r.node)
    ensures CountersInDeclarators(ds) == [] ==> r == Out(ds, used)
    ensures UnguardDeclarators(r.node) == PlainDeclarators(ds)
    decreases ds
  {
    if ds == [] then GrowsNone(used); Out([], used)
    else
      var h := GuardDeclarator(ds[0], used);
      var t := GuardDeclarators(ds[1..], h.used);
      GrowsTrans(used, h.used, t.used, CountersInDeclarator(h.node), CountersInDeclarators(t.node));
      assert ([h.node] + t.node)[0] == h.node && ([h.node] + t.node)[1..] == t.node;
      assert ds == [ds[0]] + ds[1..];
      Out([h.node] + t.node, t.used)
  }

  function GuardHead(h: ForHead, used: set<string>): (r: Out<ForHead>)
    ensures Grows(used, r.used, CountersInHead(r.node))
    ensures |CountersInHead(r.node)| == |CountersInHead(h)|
    ensures GuardedHead(r.node)
    ensures CountersInHead(h) == [] ==> r == Out(h, used)
    ensures UnguardHead(r.node) == PlainHead(h)
    decreases h
  {
    match h
    case HeadDecl(info, k, ds) =>
      var rd := GuardDeclarators(ds, used);
      Out(HeadDecl(info, k, rd.node), rd.used)
    case HeadExpr(e) =>
      var re := GuardExpr(e, used);
      Out(HeadExpr(re.node), re.used)
  }

  function GuardOptHead(h: Option<ForHead>, used: set<string>): (r: Out<Option<ForHead>>)
    ensures Grows(used, r.used, CountersInOptHead(r.node))
    ensures |CountersInOptHead(r.node)| == |CountersInOptHead(h)|
    ensures GuardedOptHead(r.node)
    ensures CountersInOptHead(h) == [] ==> r == Out(h, used)
    ensures UnguardOptHead(r.node) == PlainOptHead(h)
    decreases h
  {
    match h
    case None => GrowsNone(used); Out(None, used)
    case Some(x) =>
      var rx := GuardHead(x, used);
      Out(Some(rx.node), rx.used)
  }

  /** A loop's header (test, or init, test and update), traversed before its body. */
  function GuardHeader(k: StmtKind, used: set<string>): (r: Out<StmtKind>)
    requires IsGuardKind(k)
    ensures IsGuardKind(r.node) && r.node.body == k.body
    ensures r.node.While? == k.While? && r.node.DoWhile? == k.DoWhile? && r.node.For? == k.For?
    ensures Grows(used, r.used, HeaderCounters(r.node))
    ensures |HeaderCounters(r.node)| == |HeaderCounters(k)|
    ensures GuardedHeader(r.node)
    ensures HeaderCounters(k) == [] ==> r == Out(k, used)
    ensures UnguardHeader(r.node) == PlainHeader(k)
    decreases k, 0
  {
    match k
    case While(t, b) =>
      var rt := GuardExpr(t, used);
      Out(While(rt.node, b), rt.used)
    case DoWhile(b, t) =>
      var rt := GuardExpr(t, used);
      Out(DoWhile(b, rt.node), rt.used)
    case For(i, c, u, b) =>
      var ri := GuardOptHead(i, used);
      var rc := GuardOpt(c, ri.used);
      var ru := GuardOpt(u, rc.used);
      GrowsTrans(used, ri.used, rc.used, CountersInOptHead(ri.node), CountersInOpt(rc.node));
      GrowsTrans(used, rc.used, ru.used, CountersInOptHead(ri.node) + CountersInOpt(rc.node), CountersInOpt(ru.node));
      Out(For(ri.node, rc.node, ru.node, b), ru.used)
  }

  /**
   * `addLoopCheck` at a loop: a fresh counter name, then the traversal of the
   * loop's header and of its body's statements, which follow the increment
   * and the limit check in the new body; the declaration goes before the loop.
   */
  function GuardLoop(info: Info, k: StmtKind, used: set<string>): (r: Out<seq<Stmt>>)
    requires IsGuardKind(k)
    ensures Grows(used, r.used, CountersInStmts(r.node))
    ensures |CountersInStmts(r.node)| == |CountersInStmt(Stmt(info, k))|
    ensures GuardedList(r.node)
    ensures |r.node| == 2 && IsGuardKind(r.node[1].kind)
    ensures r.node[0] == CounterDeclaration(GenerateUid(used)) && CounterOf(r.node[1]) == GenerateUid(used)
    ensures r.node[1].info == info && StmtTag(r.node[1].kind) == StmtTag(k)
    ensures HeaderCounters(k) == [] ==> r.node[1].kind == WithBody(k, r.node[1].kind.body)
    ensures var body := r.node[1].kind.body;
      && body.info == Inherit(k.body.info) && body.kind.Block? && |body.kind.stmts| >= 2
      && body.kind.stmts[..2] == [CounterIncrement(GenerateUid(used)), LimitCheck(GenerateUid(used), ReportedLine(k.body))]
    ensures CountersInStmt(k.body) == [] ==> r.node[1].kind.body.kind.stmts[2..] == BodyStatements(k.body)
    ensures UnguardList(r.node) == [PlainAt(info, k)]
    decreases k, 2
  {
    var name := GenerateUid(used);
    var u1 := used + {name};
    var rh := GuardHeader(k, u1);
    var rb := GuardBodyStatements(k.body, rh.used);
    GrowsTrans(used, u1, rh.used, [name], HeaderCounters(rh.node));
    GrowsTrans(used, rh.used, rb.used, [name] + HeaderCounters(rh.node), CountersInStmts(rb.node));
    GuardedLoopFacts(name, info, rh.node, k.body, rb.node);
    UnguardGuardedLoop(info, k, rh.node, name, rb.node);
    GuardedLoopShape(info, k, rh.node, name, rb.node);
    LoopCounters(Stmt(info, k));
    Out([CounterDeclaration(name), Stmt(info, WithBody(rh.node, Rebody(k.body, name, rb.node)))], rb.used)
  }

  /** A statement found in a statement list: a loop becomes `[declaration, loop]`. */
  function GuardInList(info: Info, k: StmtKind, used: set<string>): (r: Out<seq<Stmt>>)
    ensures Grows(used, r.used, CountersInStmts(r.node))
    ensures |CountersInStmts(r.node)| == |CountersInStmt(Stmt(info, k))|
    ensures GuardedList(r.node)
    ensures CountersInStmt(Stmt(info, k)) == [] ==> r == Out([Stmt(info, k)], used)
    ensures UnguardList(r.node) == [PlainAt(info, k)]
    ensures IsGuardKind(k) ==>
      && |r.node| == 2 && r.node[0] == CounterDeclaration(CounterOf(r.node[1]))
      && IsGuardKind(r.node[1].kind) && r.node[1].info == info && StmtTag(r.node[1].kind) == StmtTag(k)
    ensures !IsGuardKind(k) ==> |r.node| == 1 && r.node[0].info == info && StmtTag(r.node[0].kind) == StmtTag(k)
    decreases k, 3
  {
    if IsGuardKind(k) then GuardLoop(info, k, used)
    else
      var c := GuardChildren(info, k, used);
      assert CountersInStmts([c.node]) == CountersInStmt(c.node) + CountersInStmts([]);
      Out([c.node], c.used)
  }

  /** The traversal of a loop body's statements, now in the new block's list. */
  function GuardBodyStatements(body: Stmt, used: set<string>): (r: Out<seq<Stmt>>)
    ensures Grows(used, r.used, CountersInStmts(r.node))
    ensures |CountersInStmts(r.node)| == |CountersInStmt(body)|
    ensures GuardedList(r.node)
    ensures CountersInStmt(body) == [] ==> r == Out(BodyStatements(body), used)
    ensures UnguardList(r.node) == PlainList(BodyStatements(body))
    decreases body
  {
    if body.kind.Block? then GuardList(body.kind.stmts, used)
    else GuardInList(Detached(body.info), body.kind, used)
  }

  /** A statement that is not a guard-kind loop: only its children change. */
  function GuardChildren(info: Info, k: StmtKind, used: set<string>): (r: Out<Stmt>)
    requires !IsGuardKind(k)
    ensures Grows(used, r.used, CountersInStmt(r.node))
    ensures |CountersInStmt(r.node)| == |CountersInStmt(Stmt(info, k))|
    ensures GuardedSlot(r.node) && r.node.info == info && StmtTag(r.node.kind) == StmtTag(k)
    ensures CountersInStmt(Stmt(info, k)) == [] ==> r == Out(Stmt(info, k), used)
    ensures UnguardStmt(r.node) == PlainAt(info, k)
    decreases k, 2
  {
    match k
    case ExprStmt(e) =>
      var re := GuardExpr(e, used);
      Out(Stmt(info, ExprStmt(re.node)), re.used)
    case VarDecl(dk, ds) =>
      var rd := GuardDeclarators(ds, used);
      Out(Stmt(info, VarDecl(dk, rd.node)), rd.used)
    case Block(ss) =>
      var rs := GuardList(ss, used);
      Out(Stmt(info, Block(rs.node)), rs.used)
    case If(_, _, _) => GuardIf(info, k, used)
    case ForIn(_, _, _) => GuardEach(info, k, used)
    case ForOf(_, _, _) => GuardEach(info, k, used)
    case Break => GrowsNone(used); Out(Stmt(info, Break), used)
    case OtherStmt(_, _, _) => GuardOther(info, k, used)
  }

  /** Any other statement: its expressions, then its single-statement slots. */
  function GuardOther(info: Info, k: StmtKind, used: set<string>): (r: Out<Stmt>)
    requires k.OtherStmt?
    ensures Grows(used, r.used, CountersInStmt(r.node))
    ensures |CountersInStmt(r.node)| == |CountersInStmt(Stmt(info, k))|
    ensures GuardedSlot(r.node) && r.node.info == info && r.node.kind.OtherStmt?
    ensures CountersInStmt(Stmt(info, k)) == [] ==> r == Out(Stmt(info, k), used)
    ensures UnguardStmt(r.node) == PlainAt(info, k)
    decreases k, 0
  {
    match k
    case OtherStmt(tag, ops, bodies) =>
      var ro := GuardExprs(ops, used);
      var rb := GuardSlots(bodies, ro.used);
      GrowsTrans(used, ro.used, rb.used, CountersInExprs(ro.node), CountersInStmts(rb.node));
      CountersInOtherStmt(info, tag, ops, bodies);
      CountersInOtherStmt(info, tag, ro.node, rb.node);
      Out(Stmt(info, OtherStmt(tag, ro.node, rb.node)), rb.used)
  }

  lemma CountersInOtherStmt(info: Info, tag: string, ops: seq<Expr>, bodies: seq<Stmt>)
    ensures CountersInStmt(Stmt(info, OtherStmt(tag, ops, bodies))) == CountersInExprs(ops) + CountersInStmts(bodies)
  {
    assert [] + (CountersInExprs(ops) + CountersInStmts(bodies)) == CountersInExprs(ops) + CountersInStmts(bodies);
  }

  function GuardIf(info: Info, k: StmtKind, used: set<string>): (r: Out<Stmt>)
    requires k.If?
    ensures Grows(used, r.used, CountersInStmt(r.node))
    ensures |CountersInStmt(r.node)| == |CountersInStmt(Stmt(info, k))|
    ensures GuardedSlot(r.node) && r.node.info == info
    ensures r.node.kind.If? && r.node.kind.alternate.Some? == k.alternate.Some?
    ensures CountersInStmt(Stmt(info, k)) == [] ==> r == Out(Stmt(info, k), used)
    ensures UnguardStmt(r.node) == PlainAt(info, k)
    decreases k, 0
  {
    var rt := GuardExpr(k.test, used);
    var rc := GuardSlot(k.consequent, rt.used);
    GrowsTrans(used, rt.used, rc.used, CountersInExpr(rt.node), CountersInStmt(rc.node));
    match k.alternate
    case None => Out(Stmt(info, If(rt.node, rc.node, None)), rc.used)
    case Some(x) =>
      var rx := GuardSlot(x, rc.used);
      GrowsTrans(used, rc.used, rx.used, CountersInExpr(rt.node) + CountersInStmt(rc.node), CountersInStmt(rx.node));
      Out(Stmt(info, If(rt.node, rc.node, Some(rx.node))), rx.used)
  }

  /** `for-in` and `for-of` are not guarded; their head, object and body are traversed. */
  function GuardEach(info: Info, k: StmtKind, used: set<string>): (r: Out<Stmt>)
    requires k.ForIn? || k.ForOf?
    ensures Grows(used, r.used, CountersInStmt(r.node))
    ensures |CountersInStmt(r.node)| == |CountersInStmt(Stmt(info, k))|
    ensures GuardedSlot(r.node) && r.node.info == info
    ensures r.node.kind.ForIn? == k.ForIn? && r.node.kind.ForOf? == k.ForOf?
    ensures CountersInStmt(Stmt(info, k)) == [] ==> r == Out(Stmt(info, k), used)
    ensures UnguardStmt(r.node) == PlainAt(info, k)
    decreases k, 1
  {
    var rp := GuardEachParts(k, used);
    var (l, e, b) := rp.node;
    if k.ForIn? then Out(Stmt(info, ForIn(l, e, b)), rp.used)
    else Out(Stmt(info, ForOf(l, e, b)), rp.used)
  }

  /** The head, object and body of a `for-in` or `for-of`, traversed in that order. */
  function GuardEachParts(k: StmtKind, used: set<string>): (r: Out<(ForHead, Expr, Stmt)>)
    requires k.ForIn? || k.ForOf?
    ensures var (l, e, b) := r.node;
      Grows(used, r.used, CountersInHead(l) + CountersInExpr(e) + CountersInStmt(b))
    ensures var (l, e, b) := r.node;
      |CountersInHead(l) + CountersInExpr(e) + CountersInStmt(b)| ==
      |CountersInHead(k.left) + CountersInExpr(k.right) + CountersInStmt(k.body)|
    ensures GuardedHead(r.node.0) && GuardedExpr(r.node.1) && GuardedSlot(r.node.2)
    ensures CountersInHead(k.left) + CountersInExpr(k.right) + CountersInStmt(k.body) == [] ==>
              r == Out((k.left, k.right, k.body), used)
    ensures UnguardHead(r.node.0) == PlainHead(k.left) && UnguardExpr(r.node.1) == PlainExpr(k.right)
    ensures UnguardStmt(r.node.2) == PlainSlot(k.body)
    decreases k, 0
  {
    var rl := GuardHead(k.left, used);
    var rr := GuardExpr(k.right, rl.used);
    var rb := GuardSlot(k.body, rr.used);
    GrowsTrans(used, rl.used, rr.used, CountersInHead(rl.node), CountersInExpr(rr.node));
    GrowsTrans(used, rr.used, rb.used, CountersInHead(rl.node) + CountersInExpr(rr.node), CountersInStmt(rb.node));
    Out((rl.node, rr.node, rb.node), rb.used)
  }

  /**
   * A statement in a single-statement slot. A loop there cannot have a
   * sibling inserted before it, so it is wrapped in a new block holding the
   * declaration and the loop; the block takes over the loop's comments.
   */
  function GuardSlot(s: Stmt, used: set<string>): (r: Out<Stmt>)
    ensures Grows(used, r.used, CountersInStmt(r.node))
    ensures |CountersInStmt(r.node)| == |CountersInStmt(s)|
    ensures GuardedSlot(r.node)
    ensures CountersInStmt(s) == [] ==> r == Out(s, used)
    ensures UnguardStmt(r.node) == PlainSlot(s)
    ensures IsGuardKind(s.kind) ==>
      && r.node.info == Inherit(s.info) && r.node.kind.Block? && |r.node.kind.stmts| == 2
      && r.node.kind.stmts[0] == CounterDeclaration(CounterOf(r.node.kind.stmts[1]))
      && r.node.kind.stmts[1].info == Detached(s.info) && StmtTag(r.node.kind.stmts[1].kind) == StmtTag(s.kind)
    ensures !IsGuardKind(s.kind) ==> r.node.info == s.info && StmtTag(r.node.kind) == StmtTag(s.kind)
    decreases s
  {
    if IsGuardKind(s.kind) then
      var rl := GuardLoop(Detached(s.info), s.kind, used);
      Out(Stmt(Inherit(s.info), Block(rl.node)), rl.used)
    else GuardChildren(s.info, s.kind, used)
  }

  function GuardSlots(ss: seq<Stmt>, used: set<string>): (r: Out<seq<Stmt>>)
    ensures Grows(used, r.used, CountersInStmts(r.node))
    ensures |CountersInStmts(r.node)| == |CountersInStmts(ss)|
    ensures GuardedSlots(r.node)
    ensures CountersInStmts(ss) == [] ==> r == Out(ss, used)
    ensures UnguardStmts(r.node) == PlainSlots(ss)
    decreases ss
  {
    if ss == [] then GrowsNone(used); Out([], used)
    else
      var h := GuardSlot(ss[0], used);
      var t := GuardSlots(ss[1..], h.used);
      GrowsTrans(used, h.used, t.used, CountersInStmt(h.node), CountersInStmts(t.node));
      assert ([h.node] + t.node)[0] == h.node && ([h.node] + t.node)[1..] == t.node;
      assert ss == [ss[0]] + ss[1..];
      Out([h.node] + t.node, t.used)
  }

  /** One statement of a statement list. */
  function GuardListItem(s: Stmt, used: set<string>): (r: Out<seq<Stmt>>)
    ensures Grows(used, r.used, CountersInStmts(r.node))
    ensures |CountersInStmts(r.node)| == |CountersInStmt(s)|
    ensures GuardedList(r.node)
    ensures CountersInStmt(s) == [] ==> r == Out([s], used)
    ensures |r.node| == 1 || (|r.node| == 2 && IsGuardKind(r.node[1].kind))
    ensures UnguardList(r.node) == [PlainStmt(s)]
    decreases s
  {
    GuardInList(s.info, s.kind, used)
  }

  /** A statement list: each statement's replacement, in order. */
  function GuardList(ss: seq<Stmt>, used: set<string>): (r: Out<seq<Stmt>>)
    ensures Grows(used, r.used, CountersInStmts(r.node))
    ensures |CountersInStmts(r.node)| == |CountersInStmts(ss)|
    ensures GuardedList(r.node)
    ensures CountersInStmts(ss) == [] ==> r == Out(ss, used)
    ensures UnguardList(r.node) == PlainList(ss)
    decreases ss
  {
    if ss == [] then GrowsNone(used); Out([], used)
    else
      var h := GuardListItem(ss[0], used);
      var t := GuardList(ss[1..], h.used);
      GrowsTrans(used, h.used, t.used, CountersInStmts(h.node), CountersInStmts(t.node));
      CountersInStmtsConcat(h.node, t.node);
      GuardedListConcat(h.node, t.node);
      assert GuardedAt(h.node, 0);
      assert t.node != [] ==> GuardedAt(t.node, 0);
      UnguardListConcat(h.node, t.node);
      assert ss == [ss[0]] + ss[1..];
      Out(h.node + t.node, t.used)
  }

  /** The whole pass over a program, starting from the scope's ledger `used`. */
  function GuardLoops(p: Program, used: set<string>): (r: Out<Program>)
    ensures Grows(used, r.used, CountersInStmts(r.node.body))
    ensures |CountersInStmts(r.node.body)| == |CountersInStmts(p.body)|
    ensures GuardedList(r.node.body)
    ensures CountersInStmts(p.body) == [] ==> r == Out(p, used)
    ensures UnguardList(r.node.body) == PlainList(p.body)
  {
    var rs := GuardList(p.body, used);
    Out(Program(rs.node), rs.used)
  }

  // What the pass promises, stated on its results.

  function NameSet(names: seq<string>): set<string> {
    set x | x in names
  }

  ghost predicate Distinct(names: seq<string>) {
    forall i, j :: 0 <= i < j < |names| ==> names[i] != names[j]
  }

  /** Adding `names` to `before` gains |names| elements only when they are distinct and new. */
  lemma {:induction false} UnionBound(before: set<string>, names: seq<string>)
    ensures |before + NameSet(names)| <= |before| + |names|
    ensures |before + NameSet(names)| == |before| + |names| ==>
      Distinct(names) && forall i :: 0 <= i < |names| ==> names[i] !in before
    decreases names
  {
    if names != [] {
      var x, t := names[0], names[1..];
      var b1 := before + {x};
      UnionBound(b1, t);
      assert before + NameSet(names) == b1 + NameSet(t);
      if x in before {
        assert b1 == before;
      } else {
        assert |b1| == |before| + 1;
      }
      if |before + NameSet(names)| == |before| + |names| {
        assert x !in before;
        forall i, j | 0 <= i < j < |names|
          ensures names[i] != names[j]
        {
          assert names[j] == t[j - 1];
          if i > 0 {
            assert names[i] == t[i - 1];
          } else {
            assert t[j - 1] !in b1;
          }
        }
        forall i | 0 <= i < |names|
          ensures names[i] !in before
        {
          if i > 0 { assert names[i] == t[i - 1]; }
        }
      }
    }
  }

  /**
   * Every loop the pass guards gets its own counter: the names are pairwise
   * distinct, none of them was in the scope's ledger before, there is one
   * per `while`, `do-while` and `for` loop of the input, and the ledger
   * afterwards is the old one plus exactly these names.
   */
  lemma GuardLoopsFreshCounters(p: Program, used: set<string>)
    ensures var r := GuardLoops(p, used);
      var names := CountersInStmts(r.node.body);
      && |names| == |CountersInStmts(p.body)|
      && Distinct(names)
      && (forall i :: 0 <= i < |names| ==> names[i] !in used)
      && r.used == used + NameSet(names)
  {
    var r := GuardLoops(p, used);
    var names := CountersInStmts(r.node.body);
    assert r.used == used + NameSet(names);
    UnionBound(used, names);
  }

  /**
   * At a loop with no guarded loop inside it, the traversal is exactly
   * `addLoopCheck` with the first free `_loopCounter` name, which the
   * ledger then holds.
   */
  lemma GuardInListIsAddLoopCheck(info: Info, k: StmtKind, used: set<string>)
    requires IsGuardKind(k) && HeaderCounters(k) == [] && CountersInStmt(k.body) == []
    ensures var name := GenerateUid(used);
      GuardInList(info, k, used) == Out(AddLoopCheck(Stmt(info, k), name), used + {name})
  {
    var name := GenerateUid(used);
    var rh := GuardHeader(k, used + {name});
    assert rh == Out(k, used + {name});
  }

  /**
   * `addLoopCheck` keeps the loop's kind and header, declares the counter
   * with 0 right before the loop, and the new body increments it, checks it
   * against the limit reporting the body's line, then runs the original
   * statements.
   */
  lemma AddLoopCheckShape(loop: Stmt, name: string)
    requires IsGuardKind(loop.kind)
    ensures var r := AddLoopCheck(loop, name);
      && |r| == 2
      && r[0].kind == VarDecl(Let, [Declarator(Synthetic, Id(name), Some(Num(0)))])
      && r[1].info == loop.info
      && r[1].kind.While? == loop.kind.While? && r[1].kind.DoWhile? == loop.kind.DoWhile?
      && r[1].kind.For? == loop.kind.For?
      && (r[1].kind.For? ==>
            r[1].kind.init == loop.kind.init && r[1].kind.cond == loop.kind.cond && r[1].kind.update == loop.kind.update)
      && (!r[1].kind.For? ==> r[1].kind.test == loop.kind.test)
      && r[1].kind.body.kind.Block?
      && r[1].kind.body.kind.stmts[0] == CounterIncrement(name)
      && r[1].kind.body.kind.stmts[1] == LimitCheck(name, ReportedLine(loop.kind.body))
      && r[1].kind.body.kind.stmts[2..] == BodyStatements(loop.kind.body)
      && CounterOf(r[1]) == name
  {
    var r := AddLoopCheck(loop, name);
    var rest := BodyStatements(loop.kind.body);
    assert ([CounterIncrement(name), LimitCheck(name, ReportedLine(loop.kind.body))] + rest)[2..] == rest;
  }

  /** `while (true) { x++; }` on line 1, in a scope that knows no counter yet. */
  lemma ExampleWhileTrue()
    ensures var body := Stmt(Info(Some(1), [], [], []),
                             Block([Statement(ExprStmt(Expr(Synthetic, Update("++", false, Id("x")))))]));
      var loop := Statement(While(Id("true"), body));
      GuardLoops(Program([loop]), {}) ==
        Out(Program([CounterDeclaration("_loopCounter"),
                     Statement(While(Id("true"), Stmt(Inherit(body.info),
                       Block([CounterIncrement("_loopCounter"), LimitCheck("_loopCounter", 1)] + body.kind.stmts))))]),
            {"_loopCounter"})
  {
    var x := Statement(ExprStmt(Expr(Synthetic, Update("++", false, Id("x")))));
    var body := Stmt(Info(Some(1), [], [], []), Block([x]));
    var loop := Statement(While(Id("true"), body));
    assert CountersInStmts([x]) == CountersInStmt(x) + CountersInStmts([]) == [];
    assert CountersInStmt(body) == [];
    GuardInListIsAddLoopCheck(loop.info, loop.kind, {});
    GenerateUidFirstNames();
    GuardListSingleton(loop, {});
    assert ReportedLine(body) == 1;
  }

  /** A one-statement list is guarded as that statement in a list. */
  lemma GuardListSingleton(s: Stmt, used: set<string>)
    ensures GuardList([s], used) == GuardInList(s.info, s.kind, used)
  {
    var g := GuardInList(s.info, s.kind, used);
    assert [s][1..] == [];
    assert GuardList([s], used) == Out(g.node + [], g.used);
    assert g.node + [] == g.node;
  }

  function InnerLoop(): Stmt {
    Statement(While(Id("b"), Statement(Block([]))))
  }

  function OuterLoop(): Stmt {
    Statement(While(Id("a"), Statement(Block([InnerLoop()]))))
  }

  lemma NestedInnerStep()
    ensures GuardList([InnerLoop()], {"_loopCounter"}).node == AddLoopCheck(InnerLoop(), "_loopCounter2")
  {
    var inner := InnerLoop();
    GenerateUidFirstNames();
    assert CountersInStmt(inner.kind.body) == [];
    GuardInListIsAddLoopCheck(inner.info, inner.kind, {"_loopCounter"});
    assert [inner][1..] == [];
  }

  /** The outer loop of the nested example, guarded on its own. */
  lemma NestedOuterLoop()
    ensures GuardLoop(OuterLoop().info, OuterLoop().kind, {}).node ==
      [CounterDeclaration("_loopCounter"),
       Stmt(OuterLoop().info, While(Id("a"),
         Rebody(OuterLoop().kind.body, "_loopCounter", AddLoopCheck(InnerLoop(), "_loopCounter2"))))]
  {
    var inner, outer := InnerLoop(), OuterLoop();
    var n1 := "_loopCounter";
    GenerateUidFirstNames();
    NestedInnerStep();
    assert CountersInExpr(Id("a")) == [];
    assert GuardHeader(outer.kind, {n1}) == Out(outer.kind, {n1});
    assert GuardBodyStatements(outer.kind.body, {n1}) == GuardList([inner], {n1});
  }

  lemma NestedOuterStep()
    ensures GuardLoops(Program([OuterLoop()]), {}).node.body ==
      [CounterDeclaration("_loopCounter"),
       Stmt(OuterLoop().info, While(Id("a"),
         Rebody(OuterLoop().kind.body, "_loopCounter", AddLoopCheck(InnerLoop(), "_loopCounter2"))))]
  {
    var outer := OuterLoop();
    NestedOuterLoop();
    GuardListSingleton(outer, {});
    assert GuardInList(outer.info, outer.kind, {}) == GuardLoop(outer.info, outer.kind, {});
  }

  /**
   * `while (a) { while (b) {} }`: the outer loop is named on entry, before
   * the traversal reaches the inner one, so the outer counter is
   * `_loopCounter` and the inner one `_loopCounter2`.
   */
  lemma ExampleNestedNames()
    ensures CountersInStmts(GuardLoops(Program([OuterLoop()]), {}).node.body) == ["_loopCounter", "_loopCounter2"]
  {
    var inner, outer := InnerLoop(), OuterLoop();
    var guardedInner := AddLoopCheck(inner, "_loopCounter2");
    assert GuardedExpr(Id("b")) && GuardedExpr(Id("a"));
    assert CountersInExpr(Id("b")) == [] && CountersInExpr(Id("a")) == [];
    assert GuardedList([]);
    GuardedLoopFacts("_loopCounter2", inner.info, inner.kind, inner.kind.body, []);
    assert CountersInStmts(guardedInner) == ["_loopCounter2"];
    var k := While(Id("a"), outer.kind.body);
    var nb := Rebody(outer.kind.body, "_loopCounter", guardedInner);
    assert WithBody(k, nb) == While(Id("a"), nb);
    GuardedLoopFacts("_loopCounter", outer.info, k, outer.kind.body, guardedInner);
    assert CountersInStmts([CounterDeclaration("_loopCounter"), Stmt(outer.info, While(Id("a"), nb))])
      == ["_loopCounter", "_loopCounter2"];
    NestedOuterStep();
  }
}
