/**
 * The call-interception pass (`customLogTransformPlugin`): every call whose
 * callee is a member access with object named `console` and property named
 * `log` becomes a call of `customLogFunction` with the call's start line
 * prepended to the original arguments. The match looks at the two names
 * only, so `console[log](x)` is rewritten while `console["log"](x)` is not.
 */
module LogInterception {
  import opened Wrappers
  import opened Syntax

  const LogWrapper := "customLogFunction"

  /** Reading `loc.start.line` of a call that has no location throws. */
  datatype PassError = MissingLocation

  /** Babel's `node.name`: only identifiers have one. */
  function NameOf(e: Expr): Option<string> {
    if e.kind.Ident? then Some(e.kind.name) else None
  }

  /** `console.log`, `console[log]`: a member access naming `console` and `log`. */
  predicate IsConsoleLogCallee(callee: Expr) {
    && callee.kind.Member?
    && NameOf(callee.kind.obj) == Some("console")
    && NameOf(callee.kind.property) == Some("log")
  }

  predicate IsConsoleLog(e: Expr) {
    e.kind.Call? && IsConsoleLogCallee(e.kind.callee)
  }

  /** Every info in the list has a start line. */
  predicate Located(infos: seq<Info>) {
    forall info :: info in infos ==> info.startLine.Some?
  }

  // The infos of all `console.log(...)` calls in a subtree, in source order.

  function LogCalls(e: Expr): seq<Info>
    decreases e
  {
    (if IsConsoleLog(e) then [e.info] else []) +
    match e.kind
    case Ident(_) => []
    case NumLit(_) => []
    case StrLit(_) => []
    case Member(o, p, _) => LogCalls(o) + LogCalls(p)
    case Call(c, args) => LogCalls(c) + LogCallsOfAll(args)
    case New(c, args) => LogCalls(c) + LogCallsOfAll(args)
    case Update(_, _, a) => LogCalls(a)
    case Binary(_, l, r) => LogCalls(l) + LogCalls(r)
    case OtherExpr(_, ops, bodies) => LogCallsOfAll(ops) + LogCallsInStmts(bodies)
  }

  function LogCallsOfAll(es: seq<Expr>): seq<Info>
    decreases es
  {
    if es == [] then [] else LogCalls(es[0]) + LogCallsOfAll(es[1..])
  }

  function LogCallsOfOpt(o: Option<Expr>): seq<Info>
    decreases o
  {
    match o
    case None => []
    case Some(e) => LogCalls(e)
  }

  function LogCallsOfDeclarator(d: Declarator): seq<Info>
    decreases d
  {
    LogCalls(d.id) + LogCallsOfOpt(d.init)
  }

  function LogCallsOfDeclarators(ds: seq<Declarator>): seq<Info>
    decreases ds
  {
    if ds == [] then [] else LogCallsOfDeclarator(ds[0]) + LogCallsOfDeclarators(ds[1..])
  }

  function LogCallsOfHead(h: ForHead): seq<Info>
    decreases h
  {
    match h
    case HeadDecl(_, _, ds) => LogCallsOfDeclarators(ds)
    case HeadExpr(e) => LogCalls(e)
  }

  function LogCallsOfOptHead(o: Option<ForHead>): seq<Info>
    decreases o
  {
    match o
    case None => []
    case Some(h) => LogCallsOfHead(h)
  }

  /** Children are listed in Babel's visiting order (a `do-while` test before its body). */
  function LogCallsInStmt(s: Stmt): seq<Info>
    decreases s
  {
    match s.kind
    case ExprStmt(e) => LogCalls(e)
    case VarDecl(_, ds) => LogCallsOfDeclarators(ds)
    case Block(ss) => LogCallsInStmts(ss)
    case If(t, c, a) => LogCalls(t) + LogCallsInStmt(c) + LogCallsInOptStmt(a)
    case While(t, b) => LogCalls(t) + LogCallsInStmt(b)
    case DoWhile(b, t) => LogCalls(t) + LogCallsInStmt(b)
    case For(i, c, u, b) => LogCallsOfOptHead(i) + LogCallsOfOpt(c) + LogCallsOfOpt(u) + LogCallsInStmt(b)
    case ForIn(l, r, b) => LogCallsOfHead(l) + LogCalls(r) + LogCallsInStmt(b)
    case ForOf(l, r, b) => LogCallsOfHead(l) + LogCalls(r) + LogCallsInStmt(b)
    case Break => []
    case OtherStmt(_, ops, bodies) => LogCallsOfAll(ops) + LogCallsInStmts(bodies)
  }

  function LogCallsInOptStmt(o: Option<Stmt>): seq<Info>
    decreases o
  {
    match o
    case None => []
    case Some(s) => LogCallsInStmt(s)
  }

  function LogCallsInStmts(ss: seq<Stmt>): seq<Info>
    decreases ss
  {
    if ss == [] then [] else LogCallsInStmt(ss[0]) + LogCallsInStmts(ss[1..])
  }

  lemma LocatedConcat(a: seq<Info>, b: seq<Info>)
    ensures Located(a + b) <==> Located(a) && Located(b)
  {
  }

  lemma LogCallsOfCons(h: Expr, t: seq<Expr>)
    ensures LogCallsOfAll([h] + t) == LogCalls(h) + LogCallsOfAll(t)
  {
    assert ([h] + t)[1..] == t;
  }

  // The skeleton of a tree: what the pass must leave as it is. A matched
  // call `console.log(a...)` starting on line `n` and a call
  // `customLogFunction(n, a...)` have the same skeleton, a
  // `customLogFunction(n, a...)` node with the call's comments and no
  // location; every other node keeps its info and constructor and has the
  // skeletons of its children.

  /** A call of the wrapper with at least the line argument. */
  predicate IsWrapperCall(e: Expr) {
    e.kind.Call? && e.kind.callee == Id(LogWrapper) && |e.kind.arguments| >= 1
  }

  ghost function LogSkeleton(info: Info, args: seq<Expr>): Expr {
    Expr(Inherit(info), Call(Id(LogWrapper), args))
  }

  ghost function SkelExpr(e: Expr): Expr
    decreases e
  {
    if IsConsoleLog(e) then
      match e.info.startLine
      case Some(line) => LogSkeleton(e.info, [Num(line)] + SkelAll(e.kind.arguments))
      case None => LogSkeleton(e.info, SkelAll(e.kind.arguments))
    else if IsWrapperCall(e) then LogSkeleton(e.info, SkelAll(e.kind.arguments))
    else Expr(e.info, match e.kind
      case Ident(_) => e.kind
      case NumLit(_) => e.kind
      case StrLit(_) => e.kind
      case Member(o, p, computed) => Member(SkelExpr(o), SkelExpr(p), computed)
      case Call(c, args) => Call(SkelExpr(c), SkelAll(args))
      case New(c, args) => New(SkelExpr(c), SkelAll(args))
      case Update(op, prefix, a) => Update(op, prefix, SkelExpr(a))
      case Binary(op, l, r) => Binary(op, SkelExpr(l), SkelExpr(r))
      case OtherExpr(tag, ops, bodies) => OtherExpr(tag, SkelAll(ops), SkelStmts(bodies)))
  }

  ghost function SkelAll(es: seq<Expr>): (r: seq<Expr>)
    ensures |r| == |es|
    decreases es
  {
    if es == [] then [] else [SkelExpr(es[0])] + SkelAll(es[1..])
  }

  ghost function SkelOpt(o: Option<Expr>): Option<Expr>
    decreases o
  {
    match o
    case None => None
    case Some(e) => Some(SkelExpr(e))
  }

  ghost function SkelDeclarator(d: Declarator): Declarator
    decreases d
  {
    Declarator(d.info, SkelExpr(d.id), SkelOpt(d.init))
  }

  ghost function SkelDeclarators(ds: seq<Declarator>): seq<Declarator>
    decreases ds
  {
    if ds == [] then [] else [SkelDeclarator(ds[0])] + SkelDeclarators(ds[1..])
  }

  ghost function SkelHead(h: ForHead): ForHead
    decreases h
  {
    match h
    case HeadDecl(info, k, ds) => HeadDecl(info, k, SkelDeclarators(ds))
    case HeadExpr(e) => HeadExpr(SkelExpr(e))
  }

  ghost function SkelOptHead(o: Option<ForHead>): Option<ForHead>
    decreases o
  {
    match o
    case None => None
    case Some(h) => Some(SkelHead(h))
  }

  ghost function SkelStmt(s: Stmt): Stmt
    decreases s
  {
    Stmt(s.info, match s.kind
      case ExprStmt(e) => ExprStmt(SkelExpr(e))
      case VarDecl(k, ds) => VarDecl(k, SkelDeclarators(ds))
      case Block(ss) => Block(SkelStmts(ss))
      case If(t, c, a) => If(SkelExpr(t), SkelStmt(c), SkelOptStmt(a))
      case While(t, b) => While(SkelExpr(t), SkelStmt(b))
      case DoWhile(b, t) => DoWhile(SkelStmt(b), SkelExpr(t))
      case For(i, c, u, b) => For(SkelOptHead(i), SkelOpt(c), SkelOpt(u), SkelStmt(b))
      case ForIn(l, r, b) => ForIn(SkelHead(l), SkelExpr(r), SkelStmt(b))
      case ForOf(l, r, b) => ForOf(SkelHead(l), SkelExpr(r), SkelStmt(b))
      case Break => Break
      case OtherStmt(tag, ops, bodies) => OtherStmt(tag, SkelAll(ops), SkelStmts(bodies)))
  }

  ghost function SkelOptStmt(o: Option<Stmt>): Option<Stmt>
    decreases o
  {
    match o
    case None => None
    case Some(s) => Some(SkelStmt(s))
  }

  ghost function SkelStmts(ss: seq<Stmt>): seq<Stmt>
    decreases ss
  {
    if ss == [] then [] else [SkelStmt(ss[0])] + SkelStmts(ss[1..])
  }

  // The pass. Each function fails exactly when some `console.log` call below
  // has no location, leaves no `console.log` call behind, is the identity on
  // a subtree that has none, and keeps the skeleton of its input.

  function InterceptExpr(e: Expr): (r: Result<Expr, PassError>)
    ensures r.Ok? <==> Located(LogCalls(e))
    ensures r.Ok? ==> LogCalls(r.value) == []
    ensures LogCalls(e) == [] ==> r == Ok(e)
    ensures r.Ok? ==> NameOf(r.value) == NameOf(e) && IsConsoleLogCallee(r.value) == IsConsoleLogCallee(e)
    ensures r.Ok? ==> SkelExpr(r.value) == SkelExpr(e)
    decreases e, 2
  {
    if IsConsoleLog(e) then RewriteLogCall(e) else InterceptChildren(e)
  }

  /** The rewrite of one matched call: `customLogFunction(line, ...arguments)`. */
  function RewriteLogCall(e: Expr): (r: Result<Expr, PassError>)
    requires IsConsoleLog(e)
    ensures r.Ok? <==> Located(LogCalls(e))
    ensures r.Ok? ==> LogCalls(r.value) == [] && IsWrapperCall(r.value) && !IsConsoleLogCallee(r.value)
    ensures r.Ok? ==> e.info.startLine.Some? && r.value.kind.arguments[0] == Num(e.info.startLine.value)
    ensures r.Ok? ==> SkelExpr(r.value) == SkelExpr(e)
    decreases e, 0
  {
    match e.info.startLine
    case None => Err(MissingLocation)
    case Some(line) =>
      var args :- InterceptAll(e.kind.arguments);
      var callee := e.kind.callee;
      assert LogCalls(callee.kind.obj) == [] && LogCalls(callee.kind.property) == [];
      assert ([Num(line)] + args)[1..] == args;
      assert LogCallsOfAll([Num(line)] + args) == [];
      assert SkelAll([Num(line)] + args) == [Num(line)] + SkelAll(args);
      Ok(Expr(Inherit(e.info), Call(Id(LogWrapper), [Num(line)] + args)))
  }

  /** A node that is not a matched call keeps its kind and info; only its children are rewritten. */
  function InterceptChildren(e: Expr): (r: Result<Expr, PassError>)
    requires !IsConsoleLog(e)
    ensures r.Ok? <==> Located(LogCalls(e))
    ensures r.Ok? ==> LogCalls(r.value) == []
    ensures LogCalls(e) == [] ==> r == Ok(e)
    ensures r.Ok? ==> r.value.info == e.info && ExprTag(r.value.kind) == ExprTag(e.kind)
    ensures r.Ok? ==> NameOf(r.value) == NameOf(e) && IsConsoleLogCallee(r.value) == IsConsoleLogCallee(e)
    ensures r.Ok? ==> SkelExpr(r.value) == SkelExpr(e)
    decreases e, 1
  {
    if e.kind.Call? then InterceptCallChildren(e)
    else if e.kind.New? then InterceptNewChildren(e)
    else if e.kind.OtherExpr? then InterceptOtherChildren(e)
    else InterceptNodeChildren(e)
  }

  /** Leaves, member accesses, updates and binary operations. */
  function InterceptNodeChildren(e: Expr): (r: Result<Expr, PassError>)
    requires !(e.kind.Call? || e.kind.New? || e.kind.OtherExpr?)
    ensures r.Ok? <==> Located(LogCalls(e))
    ensures r.Ok? ==> LogCalls(r.value) == []
    ensures LogCalls(e) == [] ==> r == Ok(e)
    ensures r.Ok? ==> r.value.info == e.info && ExprTag(r.value.kind) == ExprTag(e.kind)
    ensures r.Ok? ==> NameOf(r.value) == NameOf(e) && IsConsoleLogCallee(r.value) == IsConsoleLogCallee(e)
    ensures r.Ok? ==> SkelExpr(r.value) == SkelExpr(e)
    decreases e, 0
  {
    match e.kind
    case Ident(_) => Ok(e)
    case NumLit(_) => Ok(e)
    case StrLit(_) => Ok(e)
    case Member(o, p, computed) =>
      var o' :- InterceptExpr(o);
      var p' :- InterceptExpr(p);
      Ok(Expr(e.info, Member(o', p', computed)))
    case Update(op, prefix, a) =>
      var a' :- InterceptExpr(a);
      Ok(Expr(e.info, Update(op, prefix, a')))
    case Binary(op, l, r) =>
      var l' :- InterceptExpr(l);
      var r' :- InterceptExpr(r);
      Ok(Expr(e.info, Binary(op, l', r')))
  }

  /** `new`. */
  function InterceptNewChildren(e: Expr): (r: Result<Expr, PassError>)
    requires e.kind.New?
    ensures r.Ok? <==> Located(LogCalls(e))
    ensures r.Ok? ==> LogCalls(r.value) == []
    ensures LogCalls(e) == [] ==> r == Ok(e)
    ensures r.Ok? ==> r.value.info == e.info && r.value.kind.New?
    ensures r.Ok? ==> SkelExpr(r.value) == SkelExpr(e)
    decreases e, 0
  {
    var c := e.kind.callee;
    var args := e.kind.arguments;
    assert LogCalls(e) == LogCalls(c) + LogCallsOfAll(args);
    LocatedConcat(LogCalls(c), LogCallsOfAll(args));
    var c' :- InterceptExpr(c);
    var args' :- InterceptAll(args);
    Ok(Expr(e.info, New(c', args')))
  }

  /** The other expressions: their operands, then the statements of their bodies. */
  function InterceptOtherChildren(e: Expr): (r: Result<Expr, PassError>)
    requires e.kind.OtherExpr?
    ensures r.Ok? <==> Located(LogCalls(e))
    ensures r.Ok? ==> LogCalls(r.value) == []
    ensures LogCalls(e) == [] ==> r == Ok(e)
    ensures r.Ok? ==> r.value.info == e.info && r.value.kind.OtherExpr? && r.value.kind.tag == e.kind.tag
    ensures r.Ok? ==> SkelExpr(r.value) == SkelExpr(e)
    decreases e, 0
  {
    var ops := e.kind.operands;
    var bodies := e.kind.bodies;
    assert LogCalls(e) == LogCallsOfAll(ops) + LogCallsInStmts(bodies);
    LocatedConcat(LogCallsOfAll(ops), LogCallsInStmts(bodies));
    var ops' :- InterceptAll(ops);
    var bodies' :- InterceptStmts(bodies);
    Ok(Expr(e.info, OtherExpr(e.kind.tag, ops', bodies')))
  }

  /** A call that is not matched; a `customLogFunction` call stays one. */
  function InterceptCallChildren(e: Expr): (r: Result<Expr, PassError>)
    requires e.kind.Call? && !IsConsoleLog(e)
    ensures r.Ok? <==> Located(LogCalls(e))
    ensures r.Ok? ==> LogCalls(r.value) == []
    ensures LogCalls(e) == [] ==> r == Ok(e)
    ensures r.Ok? ==> r.value.info == e.info && r.value.kind.Call?
    ensures r.Ok? ==> IsWrapperCall(r.value) == IsWrapperCall(e)
    ensures r.Ok? ==> SkelExpr(r.value) == SkelExpr(e)
    decreases e, 0
  {
    var c := e.kind.callee;
    var c' :- InterceptExpr(c);
    var args' :- InterceptAll(e.kind.arguments);
    assert c == Id(LogWrapper) ==> c' == c;
    assert c' == Id(LogWrapper) ==> NameOf(c) == Some(LogWrapper) && c' == c;
    Ok(Expr(e.info, Call(c', args')))
  }

  function InterceptAll(es: seq<Expr>): (r: Result<seq<Expr>, PassError>)
    ensures r.Ok? <==> Located(LogCallsOfAll(es))
    ensures r.Ok? ==> LogCallsOfAll(r.value) == []
    ensures r.Ok? ==> |r.value| == |es|
    ensures LogCallsOfAll(es) == [] ==> r == Ok(es)
    ensures r.Ok? ==> SkelAll(r.value) == SkelAll(es)
    decreases es
  {
    if es == [] then Ok([])
    else
      var h :- InterceptExpr(es[0]);
      LocatedConcat(LogCalls(es[0]), LogCallsOfAll(es[1..]));
      var t :- InterceptAll(es[1..]);
      LogCallsOfCons(h, t);
      assert ([h] + t)[1..] == t;
      assert LogCallsOfAll(es) == [] ==> [h] + t == es;
      Ok([h] + t)
  }

  function InterceptOpt(o: Option<Expr>): (r: Result<Option<Expr>, PassError>)
    ensures r.Ok? <==> Located(LogCallsOfOpt(o))
    ensures r.Ok? ==> LogCallsOfOpt(r.value) == []
    ensures LogCallsOfOpt(o) == [] ==> r == Ok(o)
    ensures r.Ok? ==> SkelOpt(r.value) == SkelOpt(o)
    decreases o
  {
    match o
    case None => Ok(None)
    case Some(e) =>
      var e' :- InterceptExpr(e);
      Ok(Some(e'))
  }

  function InterceptDeclarator(d: Declarator): (r: Result<Declarator, PassError>)
    ensures r.Ok? <==> Located(LogCallsOfDeclarator(d))
    ensures r.Ok? ==> LogCallsOfDeclarator(r.value) == []
    ensures LogCallsOfDeclarator(d) == [] ==> r == Ok(d)
    ensures r.Ok? ==> SkelDeclarator(r.value) == SkelDeclarator(d)
    decreases d
  {
    var id :- InterceptExpr(d.id);
    var init :- InterceptOpt(d.init);
    Ok(Declarator(d.info, id, init))
  }

  function InterceptDeclarators(ds: seq<Declarator>): (r: Result<seq<Declarator>, PassError>)
    ensures r.Ok? <==> Located(LogCallsOfDeclarators(ds))
    ensures r.Ok? ==> LogCallsOfDeclarators(r.value) == []
    ensures LogCallsOfDeclarators(ds) == [] ==> r == Ok(ds)
    ensures r.Ok? ==> SkelDeclarators(r.value) == SkelDeclarators(ds)
    decreases ds
  {
    if ds == [] then Ok([])
    else
      var h :- InterceptDeclarator(ds[0]);
      var t :- InterceptDeclarators(ds[1..]);
      assert ([h] + t)[1..] == t;
      assert ds == [ds[0]] + ds[1..];
      Ok([h] + t)
  }

  function InterceptHead(h: ForHead): (r: Result<ForHead, PassError>)
    ensures r.Ok? <==> Located(LogCallsOfHead(h))
    ensures r.Ok? ==> LogCallsOfHead(r.value) == []
    ensures LogCallsOfHead(h) == [] ==> r == Ok(h)
    ensures r.Ok? ==> SkelHead(r.value) == SkelHead(h)
    decreases h
  {
    match h
    case HeadDecl(info, k, ds) =>
      var ds' :- InterceptDeclarators(ds);
      Ok(HeadDecl(info, k, ds'))
    case HeadExpr(e) =>
      var e' :- InterceptExpr(e);
      Ok(HeadExpr(e'))
  }

  function InterceptOptHead(o: Option<ForHead>): (r: Result<Option<ForHead>, PassError>)
    ensures r.Ok? <==> Located(LogCallsOfOptHead(o))
    ensures r.Ok? ==> LogCallsOfOptHead(r.value) == []
    ensures LogCallsOfOptHead(o) == [] ==> r == Ok(o)
    ensures r.Ok? ==> SkelOptHead(r.value) == SkelOptHead(o)
    decreases o
  {
    match o
    case None => Ok(None)
    case Some(h) =>
      var h' :- InterceptHead(h);
      Ok(Some(h'))
  }

  function InterceptStmt(s: Stmt): (r: Result<Stmt, PassError>)
    ensures r.Ok? <==> Located(LogCallsInStmt(s))
    ensures r.Ok? ==> LogCallsInStmt(r.value) == []
    ensures LogCallsInStmt(s) == [] ==> r == Ok(s)
    ensures r.Ok? ==> SkelStmt(r.value) == SkelStmt(s)
    decreases s, 1
  {
    if s.kind.ForIn? || s.kind.ForOf? then InterceptEach(s)
    else if IsLoop(s.kind) then InterceptLoop(s)
    else InterceptOtherStmt(s)
  }

  /** `while`, `do-while` and `for`. */
  function InterceptLoop(s: Stmt): (r: Result<Stmt, PassError>)
    requires s.kind.While? || s.kind.DoWhile? || s.kind.For?
    ensures r.Ok? <==> Located(LogCallsInStmt(s))
    ensures r.Ok? ==> LogCallsInStmt(r.value) == []
    ensures LogCallsInStmt(s) == [] ==> r == Ok(s)
    ensures r.Ok? ==> SkelStmt(r.value) == SkelStmt(s)
    decreases s, 0
  {
    match s.kind
    case While(t, b) =>
      var t' :- InterceptExpr(t);
      var b' :- InterceptStmt(b);
      Ok(Stmt(s.info, While(t', b')))
    case DoWhile(b, t) =>
      var t' :- InterceptExpr(t);
      var b' :- InterceptStmt(b);
      Ok(Stmt(s.info, DoWhile(b', t')))
    case For(i, c, u, b) =>
      var i' :- InterceptOptHead(i);
      var c' :- InterceptOpt(c);
      var u' :- InterceptOpt(u);
      var b' :- InterceptStmt(b);
      Ok(Stmt(s.info, For(i', c', u', b')))
  }

  /** `for-in` and `for-of`. */
  function InterceptEach(s: Stmt): (r: Result<Stmt, PassError>)
    requires s.kind.ForIn? || s.kind.ForOf?
    ensures r.Ok? <==> Located(LogCallsInStmt(s))
    ensures r.Ok? ==> LogCallsInStmt(r.value) == []
    ensures LogCallsInStmt(s) == [] ==> r == Ok(s)
    ensures r.Ok? ==> SkelStmt(r.value) == SkelStmt(s)
    decreases s, 0
  {
    match s.kind
    case ForIn(l, r, b) =>
      var l' :- InterceptHead(l);
      var r' :- InterceptExpr(r);
      var b' :- InterceptStmt(b);
      Ok(Stmt(s.info, ForIn(l', r', b')))
    case ForOf(l, r, b) =>
      var l' :- InterceptHead(l);
      var r' :- InterceptExpr(r);
      var b' :- InterceptStmt(b);
      Ok(Stmt(s.info, ForOf(l', r', b')))
  }

  /** The statements that are not loops. */
  function InterceptOtherStmt(s: Stmt): (r: Result<Stmt, PassError>)
    requires !IsLoop(s.kind)
    ensures r.Ok? <==> Located(LogCallsInStmt(s))
    ensures r.Ok? ==> LogCallsInStmt(r.value) == []
    ensures LogCallsInStmt(s) == [] ==> r == Ok(s)
    ensures r.Ok? ==> SkelStmt(r.value) == SkelStmt(s)
    decreases s, 0
  {
    match s.kind
    case ExprStmt(e) =>
      var e' :- InterceptExpr(e);
      Ok(Stmt(s.info, ExprStmt(e')))
    case VarDecl(k, ds) =>
      var ds' :- InterceptDeclarators(ds);
      Ok(Stmt(s.info, VarDecl(k, ds')))
    case Block(ss) =>
      var ss' :- InterceptStmts(ss);
      Ok(Stmt(s.info, Block(ss')))
    case If(t, c, a) =>
      var t' :- InterceptExpr(t);
      var c' :- InterceptStmt(c);
      var a' :- InterceptOptStmt(a);
      Ok(Stmt(s.info, If(t', c', a')))
    case Break => Ok(s)
    case OtherStmt(tag, ops, bodies) =>
      var ops' :- InterceptAll(ops);
      var bodies' :- InterceptStmts(bodies);
      Ok(Stmt(s.info, OtherStmt(tag, ops', bodies')))
  }

  function InterceptOptStmt(o: Option<Stmt>): (r: Result<Option<Stmt>, PassError>)
    ensures r.Ok? <==> Located(LogCallsInOptStmt(o))
    ensures r.Ok? ==> LogCallsInOptStmt(r.value) == []
    ensures LogCallsInOptStmt(o) == [] ==> r == Ok(o)
    ensures r.Ok? ==> SkelOptStmt(r.value) == SkelOptStmt(o)
    decreases o
  {
    match o
    case None => Ok(None)
    case Some(s) =>
      var s' :- InterceptStmt(s);
      Ok(Some(s'))
  }

  function InterceptStmts(ss: seq<Stmt>): (r: Result<seq<Stmt>, PassError>)
    ensures r.Ok? <==> Located(LogCallsInStmts(ss))
    ensures r.Ok? ==> LogCallsInStmts(r.value) == []
    ensures LogCallsInStmts(ss) == [] ==> r == Ok(ss)
    ensures r.Ok? ==> SkelStmts(r.value) == SkelStmts(ss)
    decreases ss
  {
    if ss == [] then Ok([])
    else
      var h :- InterceptStmt(ss[0]);
      var t :- InterceptStmts(ss[1..]);
      assert ([h] + t)[1..] == t;
      assert ss == [ss[0]] + ss[1..];
      Ok([h] + t)
  }

  /**
   * The whole pass over a program: it fails exactly when some matched call
   * has no location, leaves no matched call, changes nothing in a program
   * without one, and keeps everything but the rewritten calls.
   */
  function InterceptLogs(p: Program): (r: Result<Program, PassError>)
    ensures r.Ok? <==> Located(LogCallsInStmts(p.body))
    ensures r.Ok? ==> LogCallsInStmts(r.value.body) == []
    ensures LogCallsInStmts(p.body) == [] ==> r == Ok(p)
    ensures r.Ok? ==> SkelStmts(r.value.body) == SkelStmts(p.body)
  {
    var body :- InterceptStmts(p.body);
    Ok(Program(body))
  }

  /** A list is rewritten element by element, each in place. */
  lemma {:induction false} InterceptAllPointwise(es: seq<Expr>)
    requires InterceptAll(es).Ok?
    ensures var r := InterceptAll(es).value;
      |r| == |es| && forall k :: 0 <= k < |es| ==> InterceptExpr(es[k]) == Ok(r[k])
    decreases es
  {
    if es != [] {
      InterceptAllPointwise(es[1..]);
      var t := InterceptAll(es[1..]).value;
      var r := InterceptAll(es).value;
      assert r == [InterceptExpr(es[0]).value] + t;
      forall k | 1 <= k < |es|
        ensures InterceptExpr(es[k]) == Ok(r[k])
      {
        assert r[k] == t[k - 1] && es[k] == es[1..][k - 1];
      }
    }
  }

  /**
   * A matched call at line `line` becomes `customLogFunction(line, a1', ..., an')`:
   * the line first, then the original arguments (each itself intercepted) in
   * their original order and number; the new call keeps the old comments.
   */
  lemma LogCallRewritten(e: Expr, line: nat)
    requires IsConsoleLog(e) && e.info.startLine == Some(line)
    requires InterceptExpr(e).Ok?
    ensures var r := InterceptExpr(e).value;
      && r.info == Inherit(e.info)
      && r.kind.Call? && r.kind.callee == Id(LogWrapper)
      && |r.kind.arguments| == |e.kind.arguments| + 1
      && r.kind.arguments[0] == Num(line)
      && forall k :: 0 <= k < |e.kind.arguments| ==> InterceptExpr(e.kind.arguments[k]) == Ok(r.kind.arguments[k + 1])
  {
    var callee, es := e.kind.callee, e.kind.arguments;
    assert LogCalls(e) == [e.info] + (LogCalls(callee) + LogCallsOfAll(es));
    LocatedConcat([e.info], LogCalls(callee) + LogCallsOfAll(es));
    LocatedConcat(LogCalls(callee), LogCallsOfAll(es));
    assert InterceptAll(es).Ok?;
    InterceptAllPointwise(es);
    var args := InterceptAll(es).value;
    var all := [Num(line)] + args;
    RewriteLogCallShape(e, line);
    assert InterceptExpr(e) == Ok(Expr(Inherit(e.info), Call(Id(LogWrapper), all)));
    PrependShifts(Num(line), args);
  }

  lemma PrependShifts(x: Expr, xs: seq<Expr>)
    ensures forall k :: 0 <= k < |xs| ==> ([x] + xs)[k + 1] == xs[k]
  {
  }

  /** The rewrite of a located call, once its arguments have been rewritten. */
  lemma RewriteLogCallShape(e: Expr, line: nat)
    requires IsConsoleLog(e) && e.info.startLine == Some(line)
    ensures InterceptAll(e.kind.arguments).Ok? ==>
              InterceptExpr(e) == Ok(Expr(Inherit(e.info), Call(Id(LogWrapper), [Num(line)] + InterceptAll(e.kind.arguments).value)))
  {
    assert InterceptExpr(e) == RewriteLogCall(e);
  }

  /** Arguments without logging calls of their own are passed through untouched. */
  lemma LogCallArgumentsMoved(e: Expr, line: nat)
    requires IsConsoleLog(e) && e.info.startLine == Some(line)
    requires LogCallsOfAll(e.kind.arguments) == []
    ensures InterceptExpr(e) == Ok(Expr(Inherit(e.info), Call(Id(LogWrapper), [Num(line)] + e.kind.arguments)))
  {
  }

  /**
   * The skeleton fixes the line argument: a wrapper call with the skeleton of
   * a `console.log` call starting on line `line` passes exactly `line` first.
   */
  lemma SkeletonFixesLine(w: Expr, e: Expr, line: nat)
    requires IsConsoleLog(e) && e.info.startLine == Some(line)
    requires IsWrapperCall(w) && SkelExpr(w) == SkelExpr(e)
    ensures w.kind.arguments[0] == Num(line)
  {
    var a := w.kind.arguments[0];
    assert SkelAll(w.kind.arguments)[0] == SkelExpr(a);
    assert SkelExpr(a) == Num(line);
  }

  /** Any other call keeps its info and its number of arguments. */
  lemma OtherCallKeepsShape(e: Expr)
    requires e.kind.Call? && !IsConsoleLog(e)
    requires InterceptExpr(e).Ok?
    ensures var r := InterceptExpr(e).value;
      && r.info == e.info && r.kind.Call?
      && InterceptExpr(e.kind.callee) == Ok(r.kind.callee)
      && |r.kind.arguments| == |e.kind.arguments|
      && forall k :: 0 <= k < |e.kind.arguments| ==> InterceptExpr(e.kind.arguments[k]) == Ok(r.kind.arguments[k])
  {
    assert InterceptExpr(e) == InterceptChildren(e) == InterceptCallChildren(e);
    InterceptAllPointwise(e.kind.arguments);
  }

  /** Running the pass on its own output changes nothing more. */
  lemma InterceptLogsIdempotent(p: Program)
    requires InterceptLogs(p).Ok?
    ensures InterceptLogs(InterceptLogs(p).value) == InterceptLogs(p)
  {
  }

  /** `console.log("hi", x)` at line 7 becomes `customLogFunction(7, "hi", x)`. */
  lemma ExampleLogAtLine7(hi: Expr, x: Expr)
    requires hi == Str("hi") && x == Id("x")
    ensures var call := Expr(Info(Some(7), [], [], []), Call(Expr(Synthetic, Member(Id("console"), Id("log"), false)), [hi, x]));
      InterceptExpr(call) == Ok(Expr(Synthetic, Call(Id(LogWrapper), [Num(7), hi, x])))
  {
    var call := Expr(Info(Some(7), [], [], []), Call(Expr(Synthetic, Member(Id("console"), Id("log"), false)), [hi, x]));
    assert [hi, x][1..] == [x] && [x][1..] == [];
    assert LogCalls(hi) == [] && LogCalls(x) == [];
    assert LogCallsOfAll([x]) == LogCalls(x) + LogCallsOfAll([]) == [];
    assert LogCallsOfAll([hi, x]) == LogCalls(hi) + LogCallsOfAll([x]) == [];
    LogCallArgumentsMoved(call, 7);
    assert [Num(7)] + [hi, x] == [Num(7), hi, x];
  }

  /** Only names are compared: `console[log]()` matches, `console["log"]()` does not. */
  lemma ExampleComputedAccess()
    ensures IsConsoleLog(Expr(Synthetic, Call(Expr(Synthetic, Member(Id("console"), Id("log"), true)), [])))
    ensures !IsConsoleLog(Expr(Synthetic, Call(Expr(Synthetic, Member(Id("console"), Str("log"), true)), [])))
  {
  }
}
