/**
 * The comment pass (`replaceCommentsPlugin`): for every node below the
 * program, each comment in its leading and trailing lists whose type is
 * `CommentLine` becomes a `CommentBlock` with the same text. Inner comments
 * are not looked at, and nothing else about a node changes.
 */
module CommentNormalization {
  import opened Wrappers
  import opened Syntax

  function NormalizeComment(c: Comment): (r: Comment)
    ensures r.style == CommentBlock && r.text == c.text
    ensures c.style == CommentBlock ==> r == c
  {
    if c.style.CommentLine? then Comment(CommentBlock, c.text) else c
  }

  predicate BlockOnly(cs: seq<Comment>) {
    forall c :: c in cs ==> c.style == CommentBlock
  }

  /** One `forEach` over a comment list, as a value. */
  function NormalizeList(cs: seq<Comment>): (r: seq<Comment>)
    ensures |r| == |cs|
    ensures forall i :: 0 <= i < |cs| ==> r[i] == NormalizeComment(cs[i])
    ensures BlockOnly(r)
    ensures BlockOnly(cs) ==> r == cs
  {
    if cs == [] then [] else [NormalizeComment(cs[0])] + NormalizeList(cs[1..])
  }

  /** The same `forEach`, assigning `type` in place in the node's comment array. */
  method NormalizeInPlace(comments: array<Comment>)
    modifies comments
    ensures comments[..] == NormalizeList(old(comments[..]))
  {
    var i := 0;
    while i < comments.Length
      invariant 0 <= i <= comments.Length
      invariant forall k :: 0 <= k < i ==> comments[k] == NormalizeComment(old(comments[k]))
      invariant forall k :: i <= k < comments.Length ==> comments[k] == old(comments[k])
    {
      if comments[i].style.CommentLine? {
        comments[i] := comments[i].(style := CommentBlock);
      }
      i := i + 1;
    }
  }

  predicate InfoNormalized(info: Info) {
    BlockOnly(info.leading) && BlockOnly(info.trailing)
  }

  /** The pass's work on one node: its leading and trailing lists. */
  function NormalizeInfo(info: Info): (r: Info)
    ensures InfoNormalized(r)
    ensures InfoNormalized(info) ==> r == info
    ensures r.startLine == info.startLine && r.inner == info.inner
    ensures |r.leading| == |info.leading| && |r.trailing| == |info.trailing|
    ensures forall i :: 0 <= i < |info.leading| ==> r.leading[i].text == info.leading[i].text
    ensures forall i :: 0 <= i < |info.trailing| ==> r.trailing[i].text == info.trailing[i].text
    ensures ShapeInfo(r) == ShapeInfo(info)
  {
    info.(leading := NormalizeList(info.leading), trailing := NormalizeList(info.trailing))
  }

  // A tree is normalized when no leading or trailing comment of any node is a line comment.

  predicate NormalizedExpr(e: Expr)
    decreases e, 1
  {
    InfoNormalized(e.info) && NormalizedExprKind(e.kind)
  }

  predicate NormalizedExprKind(k: ExprKind)
    decreases k, 0
  {
    match k
    case Ident(_) => true
    case NumLit(_) => true
    case StrLit(_) => true
    case Member(o, p, _) => NormalizedExpr(o) && NormalizedExpr(p)
    case Call(c, args) => NormalizedExpr(c) && NormalizedExprs(args)
    case New(c, args) => NormalizedExpr(c) && NormalizedExprs(args)
    case Update(_, _, a) => NormalizedExpr(a)
    case Binary(_, l, r) => NormalizedExpr(l) && NormalizedExpr(r)
    case OtherExpr(_, ops, bodies) => NormalizedExprs(ops) && NormalizedStmts(bodies)
  }

  predicate NormalizedExprs(es: seq<Expr>)
    decreases es
  {
    forall k :: 0 <= k < |es| ==> NormalizedExpr(es[k])
  }

  predicate NormalizedOpt(o: Option<Expr>)
    decreases o
  {
    match o
    case None => true
    case Some(e) => NormalizedExpr(e)
  }

  predicate NormalizedDeclarator(d: Declarator)
    decreases d
  {
    InfoNormalized(d.info) && NormalizedExpr(d.id) && NormalizedOpt(d.init)
  }

  predicate NormalizedDeclarators(ds: seq<Declarator>)
    decreases ds
  {
    forall k :: 0 <= k < |ds| ==> NormalizedDeclarator(ds[k])
  }

  predicate NormalizedHead(h: ForHead)
    decreases h
  {
    match h
    case HeadDecl(info, _, ds) => InfoNormalized(info) && NormalizedDeclarators(ds)
    case HeadExpr(e) => NormalizedExpr(e)
  }

  predicate NormalizedStmt(s: Stmt)
    decreases s, 1
  {
    InfoNormalized(s.info) && NormalizedStmtKind(s.kind)
  }

  predicate NormalizedStmtKind(k: StmtKind)
    decreases k, 0
  {
    match k
    case ExprStmt(e) => NormalizedExpr(e)
    case VarDecl(_, ds) => NormalizedDeclarators(ds)
    case Block(ss) => NormalizedStmts(ss)
    case If(t, c, a) =>
      NormalizedExpr(t) && NormalizedStmt(c) && NormalizedOptStmt(a)
    case While(t, b) => NormalizedExpr(t) && NormalizedStmt(b)
    case DoWhile(b, t) => NormalizedStmt(b) && NormalizedExpr(t)
    case For(i, c, u, b) =>
      NormalizedOptHead(i) && NormalizedOpt(c) && NormalizedOpt(u) && NormalizedStmt(b)
    case ForIn(l, r, b) => NormalizedHead(l) && NormalizedExpr(r) && NormalizedStmt(b)
    case ForOf(l, r, b) => NormalizedHead(l) && NormalizedExpr(r) && NormalizedStmt(b)
    case Break => true
    case OtherStmt(_, ops, bodies) => NormalizedExprs(ops) && NormalizedStmts(bodies)
  }

  predicate NormalizedOptStmt(o: Option<Stmt>)
    decreases o
  {
    match o
    case None => true
    case Some(s) => NormalizedStmt(s)
  }

  predicate NormalizedOptHead(o: Option<ForHead>)
    decreases o
  {
    match o
    case None => true
    case Some(h) => NormalizedHead(h)
  }

  predicate NormalizedStmts(ss: seq<Stmt>)
    decreases ss
  {
    forall k :: 0 <= k < |ss| ==> NormalizedStmt(ss[k])
  }

  // The shape of a tree: the same tree with every comment's style erased.
  // The pass changes styles and nothing else, so a tree and its
  // normalization have the same shape; with `Normalized*` of the result
  // this fixes the result completely.

  ghost function EraseStyles(cs: seq<Comment>): (r: seq<Comment>)
    ensures |r| == |cs|
  {
    seq(|cs|, i requires 0 <= i < |cs| => Comment(CommentLine, cs[i].text))
  }

  ghost function ShapeInfo(info: Info): Info {
    info.(leading := EraseStyles(info.leading), trailing := EraseStyles(info.trailing))
  }

  ghost function ShapeExpr(e: Expr): Expr
    decreases e, 1
  {
    Expr(ShapeInfo(e.info), ShapeExprKind(e.kind))
  }

  ghost function ShapeExprKind(k: ExprKind): ExprKind
    decreases k, 0
  {
    match k
    case Ident(_) => k
    case NumLit(_) => k
    case StrLit(_) => k
    case Member(o, p, computed) => Member(ShapeExpr(o), ShapeExpr(p), computed)
    case Call(c, args) => Call(ShapeExpr(c), ShapeExprs(args))
    case New(c, args) => New(ShapeExpr(c), ShapeExprs(args))
    case Update(op, prefix, a) => Update(op, prefix, ShapeExpr(a))
    case Binary(op, l, r) => Binary(op, ShapeExpr(l), ShapeExpr(r))
    case OtherExpr(tag, ops, bodies) => OtherExpr(tag, ShapeExprs(ops), ShapeStmts(bodies))
  }

  ghost function ShapeExprs(es: seq<Expr>): seq<Expr>
    decreases es
  {
    seq(|es|, k requires 0 <= k < |es| => ShapeExpr(es[k]))
  }

  ghost function ShapeOpt(o: Option<Expr>): Option<Expr>
    decreases o
  {
    match o
    case None => None
    case Some(e) => Some(ShapeExpr(e))
  }

  ghost function ShapeDeclarator(d: Declarator): Declarator
    decreases d
  {
    Declarator(ShapeInfo(d.info), ShapeExpr(d.id), ShapeOpt(d.init))
  }

  ghost function ShapeDeclarators(ds: seq<Declarator>): seq<Declarator>
    decreases ds
  {
    seq(|ds|, k requires 0 <= k < |ds| => ShapeDeclarator(ds[k]))
  }

  ghost function ShapeHead(h: ForHead): ForHead
    decreases h
  {
    match h
    case HeadDecl(info, k, ds) => HeadDecl(ShapeInfo(info), k, ShapeDeclarators(ds))
    case HeadExpr(e) => HeadExpr(ShapeExpr(e))
  }

  ghost function ShapeStmt(s: Stmt): Stmt
    decreases s, 1
  {
    Stmt(ShapeInfo(s.info), ShapeStmtKind(s.kind))
  }

  ghost function ShapeStmtKind(k: StmtKind): StmtKind
    decreases k, 0
  {
    match k
    case ExprStmt(e) => ExprStmt(ShapeExpr(e))
    case VarDecl(k, ds) => VarDecl(k, ShapeDeclarators(ds))
    case Block(ss) => Block(ShapeStmts(ss))
    case If(t, c, a) => If(ShapeExpr(t), ShapeStmt(c), ShapeOptStmt(a))
    case While(t, b) => While(ShapeExpr(t), ShapeStmt(b))
    case DoWhile(b, t) => DoWhile(ShapeStmt(b), ShapeExpr(t))
    case For(i, c, u, b) => For(ShapeOptHead(i), ShapeOpt(c), ShapeOpt(u), ShapeStmt(b))
    case ForIn(l, r, b) => ForIn(ShapeHead(l), ShapeExpr(r), ShapeStmt(b))
    case ForOf(l, r, b) => ForOf(ShapeHead(l), ShapeExpr(r), ShapeStmt(b))
    case Break => Break
    case OtherStmt(tag, ops, bodies) => OtherStmt(tag, ShapeExprs(ops), ShapeStmts(bodies))
  }

  ghost function ShapeOptStmt(o: Option<Stmt>): Option<Stmt>
    decreases o
  {
    match o
    case None => None
    case Some(s) => Some(ShapeStmt(s))
  }

  ghost function ShapeOptHead(o: Option<ForHead>): Option<ForHead>
    decreases o
  {
    match o
    case None => None
    case Some(h) => Some(ShapeHead(h))
  }

  ghost function ShapeStmts(ss: seq<Stmt>): seq<Stmt>
    decreases ss
  {
    seq(|ss|, k requires 0 <= k < |ss| => ShapeStmt(ss[k]))
  }

  /** On one node, the shape and normal form together determine the comments. */
  lemma InfoDeterminedByShape(a: Info, b: Info)
    requires InfoNormalized(a) && InfoNormalized(b) && ShapeInfo(a) == ShapeInfo(b)
    ensures a == b
  {
    assert EraseStyles(a.leading) == EraseStyles(b.leading);
    assert EraseStyles(a.trailing) == EraseStyles(b.trailing);
    forall i | 0 <= i < |a.leading|
      ensures a.leading[i] == b.leading[i]
    {
      assert EraseStyles(a.leading)[i] == EraseStyles(b.leading)[i];
      assert a.leading[i] in a.leading && b.leading[i] in b.leading;
    }
    forall i | 0 <= i < |a.trailing|
      ensures a.trailing[i] == b.trailing[i]
    {
      assert EraseStyles(a.trailing)[i] == EraseStyles(b.trailing)[i];
      assert a.trailing[i] in a.trailing && b.trailing[i] in b.trailing;
    }
  }

  // The pass over the tree: `NormalizeInfo` at every node, structure kept.

  function NormalizeExpr(e: Expr): (r: Expr)
    ensures NormalizedExpr(r)
    ensures NormalizedExpr(e) ==> r == e
    ensures ShapeExpr(r) == ShapeExpr(e)
    decreases e, 1
  {
    Expr(NormalizeInfo(e.info), NormalizeExprKind(e.kind))
  }

  function NormalizeExprKind(k: ExprKind): (r: ExprKind)
    ensures NormalizedExprKind(r)
    ensures NormalizedExprKind(k) ==> r == k
    ensures ShapeExprKind(r) == ShapeExprKind(k)
    decreases k, 1
  {
    if k.Call? || k.New? || k.OtherExpr? then NormalizeListKind(k) else NormalizeNodeKind(k)
  }

  /** The expression kinds whose children are single expressions. */
  function NormalizeNodeKind(k: ExprKind): (r: ExprKind)
    requires !(k.Call? || k.New? || k.OtherExpr?)
    ensures NormalizedExprKind(r)
    ensures NormalizedExprKind(k) ==> r == k
    ensures ShapeExprKind(r) == ShapeExprKind(k)
    decreases k, 0
  {
    match k
    case Ident(_) => k
    case NumLit(_) => k
    case StrLit(_) => k
    case Member(o, p, computed) => Member(NormalizeExpr(o), NormalizeExpr(p), computed)
    case Update(op, prefix, a) => Update(op, prefix, NormalizeExpr(a))
    case Binary(op, l, r) => Binary(op, NormalizeExpr(l), NormalizeExpr(r))
  }

  /** The expression kinds with lists of children. */
  function NormalizeListKind(k: ExprKind): (r: ExprKind)
    requires k.Call? || k.New? || k.OtherExpr?
    ensures NormalizedExprKind(r)
    ensures NormalizedExprKind(k) ==> r == k
    ensures ShapeExprKind(r) == ShapeExprKind(k)
    decreases k, 0
  {
    match k
    case Call(c, args) => Call(NormalizeExpr(c), NormalizeExprs(args))
    case New(c, args) => New(NormalizeExpr(c), NormalizeExprs(args))
    case OtherExpr(tag, ops, bodies) => OtherExpr(tag, NormalizeExprs(ops), NormalizeStmts(bodies))
  }

  function NormalizeExprs(es: seq<Expr>): (r: seq<Expr>)
    ensures NormalizedExprs(r)
    ensures NormalizedExprs(es) ==> r == es
    ensures ShapeExprs(r) == ShapeExprs(es)
    decreases es
  {
    seq(|es|, k requires 0 <= k < |es| => NormalizeExpr(es[k]))
  }

  function NormalizeOpt(o: Option<Expr>): (r: Option<Expr>)
    ensures NormalizedOpt(r)
    ensures NormalizedOpt(o) ==> r == o
    ensures ShapeOpt(r) == ShapeOpt(o)
    decreases o
  {
    match o
    case None => None
    case Some(e) => Some(NormalizeExpr(e))
  }

  function NormalizeDeclarator(d: Declarator): (r: Declarator)
    ensures NormalizedDeclarator(r)
    ensures NormalizedDeclarator(d) ==> r == d
    ensures ShapeDeclarator(r) == ShapeDeclarator(d)
    decreases d
  {
    Declarator(NormalizeInfo(d.info), NormalizeExpr(d.id), NormalizeOpt(d.init))
  }

  function NormalizeDeclarators(ds: seq<Declarator>): (r: seq<Declarator>)
    ensures NormalizedDeclarators(r)
    ensures NormalizedDeclarators(ds) ==> r == ds
    ensures ShapeDeclarators(r) == ShapeDeclarators(ds)
    decreases ds
  {
    seq(|ds|, k requires 0 <= k < |ds| => NormalizeDeclarator(ds[k]))
  }

  function NormalizeHead(h: ForHead): (r: ForHead)
    ensures NormalizedHead(r)
    ensures NormalizedHead(h) ==> r == h
    ensures ShapeHead(r) == ShapeHead(h)
    decreases h
  {
    match h
    case HeadDecl(info, k, ds) => HeadDecl(NormalizeInfo(info), k, NormalizeDeclarators(ds))
    case HeadExpr(e) => HeadExpr(NormalizeExpr(e))
  }

  function NormalizeStmt(s: Stmt): (r: Stmt)
    ensures NormalizedStmt(r)
    ensures NormalizedStmt(s) ==> r == s
    ensures ShapeStmt(r) == ShapeStmt(s)
    decreases s, 1
  {
    Stmt(NormalizeInfo(s.info), NormalizeStmtKind(s.kind))
  }

  function NormalizeStmtKind(k: StmtKind): (r: StmtKind)
    ensures NormalizedStmtKind(r)
    ensures NormalizedStmtKind(k) ==> r == k
    ensures ShapeStmtKind(r) == ShapeStmtKind(k)
    decreases k, 1
  {
    if IsLoop(k) then NormalizeLoopKind(k) else NormalizeOtherKind(k)
  }

  /** The five loop kinds. */
  function NormalizeLoopKind(k: StmtKind): (r: StmtKind)
    requires IsLoop(k)
    ensures NormalizedStmtKind(r)
    ensures NormalizedStmtKind(k) ==> r == k
    ensures ShapeStmtKind(r) == ShapeStmtKind(k)
    decreases k, 0
  {
    match k
    case While(t, b) => While(NormalizeExpr(t), NormalizeStmt(b))
    case DoWhile(b, t) => DoWhile(NormalizeStmt(b), NormalizeExpr(t))
    case For(i, c, u, b) => For(NormalizeOptHead(i), NormalizeOpt(c), NormalizeOpt(u), NormalizeStmt(b))
    case ForIn(l, r, b) => ForIn(NormalizeHead(l), NormalizeExpr(r), NormalizeStmt(b))
    case ForOf(l, r, b) => ForOf(NormalizeHead(l), NormalizeExpr(r), NormalizeStmt(b))
  }

  /** The statement kinds that are not loops. */
  function NormalizeOtherKind(k: StmtKind): (r: StmtKind)
    requires !IsLoop(k)
    ensures NormalizedStmtKind(r)
    ensures NormalizedStmtKind(k) ==> r == k
    ensures ShapeStmtKind(r) == ShapeStmtKind(k)
    decreases k, 0
  {
    match k
    case ExprStmt(e) => ExprStmt(NormalizeExpr(e))
    case VarDecl(dk, ds) => VarDecl(dk, NormalizeDeclarators(ds))
    case Block(ss) => Block(NormalizeStmts(ss))
    case If(t, c, a) => If(NormalizeExpr(t), NormalizeStmt(c), NormalizeOptStmt(a))
    case Break => Break
    case OtherStmt(tag, ops, bodies) => OtherStmt(tag, NormalizeExprs(ops), NormalizeStmts(bodies))
  }

  function NormalizeOptStmt(o: Option<Stmt>): (r: Option<Stmt>)
    ensures NormalizedOptStmt(r)
    ensures NormalizedOptStmt(o) ==> r == o
    ensures ShapeOptStmt(r) == ShapeOptStmt(o)
    decreases o
  {
    match o
    case None => None
    case Some(s) => Some(NormalizeStmt(s))
  }

  function NormalizeOptHead(o: Option<ForHead>): (r: Option<ForHead>)
    ensures NormalizedOptHead(r)
    ensures NormalizedOptHead(o) ==> r == o
    ensures ShapeOptHead(r) == ShapeOptHead(o)
    decreases o
  {
    match o
    case None => None
    case Some(h) => Some(NormalizeHead(h))
  }

  function NormalizeStmts(ss: seq<Stmt>): (r: seq<Stmt>)
    ensures NormalizedStmts(r)
    ensures NormalizedStmts(ss) ==> r == ss
    ensures ShapeStmts(r) == ShapeStmts(ss)
    decreases ss
  {
    seq(|ss|, k requires 0 <= k < |ss| => NormalizeStmt(ss[k]))
  }

  /** The pass: `Program` itself is not visited, every node below it is. */
  function NormalizeComments(p: Program): (r: Program)
    ensures NormalizedStmts(r.body)
    ensures NormalizedStmts(p.body) ==> r == p
    ensures ShapeStmts(r.body) == ShapeStmts(p.body)
  {
    Program(NormalizeStmts(p.body))
  }

  /** Normalizing twice is normalizing once. */
  lemma NormalizeCommentsIdempotent(p: Program)
    ensures NormalizeComments(NormalizeComments(p)) == NormalizeComments(p)
  {
  }
}
