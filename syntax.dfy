/**
 * The part of the Babel JavaScript syntax tree that the instrumentation
 * passes read or build. Every node carries an `Info`: the start line of its
 * source location (absent for nodes the passes synthesise) and the comment
 * lists Babel attaches to it. Node kinds the passes do not single out are
 * represented by `OtherExpr`/`OtherStmt`, which keep their children so that
 * every pass still reaches the loops and calls nested inside them.
 */
module Syntax {
  import opened Wrappers

  datatype CommentStyle = CommentLine | CommentBlock

  /** A comment record: Babel's `type` and `value`. */
  datatype Comment = Comment(style: CommentStyle, text: string)

  datatype Info = Info(
    startLine: Option<nat>,
    leading: seq<Comment>,
    trailing: seq<Comment>,
    inner: seq<Comment>)

  datatype Expr = Expr(info: Info, kind: ExprKind)

  datatype ExprKind =
    | Ident(name: string)
    | NumLit(num: int)
    | StrLit(str: string)
    | Member(obj: Expr, property: Expr, computed: bool)
    | Call(callee: Expr, arguments: seq<Expr>)
    | New(callee: Expr, arguments: seq<Expr>)
    | Update(operator: string, prefix: bool, argument: Expr)
    | Binary(operator: string, left: Expr, right: Expr)
      /** Any other expression (functions, objects, arrays, ...): its
          expression children and the statements of its bodies. */
    | OtherExpr(tag: string, operands: seq<Expr>, bodies: seq<Stmt>)

  datatype DeclKind = Var | Let | Const

  /** One `id = init` of a declaration: a node of its own, with its own comments. */
  datatype Declarator = Declarator(info: Info, id: Expr, init: Option<Expr>)

  /** The `init` of a `for` or the `left` of a `for-in`/`for-of`. */
  datatype ForHead =
    | HeadDecl(info: Info, declKind: DeclKind, declarators: seq<Declarator>)
    | HeadExpr(expr: Expr)

  datatype Stmt = Stmt(info: Info, kind: StmtKind)

  datatype StmtKind =
    | ExprStmt(expr: Expr)
    | VarDecl(declKind: DeclKind, declarators: seq<Declarator>)
    | Block(stmts: seq<Stmt>)
    | If(test: Expr, consequent: Stmt, alternate: Option<Stmt>)
    | While(test: Expr, body: Stmt)
    | DoWhile(body: Stmt, test: Expr)
    | For(init: Option<ForHead>, cond: Option<Expr>, update: Option<Expr>, body: Stmt)
    | ForIn(left: ForHead, right: Expr, body: Stmt)
    | ForOf(left: ForHead, right: Expr, body: Stmt)
    | Break
      /** Any other statement: its expression children and its nested
          statements, each of which sits in a single-statement slot. */
    | OtherStmt(tag: string, operands: seq<Expr>, bodies: seq<Stmt>)

  datatype Program = Program(body: seq<Stmt>)

  /** The constructor of an expression kind. */
  function ExprTag(k: ExprKind): nat {
    match k
    case Ident(_) => 0
    case NumLit(_) => 1
    case StrLit(_) => 2
    case Member(_, _, _) => 3
    case Call(_, _) => 4
    case New(_, _) => 5
    case Update(_, _, _) => 6
    case Binary(_, _, _) => 7
    case OtherExpr(_, _, _) => 8
  }

  /** The constructor of a statement kind. */
  function StmtTag(k: StmtKind): nat {
    match k
    case ExprStmt(_) => 0
    case VarDecl(_, _) => 1
    case Block(_) => 2
    case If(_, _, _) => 3
    case While(_, _) => 4
    case DoWhile(_, _) => 5
    case For(_, _, _, _) => 6
    case ForIn(_, _, _) => 7
    case ForOf(_, _, _) => 8
    case Break => 9
    case OtherStmt(_, _, _) => 10
  }

  /** The five loop statements. */
  predicate IsLoop(k: StmtKind) {
    k.While? || k.DoWhile? || k.For? || k.ForIn? || k.ForOf?
  }

  /** The info of a node built by a pass: no location, no comments. */
  const Synthetic := Info(None, [], [], [])

  /**
   * `path.replaceWith(n)`: the new node takes over the comments of the node
   * it replaces; being freshly built, it has no location.
   */
  function Inherit(replaced: Info): (r: Info)
    ensures r.startLine.None?
    ensures r.leading == replaced.leading && r.trailing == replaced.trailing && r.inner == replaced.inner
  {
    Info(None, replaced.leading, replaced.trailing, replaced.inner)
  }

  /** The replaced node after `replaceWith`: its comments are removed. */
  function Detached(replaced: Info): (r: Info)
    ensures r.startLine == replaced.startLine
    ensures r.leading == [] && r.trailing == [] && r.inner == []
  {
    Info(replaced.startLine, [], [], [])
  }

  function Id(name: string): Expr {
    Expr(Synthetic, Ident(name))
  }

  function Num(n: int): Expr {
    Expr(Synthetic, NumLit(n))
  }

  function Str(s: string): Expr {
    Expr(Synthetic, StrLit(s))
  }

  function Statement(k: StmtKind): Stmt {
    Stmt(Synthetic, k)
  }
}
