/** Syntax trees of the tree-walking interpreter, shaped after ch13/expr.rb
    and ch13/stmt.rb.

    The Ruby resolver keys its side table on the identity of Variable,
    Assign, This and Super nodes; here each of those nodes carries an `id`
    that the parser makes fresh, and the side table is keyed on it. */
module RloxAst {
  import opened Util
  import opened RloxToken

  /** An error reported through `Lox.error(token, message)` by the parser or
      the resolver. */
  datatype StaticError = StaticError(token: Token, message: string)

  /** The value a Literal node holds: nil, a boolean, a number or a string. */
  datatype LitValue = LNil | LBool(b: bool) | LNum(n: real) | LStr(s: string)

  /** The superclass reference of a class declaration, a Variable node. */
  datatype SuperRef = SuperRef(id: nat, name: Token)

  datatype Expr =
    | AssignExpr(id: nat, name: Token, value: Expr)
    | BinaryExpr(left: Expr, op: Token, right: Expr)
    | CallExpr(callee: Expr, paren: Token, args: seq<Expr>)
    | GetExpr(obj: Expr, name: Token)
    | GroupingExpr(inner: Expr)
    | LiteralExpr(lit: LitValue)
    | LogicalExpr(left: Expr, op: Token, right: Expr)
    | SetExpr(obj: Expr, name: Token, value: Expr)
    | SuperExpr(id: nat, keyword: Token, methodName: Token)
    | ThisExpr(id: nat, keyword: Token)
    | UnaryExpr(op: Token, right: Expr)
    | VariableExpr(id: nat, name: Token)

  datatype FunDecl = FunDecl(name: Token, params: seq<Token>, body: seq<Stmt>)

  datatype Stmt =
    | BlockStmt(stmts: seq<Stmt>)
    | ClassStmt(name: Token, superclass: Option<SuperRef>, methods: seq<FunDecl>)
    | ExprStmt(expr: Expr)
    | FunStmt(decl: FunDecl)
    | IfStmt(cond: Expr, thenBranch: Stmt, elseBranch: Option<Stmt>)
    | PrintStmt(expr: Expr)
    | ReturnStmt(keyword: Token, value: Option<Expr>)
    | VarStmt(name: Token, init: Option<Expr>)
    | WhileStmt(cond: Expr, body: Stmt)

  /** Binding strength of a binary or logical operator, loosest first:
      or 1, and 2, equality 3, comparison 4, term 5, factor 6. */
  function OpLevel(k: TokenType): nat {
    match k
    case Or => 1
    case And => 2
    case BangEqual => 3
    case EqualEqual => 3
    case Greater => 4
    case GreaterEqual => 4
    case Less => 4
    case LessEqual => 4
    case Minus => 5
    case Plus => 5
    case _ => 6
  }

  /** The precedence level at which an expression's outermost operator sits:
      assignment 0, the binary ladder 1..6, unary 7, call and primary 8. */
  function Level(e: Expr): nat {
    match e
    case AssignExpr(_, _, _) => 0
    case SetExpr(_, _, _) => 0
    case LogicalExpr(_, op, _) => OpLevel(op.kind)
    case BinaryExpr(_, op, _) => OpLevel(op.kind)
    case UnaryExpr(_, _) => 7
    case _ => 8
  }

  /** The tree respects precedence and left associativity: an operand on
      the left of a binary node binds at least as tightly as the node, one
      on the right strictly more tightly; a unary operand is unary or
      tighter; callees, property objects and set targets are call-level. */
  predicate Nested(e: Expr) {
    match e
    case AssignExpr(_, _, v) => Nested(v)
    case SetExpr(o, _, v) => Level(o) == 8 && Nested(o) && Nested(v)
    case LogicalExpr(l, op, r) => Level(l) >= OpLevel(op.kind) && Level(r) > OpLevel(op.kind) && Nested(l) && Nested(r)
    case BinaryExpr(l, op, r) => Level(l) >= OpLevel(op.kind) && Level(r) > OpLevel(op.kind) && Nested(l) && Nested(r)
    case UnaryExpr(_, r) => Level(r) >= 7 && Nested(r)
    case CallExpr(c, _, args) => Level(c) == 8 && Nested(c) && NestedAll(args)
    case GetExpr(o, _) => Level(o) == 8 && Nested(o)
    case GroupingExpr(x) => Nested(x)
    case _ => true
  }

  predicate NestedAll(es: seq<Expr>) {
    forall i :: 0 <= i < |es| ==> Nested(es[i])
  }

  /** Every expression inside the statement is `Nested`. */
  predicate StmtNested(s: Stmt) {
    match s
    case BlockStmt(ss) => StmtsNested(ss)
    case ClassStmt(_, _, ms) => forall i :: 0 <= i < |ms| ==> StmtsNested(ms[i].body)
    case ExprStmt(e) => Nested(e)
    case FunStmt(d) => StmtsNested(d.body)
    case IfStmt(c, t, e) => Nested(c) && StmtNested(t) && (e.Some? ==> StmtNested(e.value))
    case PrintStmt(e) => Nested(e)
    case ReturnStmt(_, v) => v.Some? ==> Nested(v.value)
    case VarStmt(_, v) => v.Some? ==> Nested(v.value)
    case WhileStmt(c, b) => Nested(c) && StmtNested(b)
  }

  predicate StmtsNested(ss: seq<Stmt>) {
    forall i :: 0 <= i < |ss| ==> StmtNested(ss[i])
  }
}
