/** The tree-walking interpreter's recursive-descent parser (ch12/parser.rb).

    The parser's mutable cursor becomes a `PState` threaded through pure
    functions. A raised `ParserError` becomes `Fail(st)`, where `st` already
    holds the reported error; `declaration` catches it and synchronizes.
    Errors reported without raising (an invalid assignment target, more
    than 255 arguments or parameters) are appended to the state and parsing
    goes on. */
module RloxParser {
  import opened Util
  import opened RloxToken
  import opened RloxAst

  /** The cursor, the next fresh node id and the errors reported so far. */
  datatype PState = PState(pos: nat, nextId: nat, errors: seq<StaticError>)

  datatype PResult<T> = Ok(value: T, st: PState) | Fail(st: PState)

  datatype ParseOutput = ParseOutput(statements: seq<Option<Stmt>>, errors: seq<StaticError>)

  /** A token list as the scanner hands it over: it ends with EOF. */
  predicate ValidTokens(toks: seq<Token>) {
    |toks| > 0 && toks[|toks| - 1].kind == Eof
  }

  predicate Inv(toks: seq<Token>, st: PState) {
    ValidTokens(toks) && st.pos < |toks|
  }

  /** `b` is a later state than `a`: the cursor, the id counter and the error
      list only grow. */
  predicate Le(a: PState, b: PState) {
    a.pos <= b.pos && a.nextId <= b.nextId && a.errors <= b.errors
  }

  predicate AtEnd(toks: seq<Token>, st: PState)
    requires st.pos < |toks|
  {
    toks[st.pos].kind == Eof
  }

  /** `peek`: the token under the cursor, which is EOF exactly at the end. */
  function Peek(toks: seq<Token>, st: PState): (t: Token)
    requires st.pos < |toks|
    ensures t.kind == Eof <==> AtEnd(toks, st)
    ensures t in toks
  {
    toks[st.pos]
  }

  /** `check`: the current token has kind `k`; never true at EOF. */
  function Check(toks: seq<Token>, st: PState, k: TokenType): (b: bool)
    requires st.pos < |toks|
    ensures b <==> !AtEnd(toks, st) && toks[st.pos].kind == k
  {
    if AtEnd(toks, st) then false else toks[st.pos].kind == k
  }

  /** `advance`: moves one token forward unless the current token is EOF. */
  function Advance(toks: seq<Token>, st: PState): (r: PState)
    requires Inv(toks, st)
    ensures Inv(toks, r) && Le(st, r) && r.nextId == st.nextId && r.errors == st.errors
    ensures r.pos == if AtEnd(toks, st) then st.pos else st.pos + 1
  {
    if AtEnd(toks, st) then st else st.(pos := st.pos + 1)
  }

  /** After `advance`, `peek` shows the following token, or EOF again at
      the end; a report leaves it where it was. */
  lemma PeekAdvance(toks: seq<Token>, st: PState, message: string)
    requires Inv(toks, st)
    ensures Peek(toks, Advance(toks, st)) == if AtEnd(toks, st) then Peek(toks, st) else toks[st.pos + 1]
    ensures Peek(toks, Report(st, Peek(toks, st), message)) == Peek(toks, st)
  {
  }

  /** `error(token, message)`: reports without raising. */
  function Report(st: PState, token: Token, message: string): (r: PState)
    ensures r.pos == st.pos && r.nextId == st.nextId && r.errors == st.errors + [StaticError(token, message)]
  {
    st.(errors := st.errors + [StaticError(token, message)])
  }

  /** `consume`: the current token if it has kind `k`, else a raised error at it. */
  function Consume(toks: seq<Token>, st: PState, k: TokenType, message: string): (r: PResult<Token>)
    requires Inv(toks, st)
    ensures Inv(toks, r.st) && Le(st, r.st)
    ensures Check(toks, st, k) <==> r.Ok?
    ensures r.Ok? ==> r.value == toks[st.pos] && r.st == st.(pos := st.pos + 1)
    ensures r.Fail? ==> r.st == Report(st, toks[st.pos], message)
  {
    if Check(toks, st, k) then Ok(toks[st.pos], Advance(toks, st))
    else Fail(Report(st, toks[st.pos], message))
  }

  function Fresh(st: PState): PState {
    st.(nextId := st.nextId + 1)
  }

  /** The operators of ladder level `lvl` (see `OpLevel`). */
  predicate IsOpAt(lvl: nat, k: TokenType) {
    match lvl
    case 1 => k == Or
    case 2 => k == And
    case 3 => k == BangEqual || k == EqualEqual
    case 4 => k == Greater || k == GreaterEqual || k == Less || k == LessEqual
    case 5 => k == Minus || k == Plus
    case _ => k == Slash || k == Star
  }

  lemma IsOpAtLevel(lvl: nat, k: TokenType)
    requires 1 <= lvl <= 6 && IsOpAt(lvl, k)
    ensures OpLevel(k) == lvl
  {
  }

  /** The literal a NUMBER or STRING token carries, as a Literal node value. */
  function LitOf(l: Literal): LitValue {
    match l
    case NoLiteral => LNil
    case NumberLit(n) => LNum(n)
    case StringLit(s) => LStr(s)
  }

  // ---------------------------------------------------------------------
  // Expressions
  // ---------------------------------------------------------------------

  /** `expression`, which is `assignment`. */
  function Expression(toks: seq<Token>, st: PState): (r: PResult<Expr>)
    requires Inv(toks, st)
    ensures Inv(toks, r.st) && Le(st, r.st)
    ensures r.Ok? ==> r.st.pos > st.pos && Nested(r.value)
    ensures r.Fail? ==> |r.st.errors| > |st.errors|
    decreases |toks| - st.pos, 50
  {
    Assignment(toks, st)
  }

  /** `assignment`: right-associative; a Variable target becomes Assign, a
      Get target becomes Set, any other target is reported and the left
      expression is returned. */
  function Assignment(toks: seq<Token>, st: PState): (r: PResult<Expr>)
    requires Inv(toks, st)
    ensures Inv(toks, r.st) && Le(st, r.st)
    ensures r.Ok? ==> r.st.pos > st.pos && Nested(r.value)
    ensures r.Fail? ==> |r.st.errors| > |st.errors|
    decreases |toks| - st.pos, 45
  {
    var lhs := Ladder(toks, 1, st);
    if lhs.Fail? then lhs
    else if !Check(toks, lhs.st, Equal) then lhs
    else
      var equals := toks[lhs.st.pos];
      var rhs := Assignment(toks, Advance(toks, lhs.st));
      if rhs.Fail? then Fail(rhs.st)
      else if lhs.value.VariableExpr? then Ok(AssignExpr(lhs.value.id, lhs.value.name, rhs.value), rhs.st)
      else if lhs.value.GetExpr? then Ok(SetExpr(lhs.value.obj, lhs.value.name, rhs.value), rhs.st)
      else Ok(lhs.value, Report(rhs.st, equals, "Invalid assignment target."))
  }

  /** The left-associative binary levels `or_expr` (1), `and_expr` (2),
      `equality` (3), `comparison` (4), `term` (5) and `factor` (6): an
      operand of the next level, then a loop over this level's operators. */
  function Ladder(toks: seq<Token>, lvl: nat, st: PState): (r: PResult<Expr>)
    requires Inv(toks, st) && 1 <= lvl <= 6
    ensures Inv(toks, r.st) && Le(st, r.st)
    ensures r.Ok? ==> r.st.pos > st.pos && Nested(r.value) && Level(r.value) >= lvl
    ensures r.Fail? ==> |r.st.errors| > |st.errors|
    decreases |toks| - st.pos, 40 - lvl
  {
    var left := if lvl == 6 then Unary(toks, st) else Ladder(toks, lvl + 1, st);
    if left.Fail? then left
    else LadderLoop(toks, lvl, left.value, left.st)
  }

  /** `while match(<operators of lvl>)`: folds `left op right` to the left. */
  function LadderLoop(toks: seq<Token>, lvl: nat, left: Expr, st: PState): (r: PResult<Expr>)
    requires Inv(toks, st) && 1 <= lvl <= 6
    requires Nested(left) && Level(left) >= lvl
    ensures Inv(toks, r.st) && Le(st, r.st)
    ensures r.Ok? ==> Nested(r.value) && Level(r.value) >= lvl
    ensures r.Fail? ==> |r.st.errors| > |st.errors|
    decreases |toks| - st.pos, 1
  {
    if AtEnd(toks, st) || !IsOpAt(lvl, toks[st.pos].kind) then Ok(left, st)
    else
      var op := toks[st.pos];
      IsOpAtLevel(lvl, op.kind);
      var st1 := Advance(toks, st);
      var right := if lvl == 6 then Unary(toks, st1) else Ladder(toks, lvl + 1, st1);
      if right.Fail? then right
      else
        var node := if lvl <= 2 then LogicalExpr(left, op, right.value) else BinaryExpr(left, op, right.value);
        LadderLoop(toks, lvl, node, right.st)
  }

  /** `unary`: `!` or `-` applied to a unary operand, else a call. */
  function Unary(toks: seq<Token>, st: PState): (r: PResult<Expr>)
    requires Inv(toks, st)
    ensures Inv(toks, r.st) && Le(st, r.st)
    ensures r.Ok? ==> r.st.pos > st.pos && Nested(r.value) && Level(r.value) >= 7
    ensures r.Fail? ==> |r.st.errors| > |st.errors|
    decreases |toks| - st.pos, 20
  {
    if Check(toks, st, Bang) || Check(toks, st, Minus) then
      var op := toks[st.pos];
      var right := Unary(toks, Advance(toks, st));
      if right.Fail? then right else Ok(UnaryExpr(op, right.value), right.st)
    else
      Call(toks, st)
  }

  /** `call`: a primary followed by any chain of `(args)` and `.name`. */
  function Call(toks: seq<Token>, st: PState): (r: PResult<Expr>)
    requires Inv(toks, st)
    ensures Inv(toks, r.st) && Le(st, r.st)
    ensures r.Ok? ==> r.st.pos > st.pos && Nested(r.value) && Level(r.value) == 8
    ensures r.Fail? ==> |r.st.errors| > |st.errors|
    decreases |toks| - st.pos, 15
  {
    var p := Primary(toks, st);
    if p.Fail? then p else CallLoop(toks, p.value, p.st)
  }

  /** The postfix loop of `call`, folding each suffix onto the expression so far. */
  function CallLoop(toks: seq<Token>, expr: Expr, st: PState): (r: PResult<Expr>)
    requires Inv(toks, st) && Nested(expr) && Level(expr) == 8
    ensures Inv(toks, r.st) && Le(st, r.st)
    ensures r.Ok? ==> Nested(r.value) && Level(r.value) == 8
    ensures r.Fail? ==> |r.st.errors| > |st.errors|
    decreases |toks| - st.pos, 1
  {
    if Check(toks, st, LeftParen) then
      var c := FinishCall(toks, expr, Advance(toks, st));
      if c.Fail? then c else CallLoop(toks, c.value, c.st)
    else if Check(toks, st, Dot) then
      var name := Consume(toks, Advance(toks, st), Identifier, "Expect property name after '.'.");
      if name.Fail? then Fail(name.st) else CallLoop(toks, GetExpr(expr, name.value), name.st)
    else
      Ok(expr, st)
  }

  /** `finish_call`: the argument list after `(` and the closing paren. */
  function FinishCall(toks: seq<Token>, callee: Expr, st: PState): (r: PResult<Expr>)
    requires Inv(toks, st) && Nested(callee) && Level(callee) == 8
    ensures Inv(toks, r.st) && Le(st, r.st)
    ensures r.Ok? ==> r.st.pos > st.pos && Nested(r.value) && r.value.CallExpr? && r.value.callee == callee
    ensures r.Fail? ==> |r.st.errors| > |st.errors|
    decreases |toks| - st.pos, 70
  {
    var args := if Check(toks, st, RightParen) then Ok([], st) else Arguments(toks, 0, st);
    if args.Fail? then Fail(args.st)
    else
      var paren := Consume(toks, args.st, RightParen, "Expect ')' after arguments'");
      if paren.Fail? then Fail(paren.st)
      else Ok(CallExpr(callee, paren.value, args.value), paren.st)
  }

  /** The `begin … end while match(:COMMA)` loop of `finish_call`; `count`
      arguments precede this one, and reaching 255 is reported, not raised. */
  function Arguments(toks: seq<Token>, count: nat, st: PState): (r: PResult<seq<Expr>>)
    requires Inv(toks, st)
    ensures Inv(toks, r.st) && Le(st, r.st)
    ensures r.Ok? ==> r.st.pos > st.pos && |r.value| > 0 && NestedAll(r.value)
    ensures r.Fail? ==> |r.st.errors| > |st.errors|
    decreases |toks| - st.pos, 60
  {
    var st1 := if count >= 255 then Report(st, toks[st.pos], "Can't have more than 255 arguments.") else st;
    var e := Expression(toks, st1);
    if e.Fail? then Fail(e.st)
    else if Check(toks, e.st, Comma) then
      var rest := Arguments(toks, count + 1, Advance(toks, e.st));
      if rest.Fail? then rest else Ok([e.value] + rest.value, rest.st)
    else
      Ok([e.value], e.st)
  }

  /** `primary`: literals, `this`, identifiers and parenthesized groups;
      anything else raises "Expect expression." at the current token. */
  function Primary(toks: seq<Token>, st: PState): (r: PResult<Expr>)
    requires Inv(toks, st)
    ensures Inv(toks, r.st) && Le(st, r.st)
    ensures r.Ok? ==> r.st.pos > st.pos && Nested(r.value) && Level(r.value) == 8
    ensures r.Fail? ==> |r.st.errors| > |st.errors|
    ensures r.Fail? && (AtEnd(toks, st) || toks[st.pos].kind !in {LeftParen}) ==>
              r.st == Report(st, toks[st.pos], "Expect expression.")
    decreases |toks| - st.pos, 10
  {
    var k := toks[st.pos].kind;
    var st1 := Advance(toks, st);
    if AtEnd(toks, st) then Fail(Report(st, toks[st.pos], "Expect expression."))
    else if k == False then Ok(LiteralExpr(LBool(false)), st1)
    else if k == True then Ok(LiteralExpr(LBool(true)), st1)
    else if k == Nil then Ok(LiteralExpr(LNil), st1)
    else if k == Number || k == StringTok then Ok(LiteralExpr(LitOf(toks[st.pos].literal)), st1)
    else if k == This then Ok(ThisExpr(st.nextId, toks[st.pos]), Fresh(st1))
    else if k == Identifier then Ok(VariableExpr(st.nextId, toks[st.pos]), Fresh(st1))
    else if k == LeftParen then
      var e := Expression(toks, st1);
      if e.Fail? then e
      else
        var close := Consume(toks, e.st, RightParen, "Expect ')' after expression.");
        if close.Fail? then Fail(close.st) else Ok(GroupingExpr(e.value), close.st)
    else Fail(Report(st, toks[st.pos], "Expect expression."))
  }

  // ---------------------------------------------------------------------
  // Statements and declarations
  // ---------------------------------------------------------------------

  /** `synchronize`: skip at least one token, then up to just after a `;` or
      just before a statement keyword or EOF. */
  function Synchronize(toks: seq<Token>, st: PState): (r: PState)
    requires Inv(toks, st)
    ensures Inv(toks, r) && Le(st, r) && r.errors == st.errors && r.nextId == st.nextId
    ensures !AtEnd(toks, st) ==> r.pos > st.pos
    ensures AtEnd(toks, r) || (r.pos > 0 && toks[r.pos - 1].kind == Semicolon) || IsStatementStart(toks[r.pos].kind)
    ensures forall p :: st.pos < p < r.pos ==> toks[p].kind != Eof && !IsStatementStart(toks[p].kind)
  {
    SyncLoop(toks, Advance(toks, st))
  }

  predicate IsStatementStart(k: TokenType) {
    k in {Class, Fun, Var, For, If, While, Print, Return}
  }

  /** The loop of `synchronize`, entered after its first `advance`. */
  function SyncLoop(toks: seq<Token>, st: PState): (r: PState)
    requires Inv(toks, st)
    ensures Inv(toks, r) && Le(st, r) && r.errors == st.errors && r.nextId == st.nextId
    ensures AtEnd(toks, r) || (r.pos > 0 && toks[r.pos - 1].kind == Semicolon) || IsStatementStart(toks[r.pos].kind)
    ensures forall p :: st.pos <= p < r.pos ==> toks[p].kind != Eof && !IsStatementStart(toks[p].kind)
    decreases |toks| - st.pos
  {
    if AtEnd(toks, st) then st
    else if st.pos > 0 && toks[st.pos - 1].kind == Semicolon then st
    else if IsStatementStart(toks[st.pos].kind) then st
    else SyncLoop(toks, Advance(toks, st))
  }

  /** The desugaring of `for_statement`: the body followed by the increment,
      looped while the condition (true when absent) holds, after the
      initializer; each wrapper is left out when its clause is absent. */
  function DesugarFor(init: Option<Stmt>, cond: Option<Expr>, incr: Option<Expr>, body: Stmt): (r: Stmt)
    ensures init.Some? ==> r.BlockStmt? && |r.stmts| == 2 && r.stmts[0] == init.value
    ensures var loop := if init.Some? && r.BlockStmt? && |r.stmts| == 2 then r.stmts[1] else r;
            loop.WhileStmt? &&
            loop.cond == (if cond.Some? then cond.value else LiteralExpr(LBool(true))) &&
            loop.body == (if incr.Some? then BlockStmt([body, ExprStmt(incr.value)]) else body)
  {
    var inner := if incr.Some? then BlockStmt([body, ExprStmt(incr.value)]) else body;
    var loop := WhileStmt(if cond.Some? then cond.value else LiteralExpr(LBool(true)), inner);
    if init.Some? then BlockStmt([init.value, loop]) else loop
  }

  lemma DesugarForNested(init: Option<Stmt>, cond: Option<Expr>, incr: Option<Expr>, body: Stmt)
    requires init.Some? ==> StmtNested(init.value)
    requires cond.Some? ==> Nested(cond.value)
    requires incr.Some? ==> Nested(incr.value)
    requires StmtNested(body)
    ensures StmtNested(DesugarFor(init, cond, incr, body))
  {
    var r := DesugarFor(init, cond, incr, body);
    var inner := if incr.Some? then BlockStmt([body, ExprStmt(incr.value)]) else body;
    assert StmtNested(inner);
    if init.Some? {
      assert StmtNested(r.stmts[1]);
    }
  }

  /** `declaration`: a class, function, variable or other statement; a
      raised error is caught, the parser synchronizes and the entry is nil. */
  function Declaration(toks: seq<Token>, st: PState): (r: (Option<Stmt>, PState))
    requires Inv(toks, st)
    ensures Inv(toks, r.1) && Le(st, r.1)
    ensures !AtEnd(toks, st) ==> r.1.pos > st.pos
    ensures r.0.None? ==> |r.1.errors| > |st.errors|
    ensures r.0.Some? ==> StmtNested(r.0.value)
    decreases |toks| - st.pos, 100
  {
    var res :=
      if Check(toks, st, Class) then ClassDeclaration(toks, Advance(toks, st))
      else if Check(toks, st, Fun) then
        var f := Function(toks, "function", Advance(toks, st));
        if f.Fail? then Fail(f.st) else Ok(FunStmt(f.value), f.st)
      else if Check(toks, st, Var) then VarDeclaration(toks, Advance(toks, st))
      else Statement(toks, st);
    if res.Ok? then (Some(res.value), res.st) else (None, Synchronize(toks, res.st))
  }

  /** `class_declaration`, after `class`. The superclass is always absent. */
  function ClassDeclaration(toks: seq<Token>, st: PState): (r: PResult<Stmt>)
    requires Inv(toks, st)
    ensures Inv(toks, r.st) && Le(st, r.st)
    ensures r.Ok? ==> r.st.pos > st.pos && StmtNested(r.value) && r.value.ClassStmt? && r.value.superclass.None?
    ensures r.Fail? ==> |r.st.errors| > |st.errors|
    decreases |toks| - st.pos, 80
  {
    var name := Consume(toks, st, Identifier, "Expect class name.");
    if name.Fail? then Fail(name.st)
    else
      var brace := Consume(toks, name.st, LeftBrace, "Expect '\U{7B}' before class body.");
      if brace.Fail? then Fail(brace.st)
      else
        var methods := Methods(toks, brace.st);
        if methods.Fail? then Fail(methods.st)
        else
          var close := Consume(toks, methods.st, RightBrace, "Expect '\U{7D}' after class body.");
          if close.Fail? then Fail(close.st)
          else Ok(ClassStmt(name.value, None, methods.value), close.st)
  }

  /** The method loop of `class_declaration`, up to the closing brace or EOF. */
  function Methods(toks: seq<Token>, st: PState): (r: PResult<seq<FunDecl>>)
    requires Inv(toks, st)
    ensures Inv(toks, r.st) && Le(st, r.st)
    ensures r.Ok? ==> BodiesNested(r.value)
    ensures r.Fail? ==> |r.st.errors| > |st.errors|
    decreases |toks| - st.pos, 85
  {
    if Check(toks, st, RightBrace) || AtEnd(toks, st) then Ok([], st)
    else
      var m := Function(toks, "method", st);
      if m.Fail? then Fail(m.st)
      else
        var rest := Methods(toks, m.st);
        if rest.Fail? then rest
        else
          assert BodiesNested([m.value] + rest.value) by { BodiesNestedCons(m.value, rest.value); }
          Ok([m.value] + rest.value, rest.st)
  }

  /** Every method body of the list is `Nested`. */
  predicate BodiesNested(ms: seq<FunDecl>) {
    forall i :: 0 <= i < |ms| ==> StmtsNested(ms[i].body)
  }

  lemma BodiesNestedCons(m: FunDecl, ms: seq<FunDecl>)
    requires StmtsNested(m.body) && BodiesNested(ms)
    ensures BodiesNested([m] + ms)
  {
    assert forall i :: 1 <= i < |[m] + ms| ==> ([m] + ms)[i] == ms[i - 1];
  }

  /** `function(kind)`: name, parameter list and body block. */
  function Function(toks: seq<Token>, kind: string, st: PState): (r: PResult<FunDecl>)
    requires Inv(toks, st)
    ensures Inv(toks, r.st) && Le(st, r.st)
    ensures r.Ok? ==> r.st.pos > st.pos && StmtsNested(r.value.body)
    ensures r.Fail? ==> |r.st.errors| > |st.errors|
    decreases |toks| - st.pos, 80
  {
    var name := Consume(toks, st, Identifier, "Expect " + kind + " name");
    if name.Fail? then Fail(name.st)
    else
      var open := Consume(toks, name.st, LeftParen, "Expect '(' after " + kind + " name");
      if open.Fail? then Fail(open.st)
      else
        var params := if Check(toks, open.st, RightParen) then Ok([], open.st) else Parameters(toks, 0, open.st);
        if params.Fail? then Fail(params.st)
        else
          var body := FunctionBody(toks, kind, params.st);
          if body.Fail? then Fail(body.st)
          else Ok(FunDecl(name.value, params.value, body.value), body.st)
  }

  /** The end of `function`: `)`, then the body block after the opening brace. */
  function FunctionBody(toks: seq<Token>, kind: string, st: PState): (r: PResult<seq<Stmt>>)
    requires Inv(toks, st)
    ensures Inv(toks, r.st) && Le(st, r.st)
    ensures r.Ok? ==> r.st.pos > st.pos && StmtsNested(r.value)
    ensures r.Fail? ==> |r.st.errors| > |st.errors|
    decreases |toks| - st.pos, 79
  {
    var close := Consume(toks, st, RightParen, "Expect ')' after parameters'.");
    if close.Fail? then Fail(close.st)
    else
      var brace := Consume(toks, close.st, LeftBrace, "Expect '\U{7B}' before " + kind + " body.");
      if brace.Fail? then Fail(brace.st)
      else Block(toks, brace.st)
  }

  /** `block`, after the opening brace: declarations up to the closing
      brace (or EOF), then the closing brace.
      A nested declaration that failed is left out of the list; its error
      is in the state. */
  function Block(toks: seq<Token>, st: PState): (r: PResult<seq<Stmt>>)
    requires Inv(toks, st)
    ensures Inv(toks, r.st) && Le(st, r.st)
    ensures r.Ok? ==> r.st.pos > st.pos && StmtsNested(r.value)
    ensures r.Fail? ==> |r.st.errors| > |st.errors|
    decreases |toks| - st.pos, 110
  {
    if Check(toks, st, RightBrace) || AtEnd(toks, st) then
      var close := Consume(toks, st, RightBrace, "Expect '\U{7D}' after block.");
      if close.Fail? then Fail(close.st) else Ok([], close.st)
    else
      var (d, st1) := Declaration(toks, st);
      var rest := Block(toks, st1);
      if rest.Fail? then rest
      else
        var ss := (if d.Some? then [d.value] else []) + rest.value;
        assert StmtsNested(ss) by { StmtsNestedCons(if d.Some? then [d.value] else [], rest.value); }
        Ok(ss, rest.st)
  }

  lemma StmtsNestedCons(a: seq<Stmt>, b: seq<Stmt>)
    requires StmtsNested(a) && StmtsNested(b)
    ensures StmtsNested(a + b)
  {
    assert forall i :: 0 <= i < |a + b| ==> (a + b)[i] == if i < |a| then a[i] else b[i - |a|];
  }

  /** `statement`: dispatch on the leading keyword, else an expression statement. */
  function Statement(toks: seq<Token>, st: PState): (r: PResult<Stmt>)
    requires Inv(toks, st)
    ensures Inv(toks, r.st) && Le(st, r.st)
    ensures r.Ok? ==> r.st.pos > st.pos && StmtNested(r.value)
    ensures r.Fail? ==> |r.st.errors| > |st.errors|
    decreases |toks| - st.pos, 90
  {
    var st1 := Advance(toks, st);
    if Check(toks, st, For) then ForStatement(toks, st1)
    else if Check(toks, st, If) then IfStatement(toks, st1)
    else if Check(toks, st, Print) then PrintStatement(toks, st1)
    else if Check(toks, st, Return) then ReturnStatement(toks, toks[st.pos], st1)
    else if Check(toks, st, While) then WhileStatement(toks, st1)
    else if Check(toks, st, LeftBrace) then
      var b := Block(toks, st1);
      if b.Fail? then Fail(b.st) else Ok(BlockStmt(b.value), b.st)
    else ExpressionStatement(toks, st)
  }

  /** The initializer clause of `for_statement`: `;`, a variable
      declaration, or an expression statement. */
  function ForInitializer(toks: seq<Token>, st: PState): (r: PResult<Option<Stmt>>)
    requires Inv(toks, st)
    ensures Inv(toks, r.st) && Le(st, r.st)
    ensures r.Ok? ==> r.st.pos > st.pos && (r.value.Some? ==> StmtNested(r.value.value))
    ensures r.Ok? ==> (r.value.None? <==> Check(toks, st, Semicolon))
    ensures r.Fail? ==> |r.st.errors| > |st.errors|
    decreases |toks| - st.pos, 85
  {
    if Check(toks, st, Semicolon) then Ok(None, Advance(toks, st))
    else if Check(toks, st, Var) then
      var v := VarDeclaration(toks, Advance(toks, st));
      if v.Fail? then Fail(v.st) else Ok(Some(v.value), v.st)
    else
      var e := ExpressionStatement(toks, st);
      if e.Fail? then Fail(e.st) else Ok(Some(e.value), e.st)
  }

  /** The condition or increment clause of `for_statement`: absent when the
      current token is already the clause's terminator. */
  function ForClause(toks: seq<Token>, terminator: TokenType, st: PState): (r: PResult<Option<Expr>>)
    requires Inv(toks, st)
    ensures Inv(toks, r.st) && Le(st, r.st)
    ensures r.Ok? ==> (r.value.Some? ==> Nested(r.value.value))
    ensures r.Ok? ==> (r.value.None? <==> Check(toks, st, terminator)) && (r.value.None? ==> r.st == st)
    ensures r.Fail? ==> |r.st.errors| > |st.errors|
  {
    if Check(toks, st, terminator) then Ok(None, st)
    else
      var c := Expression(toks, st);
      if c.Fail? then Fail(c.st) else Ok(Some(c.value), c.st)
  }

  /** The parenthesised clauses of `for_statement`, after `for`: the
      initializer, the condition and the increment. */
  function ForClauses(toks: seq<Token>, st: PState): (r: PResult<(Option<Stmt>, Option<Expr>, Option<Expr>)>)
    requires Inv(toks, st)
    ensures Inv(toks, r.st) && Le(st, r.st)
    ensures r.Ok? ==> r.st.pos > st.pos
    ensures r.Ok? ==> (r.value.0.Some? ==> StmtNested(r.value.0.value)) &&
                      (r.value.1.Some? ==> Nested(r.value.1.value)) &&
                      (r.value.2.Some? ==> Nested(r.value.2.value))
    ensures r.Fail? ==> |r.st.errors| > |st.errors|
    decreases |toks| - st.pos, 79
  {
    var open := Consume(toks, st, LeftParen, "Expect '(' after 'for'.");
    if open.Fail? then Fail(open.st)
    else
      var init := ForInitializer(toks, open.st);
      if init.Fail? then Fail(init.st)
      else
        var rest := ForConditionIncrement(toks, init.st);
        if rest.Fail? then Fail(rest.st)
        else Ok((init.value, rest.value.0, rest.value.1), rest.st)
  }

  /** The condition and increment clauses of `for_statement`, each with its
      terminator. */
  function ForConditionIncrement(toks: seq<Token>, st: PState): (r: PResult<(Option<Expr>, Option<Expr>)>)
    requires Inv(toks, st)
    ensures Inv(toks, r.st) && Le(st, r.st)
    ensures r.Ok? ==> r.st.pos > st.pos
    ensures r.Ok? ==> (r.value.0.Some? ==> Nested(r.value.0.value)) && (r.value.1.Some? ==> Nested(r.value.1.value))
    ensures r.Fail? ==> |r.st.errors| > |st.errors|
  {
    var cond := ForClause(toks, Semicolon, st);
    if cond.Fail? then Fail(cond.st)
    else
      var semi := Consume(toks, cond.st, Semicolon, "Expect ';' after loop condition.");
      if semi.Fail? then Fail(semi.st)
      else
        var incr := ForClause(toks, RightParen, semi.st);
        if incr.Fail? then Fail(incr.st)
        else
          var close := Consume(toks, incr.st, RightParen, "Expect ')' after for clauses.");
          if close.Fail? then Fail(close.st)
          else Ok((cond.value, incr.value), close.st)
  }

  /** `for_statement`, after `for`: parses the three clauses and the body,
      then desugars. */
  function ForStatement(toks: seq<Token>, st: PState): (r: PResult<Stmt>)
    requires Inv(toks, st)
    ensures Inv(toks, r.st) && Le(st, r.st)
    ensures r.Ok? ==> r.st.pos > st.pos && StmtNested(r.value)
    ensures r.Fail? ==> |r.st.errors| > |st.errors|
    decreases |toks| - st.pos, 80
  {
    var clauses := ForClauses(toks, st);
    if clauses.Fail? then Fail(clauses.st)
    else
      var (init, cond, incr) := clauses.value;
      var body := Statement(toks, clauses.st);
      if body.Fail? then body
      else
        DesugarForNested(init, cond, incr, body.value);
        Ok(DesugarFor(init, cond, incr, body.value), body.st)
  }

  /** The rest of `if_statement` once the then-branch is parsed: an
      optional `else` and its branch. */
  function IfTail(toks: seq<Token>, cond: Expr, thenB: Stmt, st: PState): (r: PResult<Stmt>)
    requires Inv(toks, st) && Nested(cond) && StmtNested(thenB)
    ensures Inv(toks, r.st) && Le(st, r.st)
    ensures r.Ok? ==> StmtNested(r.value)
    ensures r.Fail? ==> |r.st.errors| > |st.errors|
    decreases |toks| - st.pos, 79
  {
    if Check(toks, st, Else) then
      var elseB := Statement(toks, Advance(toks, st));
      if elseB.Fail? then elseB
      else Ok(IfStmt(cond, thenB, Some(elseB.value)), elseB.st)
    else Ok(IfStmt(cond, thenB, None), st)
  }

  /** `if_statement`, after `if`. */
  function IfStatement(toks: seq<Token>, st: PState): (r: PResult<Stmt>)
    requires Inv(toks, st)
    ensures Inv(toks, r.st) && Le(st, r.st)
    ensures r.Ok? ==> r.st.pos > st.pos && StmtNested(r.value)
    ensures r.Fail? ==> |r.st.errors| > |st.errors|
    decreases |toks| - st.pos, 80
  {
    var open := Consume(toks, st, LeftParen, "Expect '(' after 'if'.");
    if open.Fail? then Fail(open.st)
    else
      var cond := Expression(toks, open.st);
      if cond.Fail? then Fail(cond.st)
      else IfBranches(toks, cond.value, cond.st)
  }

  /** The rest of `if_statement` once the condition is parsed: `)`, the
      then-branch and the optional `else`. */
  function IfBranches(toks: seq<Token>, cond: Expr, st: PState): (r: PResult<Stmt>)
    requires Inv(toks, st) && Nested(cond)
    ensures Inv(toks, r.st) && Le(st, r.st)
    ensures r.Ok? ==> r.st.pos > st.pos && StmtNested(r.value)
    ensures r.Fail? ==> |r.st.errors| > |st.errors|
    decreases |toks| - st.pos, 79
  {
    var close := Consume(toks, st, RightParen, "Expect ')' after if condition'");
    if close.Fail? then Fail(close.st)
    else
      var thenB := Statement(toks, close.st);
      if thenB.Fail? then thenB
      else IfTail(toks, cond, thenB.value, thenB.st)
  }

  /** `print_statement`, after `print`. */
  function PrintStatement(toks: seq<Token>, st: PState): (r: PResult<Stmt>)
    requires Inv(toks, st)
    ensures Inv(toks, r.st) && Le(st, r.st)
    ensures r.Ok? ==> r.st.pos > st.pos && StmtNested(r.value)
    ensures r.Fail? ==> |r.st.errors| > |st.errors|
    decreases |toks| - st.pos, 80
  {
    var e := Expression(toks, st);
    if e.Fail? then Fail(e.st)
    else
      var semi := Consume(toks, e.st, Semicolon, "Expect ';' after value.");
      if semi.Fail? then Fail(semi.st) else Ok(PrintStmt(e.value), semi.st)
  }

  /** `return_statement`, after `return` (the `keyword`): an optional value, then `;`. */
  function ReturnStatement(toks: seq<Token>, keyword: Token, st: PState): (r: PResult<Stmt>)
    requires Inv(toks, st)
    ensures Inv(toks, r.st) && Le(st, r.st)
    ensures r.Ok? ==> r.st.pos > st.pos && StmtNested(r.value) && r.value.ReturnStmt? && r.value.keyword == keyword
    ensures r.Ok? ==> (r.value.value.None? <==> Check(toks, st, Semicolon))
    ensures r.Fail? ==> |r.st.errors| > |st.errors|
    decreases |toks| - st.pos, 80
  {
    var value: PResult<Option<Expr>> :=
      if Check(toks, st, Semicolon) then Ok(None, st)
      else
        var e := Expression(toks, st);
        if e.Fail? then Fail(e.st) else Ok(Some(e.value), e.st);
    if value.Fail? then Fail(value.st)
    else
      var semi := Consume(toks, value.st, Semicolon, "Expect ';' after return value'");
      if semi.Fail? then Fail(semi.st) else Ok(ReturnStmt(keyword, value.value), semi.st)
  }

  /** `var_declaration`, after `var`: a name, an optional initializer, then `;`. */
  function VarDeclaration(toks: seq<Token>, st: PState): (r: PResult<Stmt>)
    requires Inv(toks, st)
    ensures Inv(toks, r.st) && Le(st, r.st)
    ensures r.Ok? ==> r.st.pos > st.pos && StmtNested(r.value) && r.value.VarStmt? && r.value.name == toks[st.pos]
    ensures r.Fail? ==> |r.st.errors| > |st.errors|
    decreases |toks| - st.pos, 80
  {
    var name := Consume(toks, st, Identifier, "Expect variable name.");
    if name.Fail? then Fail(name.st)
    else
      var init: PResult<Option<Expr>> :=
        if Check(toks, name.st, Equal) then
          var e := Expression(toks, Advance(toks, name.st));
          if e.Fail? then Fail(e.st) else Ok(Some(e.value), e.st)
        else Ok(None, name.st);
      if init.Fail? then Fail(init.st)
      else
        var semi := Consume(toks, init.st, Semicolon, "Expect ';' after declaration.");
        if semi.Fail? then Fail(semi.st) else Ok(VarStmt(name.value, init.value), semi.st)
  }

  /** `while_statement`, after `while`. */
  function WhileStatement(toks: seq<Token>, st: PState): (r: PResult<Stmt>)
    requires Inv(toks, st)
    ensures Inv(toks, r.st) && Le(st, r.st)
    ensures r.Ok? ==> r.st.pos > st.pos && StmtNested(r.value)
    ensures r.Fail? ==> |r.st.errors| > |st.errors|
    decreases |toks| - st.pos, 80
  {
    var open := Consume(toks, st, LeftParen, "Expect '(' after 'while'.");
    if open.Fail? then Fail(open.st)
    else
      var cond := Expression(toks, open.st);
      if cond.Fail? then Fail(cond.st)
      else
        var close := Consume(toks, cond.st, RightParen, "Expect ')' after condition.");
        if close.Fail? then Fail(close.st)
        else
          var body := Statement(toks, close.st);
          if body.Fail? then body else Ok(WhileStmt(cond.value, body.value), body.st)
  }

  /** `expression_statement`: an expression, then `;`. */
  function ExpressionStatement(toks: seq<Token>, st: PState): (r: PResult<Stmt>)
    requires Inv(toks, st)
    ensures Inv(toks, r.st) && Le(st, r.st)
    ensures r.Ok? ==> r.st.pos > st.pos && StmtNested(r.value) && r.value.ExprStmt?
    ensures r.Fail? ==> |r.st.errors| > |st.errors|
    decreases |toks| - st.pos, 80
  {
    var e := Expression(toks, st);
    if e.Fail? then Fail(e.st)
    else
      var semi := Consume(toks, e.st, Semicolon, "Expect ';' after value.");
      if semi.Fail? then Fail(semi.st) else Ok(ExprStmt(e.value), semi.st)
  }

  /** The parameter loop of `function`: `count` parameters precede this one;
      reaching 255 is reported, not raised. */
  function Parameters(toks: seq<Token>, count: nat, st: PState): (r: PResult<seq<Token>>)
    requires Inv(toks, st)
    ensures Inv(toks, r.st) && Le(st, r.st)
    ensures r.Ok? ==> r.st.pos > st.pos && |r.value| > 0 && forall i :: 0 <= i < |r.value| ==> r.value[i].kind == Identifier
    ensures r.Ok? && count + |r.value| > 255 ==> |r.st.errors| > |st.errors|
    ensures r.Fail? ==> |r.st.errors| > |st.errors|
    decreases |toks| - st.pos
  {
    var st1 := if count >= 255 then Report(st, toks[st.pos], "Can't have more than 255 parameters.") else st;
    var p := Consume(toks, st1, Identifier, "Expect parameter name.");
    if p.Fail? then Fail(p.st)
    else if Check(toks, p.st, Comma) then
      var rest := Parameters(toks, count + 1, Advance(toks, p.st));
      if rest.Fail? then rest else Ok([p.value] + rest.value, rest.st)
    else
      Ok([p.value], p.st)
  }

  /** The loop of `parse`: one entry per declaration until EOF. */
  function ParseFrom(toks: seq<Token>, st: PState): (r: (seq<Option<Stmt>>, PState))
    requires Inv(toks, st)
    ensures Inv(toks, r.1) && Le(st, r.1) && AtEnd(toks, r.1)
    ensures |r.1.errors| == |st.errors| ==> forall i :: 0 <= i < |r.0| ==> r.0[i].Some?
    ensures forall i :: 0 <= i < |r.0| && r.0[i].Some? ==> StmtNested(r.0[i].value)
    ensures AtEnd(toks, st) <==> |r.0| == 0
    decreases |toks| - st.pos
  {
    if AtEnd(toks, st) then ([], st)
    else
      var (d, st1) := Declaration(toks, st);
      var rest := ParseFrom(toks, st1);
      var stmts := [d] + rest.0;
      assert |st.errors| <= |st1.errors| <= |rest.1.errors|;
      assert |rest.1.errors| == |st.errors| ==> d.Some? && |rest.1.errors| == |st1.errors|;
      assert forall i :: 0 < i < |stmts| ==> stmts[i] == rest.0[i - 1];
      (stmts, rest.1)
  }

  /** `parse`: the statements of a whole token list, nil for each
      declaration that failed, and every reported error. */
  function Parse(toks: seq<Token>): (r: ParseOutput)
    requires ValidTokens(toks)
    ensures |r.errors| == 0 ==> forall i :: 0 <= i < |r.statements| ==> r.statements[i].Some?
    ensures forall i :: 0 <= i < |r.statements| && r.statements[i].Some? ==> StmtNested(r.statements[i].value)
    ensures toks[0].kind == Eof <==> |r.statements| == 0
  {
    var (stmts, st) := ParseFrom(toks, PState(0, 0, []));
    ParseOutput(stmts, st.errors)
  }
}
