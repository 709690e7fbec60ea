/** The static resolver (ch13/resolver.rb): walks the tree once, keeping a
    stack of block scopes (name -> defined yet?), and records for each
    local variable use how many scopes out its binding lives. Names found
    in no scope are left to the globals and get no entry. Legality errors
    are reported and the walk goes on. */
module RloxResolver {
  import opened Util
  import opened RloxToken
  import opened RloxAst

  datatype FunctionType = NoFunction | FunctionKind | MethodKind | InitializerKind

  datatype ClassType = NoClass | InClass

  /** One block scope: `false` while a name is declared but its initializer
      is still being resolved, `true` once it is defined. */
  type Scope = map<string, bool>

  /** The resolver's fields: the scope stack, the enclosing function and
      class kinds, the side table node id -> depth, and reported errors. */
  datatype RState = RState(scopes: seq<Scope>, fn: FunctionType, cls: ClassType,
                           locals: map<nat, nat>, errors: seq<StaticError>)

  const Initial := RState([], NoFunction, NoClass, map[], [])

  /** `resolve_local`'s search: the distance from the innermost scope to the
      innermost scope that binds `name`, or None when none does. */
  function ResolveLocal(scopes: seq<Scope>, name: string): (r: Option<nat>)
    ensures r.Some? ==> r.value < |scopes| && name in scopes[|scopes| - 1 - r.value]
    ensures r.Some? ==> forall j :: |scopes| - 1 - r.value < j < |scopes| ==> name !in scopes[j]
    ensures r.None? <==> forall j :: 0 <= j < |scopes| ==> name !in scopes[j]
  {
    if |scopes| == 0 then None
    else if name in scopes[|scopes| - 1] then Some(0)
    else
      var outer := scopes[..|scopes| - 1];
      match ResolveLocal(outer, name)
      case None => None
      case Some(d) => Some(d + 1)
  }

  /** `resolve_local(expr, name)`: records the depth for node `id`, or nothing. */
  function Record(st: RState, id: nat, name: Token): (r: RState)
    ensures r.scopes == st.scopes && r.fn == st.fn && r.cls == st.cls && r.errors == st.errors
    ensures ResolveLocal(st.scopes, name.lexeme).Some? ==>
              r.locals == st.locals[id := ResolveLocal(st.scopes, name.lexeme).value]
    ensures ResolveLocal(st.scopes, name.lexeme).None? ==> r.locals == st.locals
  {
    match ResolveLocal(st.scopes, name.lexeme)
    case None => st
    case Some(d) => st.(locals := st.locals[id := d])
  }

  function Report(st: RState, token: Token, message: string): (r: RState)
    ensures r == st.(errors := st.errors + [StaticError(token, message)])
  {
    st.(errors := st.errors + [StaticError(token, message)])
  }

  function BeginScope(st: RState): (r: RState)
    ensures r.scopes == st.scopes + [map[]] && r.(scopes := st.scopes) == st
  {
    st.(scopes := st.scopes + [map[]])
  }

  function EndScope(st: RState): (r: RState)
    requires |st.scopes| > 0
    ensures r.scopes == st.scopes[..|st.scopes| - 1] && r.(scopes := st.scopes) == st
  {
    st.(scopes := st.scopes[..|st.scopes| - 1])
  }

  /** Binds `name` to `b` in the innermost scope. */
  function SetInnermost(st: RState, name: string, b: bool): (r: RState)
    requires |st.scopes| > 0
  {
    var n := |st.scopes|;
    st.(scopes := st.scopes[n - 1 := st.scopes[n - 1][name := b]])
  }

  /** `declare`: a no-op without scopes; otherwise marks the name as
      declared-not-defined in the innermost scope, reporting a redeclaration
      in that same scope. */
  function Declare(st: RState, name: Token): (r: RState)
    ensures |st.scopes| == 0 ==> r == st
    ensures |st.scopes| > 0 ==>
              |r.scopes| == |st.scopes| &&
              r.scopes[..|r.scopes| - 1] == st.scopes[..|st.scopes| - 1] &&
              r.scopes[|r.scopes| - 1] == st.scopes[|st.scopes| - 1][name.lexeme := false]
    ensures r.fn == st.fn && r.cls == st.cls && r.locals == st.locals
    ensures r.errors == st.errors + (if |st.scopes| > 0 && name.lexeme in st.scopes[|st.scopes| - 1]
                                     then [StaticError(name, "Already a variable with this name in this scope.")]
                                     else [])
  {
    if |st.scopes| == 0 then st
    else
      var st1 := if name.lexeme in st.scopes[|st.scopes| - 1]
                 then Report(st, name, "Already a variable with this name in this scope.")
                 else st;
      SetInnermost(st1, name.lexeme, false)
  }

  /** `define`: a no-op without scopes; otherwise marks the name defined in
      the innermost scope. */
  function Define(st: RState, name: Token): (r: RState)
    ensures |st.scopes| == 0 ==> r == st
    ensures |st.scopes| > 0 ==>
              |r.scopes| == |st.scopes| &&
              r.scopes[..|r.scopes| - 1] == st.scopes[..|st.scopes| - 1] &&
              r.scopes[|r.scopes| - 1] == st.scopes[|st.scopes| - 1][name.lexeme := true]
    ensures r.fn == st.fn && r.cls == st.cls && r.locals == st.locals && r.errors == st.errors
  {
    if |st.scopes| == 0 then st else SetInnermost(st, name.lexeme, true)
  }

  /** The statement-level frame condition: the stack has the same height,
      every scope but the innermost is untouched, the function and class
      context are as before, and the side table and errors only grow. */
  predicate Framed(st: RState, r: RState) {
    |r.scopes| == |st.scopes| &&
    (|st.scopes| > 0 ==> r.scopes[..|r.scopes| - 1] == st.scopes[..|st.scopes| - 1]) &&
    r.fn == st.fn && r.cls == st.cls &&
    st.locals.Keys <= r.locals.Keys && st.errors <= r.errors
  }

  /** `visit_variable_expr`: reading a name declared but not yet defined in
      the innermost scope is reported; the use is then resolved. */
  function ResolveVariable(st: RState, id: nat, name: Token): (r: RState)
    ensures r.scopes == st.scopes && r.fn == st.fn && r.cls == st.cls
    ensures var selfRead := |st.scopes| > 0 && name.lexeme in st.scopes[|st.scopes| - 1] &&
                            !st.scopes[|st.scopes| - 1][name.lexeme];
            r.errors == st.errors + (if selfRead then [StaticError(name, "Can't read local variable in its own initializer.")] else [])
    ensures r.locals == Record(st, id, name).locals
  {
    var n := |st.scopes|;
    var st1 := if n > 0 && name.lexeme in st.scopes[n - 1] && !st.scopes[n - 1][name.lexeme]
               then Report(st, name, "Can't read local variable in its own initializer.")
               else st;
    Record(st1, id, name)
  }

  /** `visit_this_expr`: an error outside a class, otherwise resolved like a local. */
  function ResolveThis(st: RState, id: nat, keyword: Token): (r: RState)
    ensures r.scopes == st.scopes && r.fn == st.fn && r.cls == st.cls
    ensures st.cls == NoClass ==> r == Report(st, keyword, "Can't use 'this' outside of a class.")
    ensures st.cls != NoClass ==> r == Record(st, id, keyword)
  {
    if st.cls == NoClass then Report(st, keyword, "Can't use 'this' outside of a class.")
    else Record(st, id, keyword)
  }

  /** The checks of `visit_return_stmt`: returning outside any function, and
      returning a value from an initializer. */
  function ReturnChecks(st: RState, keyword: Token, hasValue: bool): (r: RState)
    ensures r.scopes == st.scopes && r.fn == st.fn && r.cls == st.cls && r.locals == st.locals
    ensures r.errors == st.errors
                        + (if st.fn == NoFunction then [StaticError(keyword, "Can't return from top-level code.")] else [])
                        + (if hasValue && st.fn == InitializerKind
                           then [StaticError(keyword, "Can't return a value from an initializer.")] else [])
  {
    var st1 := if st.fn == NoFunction then Report(st, keyword, "Can't return from top-level code.") else st;
    if hasValue && st.fn == InitializerKind then Report(st1, keyword, "Can't return a value from an initializer.")
    else st1
  }

  /** Expressions never touch the scope stack or the context; they only add
      side-table entries and errors. */
  function ResolveExpr(e: Expr, st: RState): (r: RState)
    ensures r.scopes == st.scopes && r.fn == st.fn && r.cls == st.cls
    ensures st.locals.Keys <= r.locals.Keys && st.errors <= r.errors
    decreases e
  {
    match e
    case AssignExpr(id, name, value) => Record(ResolveExpr(value, st), id, name)
    case BinaryExpr(l, _, rt) => ResolveExpr(rt, ResolveExpr(l, st))
    case CallExpr(callee, _, args) => ResolveExprs(args, ResolveExpr(callee, st))
    case GetExpr(obj, _) => ResolveExpr(obj, st)
    case GroupingExpr(inner) => ResolveExpr(inner, st)
    case LiteralExpr(_) => st
    case LogicalExpr(l, _, rt) => ResolveExpr(rt, ResolveExpr(l, st))
    case SetExpr(obj, _, value) => ResolveExpr(obj, ResolveExpr(value, st))
    case SuperExpr(id, keyword, _) => Record(st, id, keyword)
    case ThisExpr(id, keyword) => ResolveThis(st, id, keyword)
    case UnaryExpr(_, rt) => ResolveExpr(rt, st)
    case VariableExpr(id, name) => ResolveVariable(st, id, name)
  }

  function ResolveExprs(es: seq<Expr>, st: RState): (r: RState)
    ensures r.scopes == st.scopes && r.fn == st.fn && r.cls == st.cls
    ensures st.locals.Keys <= r.locals.Keys && st.errors <= r.errors
    decreases es
  {
    if |es| == 0 then st else ResolveExprs(es[1..], ResolveExpr(es[0], st))
  }

  /** Declares and defines each parameter in the function's own scope. */
  function DeclareParams(params: seq<Token>, st: RState): (r: RState)
    requires |st.scopes| > 0
    ensures Framed(st, r) && r.locals == st.locals
  {
    if |params| == 0 then st else DeclareParams(params[1..], Define(Declare(st, params[0]), params[0]))
  }

  /** `resolve_function`: a fresh scope for parameters and body, resolved
      under the given function kind; the stack and the enclosing kind are
      restored afterwards. */
  function ResolveFunction(f: FunDecl, kind: FunctionType, st: RState): (r: RState)
    ensures r.scopes == st.scopes && r.fn == st.fn && r.cls == st.cls
    ensures st.locals.Keys <= r.locals.Keys && st.errors <= r.errors
    decreases f
  {
    var st1 := DeclareParams(f.params, BeginScope(st.(fn := kind)));
    var st2 := ResolveStmts(f.body, st1);
    EndScope(st2).(fn := st.fn)
  }

  /** The method loop of `visit_class_stmt`: a method named `init` is an
      initializer, any other a plain method. */
  function ResolveMethods(ms: seq<FunDecl>, st: RState): (r: RState)
    ensures r.scopes == st.scopes && r.fn == st.fn && r.cls == st.cls
    ensures st.locals.Keys <= r.locals.Keys && st.errors <= r.errors
    decreases ms, 0
  {
    if |ms| == 0 then st
    else
      var kind := if ms[0].name.lexeme == "init" then InitializerKind else MethodKind;
      ResolveMethods(ms[1..], ResolveFunction(ms[0], kind, st))
  }

  /** The scopes of a class body: one binding `super` when there is a
      superclass, inside it one binding `this`, and the methods inside
      both; both scopes are popped afterwards. */
  function ResolveClassBody(hasSuper: bool, methods: seq<FunDecl>, st: RState): (r: RState)
    ensures r.scopes == st.scopes && r.fn == st.fn && r.cls == st.cls
    ensures st.locals.Keys <= r.locals.Keys && st.errors <= r.errors
    decreases methods, 1
  {
    var st1 := if hasSuper then SetInnermost(BeginScope(st), "super", true) else st;
    assert st1.scopes[..|st.scopes|] == st.scopes && |st1.scopes| == |st.scopes| + (if hasSuper then 1 else 0);
    var st2 := SetInnermost(BeginScope(st1), "this", true);
    assert st2.scopes[..|st1.scopes|] == st1.scopes && |st2.scopes| == |st1.scopes| + 1;
    var st3 := ResolveMethods(methods, st2);
    var st4 := EndScope(st3);
    assert st4.scopes == st1.scopes;
    if hasSuper then EndScope(st4) else st4
  }

  lemma InPrefix<T>(x: T, a: seq<T>, b: seq<T>)
    requires x in a && a <= b
    ensures x in b
  {
    var i :| 0 <= i < |a| && a[i] == x;
    assert b[i] == x;
  }

  /** The head of `visit_class_stmt`: declares the class name, rejects
      direct self-inheritance by name and resolves the superclass. */
  function ClassHeader(name: Token, superclass: Option<SuperRef>, st: RState): (r: RState)
    ensures Framed(st, r)
    ensures superclass.Some? && name.lexeme == superclass.value.name.lexeme ==>
              StaticError(superclass.value.name, "A class can't inherit from itself") in r.errors
  {
    var st1 := Define(Declare(st, name), name);
    var selfInherit := superclass.Some? && name.lexeme == superclass.value.name.lexeme;
    var st2 := if selfInherit then Report(st1, superclass.value.name, "A class can't inherit from itself") else st1;
    assert selfInherit ==> StaticError(superclass.value.name, "A class can't inherit from itself") in st2.errors;
    if superclass.Some? then ResolveVariable(st2, superclass.value.id, superclass.value.name) else st2
  }

  /** `visit_class_stmt`: the class head, then the body, in class context;
      the enclosing class context is restored afterwards. */
  function ResolveClass(name: Token, superclass: Option<SuperRef>, methods: seq<FunDecl>, st: RState): (r: RState)
    ensures Framed(st, r)
    ensures superclass.Some? && name.lexeme == superclass.value.name.lexeme ==>
              StaticError(superclass.value.name, "A class can't inherit from itself") in r.errors
    decreases methods, 2
  {
    var st3 := ClassHeader(name, superclass, st.(cls := InClass));
    var st4 := ResolveClassBody(superclass.Some?, methods, st3);
    var r := st4.(cls := st.cls);
    assert r.scopes == st3.scopes && r.fn == st.fn && r.locals == st4.locals && r.errors == st4.errors;
    assert superclass.Some? && name.lexeme == superclass.value.name.lexeme ==>
             StaticError(superclass.value.name, "A class can't inherit from itself") in r.errors by {
      if superclass.Some? && name.lexeme == superclass.value.name.lexeme {
        InPrefix(StaticError(superclass.value.name, "A class can't inherit from itself"), st3.errors, st4.errors);
      }
    }
    r
  }

  /** `resolve_stmt`. A block, function or class leaves the scope stack as it
      found it; a declaration changes only the innermost scope. */
  function ResolveStmt(s: Stmt, st: RState): (r: RState)
    ensures Framed(st, r)
    ensures s.BlockStmt? || s.ExprStmt? || s.PrintStmt? ==> r.scopes == st.scopes
    decreases s
  {
    match s
    case BlockStmt(ss) =>
      var st1 := ResolveStmts(ss, BeginScope(st));
      assert st1.scopes[..|st1.scopes| - 1] == st.scopes;
      EndScope(st1)
    case ClassStmt(name, superclass, methods) => ResolveClass(name, superclass, methods, st)
    case ExprStmt(e) => ResolveExpr(e, st)
    case FunStmt(d) =>
      var st1 := Define(Declare(st, d.name), d.name);
      FramedTrans(st, Declare(st, d.name), st1);
      ResolveFunction(d, FunctionKind, st1)
    case IfStmt(c, t, e) =>
      var st1 := ResolveStmt(t, ResolveExpr(c, st));
      if e.Some? then
        var st2 := ResolveStmt(e.value, st1);
        FramedTrans(st, st1, st2);
        st2
      else st1
    case PrintStmt(e) => ResolveExpr(e, st)
    case ReturnStmt(keyword, value) =>
      var st1 := ReturnChecks(st, keyword, value.Some?);
      if value.Some? then ResolveExpr(value.value, st1) else st1
    case VarStmt(name, init) => ResolveVar(name, init, st)
    case WhileStmt(c, b) => ResolveStmt(b, ResolveExpr(c, st))
  }

  /** `visit_var_stmt`: declare, resolve the initializer, then define, so the
      initializer cannot read the variable it initializes. */
  function ResolveVar(name: Token, init: Option<Expr>, st: RState): (r: RState)
    ensures Framed(st, r)
    ensures |st.scopes| > 0 ==> r.scopes[|r.scopes| - 1] == st.scopes[|st.scopes| - 1][name.lexeme := true]
  {
    var st1 := Declare(st, name);
    var st2 := if init.Some? then ResolveExpr(init.value, st1) else st1;
    FramedTrans(st, st1, st2);
    Define(st2, name)
  }

  lemma FramedTrans(a: RState, b: RState, c: RState)
    requires Framed(a, b) && Framed(b, c)
    ensures Framed(a, c)
  {
  }

  /** `resolve(statements)`: each statement in order. */
  function ResolveStmts(ss: seq<Stmt>, st: RState): (r: RState)
    ensures Framed(st, r)
    decreases ss
  {
    if |ss| == 0 then st else ResolveStmts(ss[1..], ResolveStmt(ss[0], st))
  }

  /** Resolving a whole program from the initial state: nothing stays on the
      scope stack and the context is back to top level. */
  function Resolve(program: seq<Stmt>): (r: RState)
    ensures r.scopes == [] && r.fn == NoFunction && r.cls == NoClass
  {
    ResolveStmts(program, Initial)
  }
}
