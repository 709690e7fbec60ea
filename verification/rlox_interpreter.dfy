/** The tree-walking evaluator of ch12/interpreter.rb with calls into
    ch13/lox_function.rb and ch13/lox_class.rb.

    Ruby's control transfers become outcomes: a raised `LoxRuntimeError` is
    `Raised` (carrying the state reached, since output already printed
    stays printed), a `Return` is the statement result `Returning(v)`, any
    other Ruby exception is `HostCrash`, a division by zero (an IEEE
    infinity or NaN the reals cannot hold) is `NonFinite`, and the fuel
    bound that makes evaluation total is `OutOfFuel`. The two host-level
    endings carry the lines printed before them, which stay printed when
    the Ruby process dies. */
module RloxInterpreter {
  import opened Util
  import opened RloxToken
  import opened RloxAst
  import opened RloxValue
  import opened RloxEnvironment
  import opened RloxObjects
  import opened RloxRuntime

  /** What the interpreter is given besides the tree: the resolver's side
      table and the host's float-to-text conversion. */
  datatype Ctx = Ctx(locals: map<nat, nat>, numText: Render<real>)

  datatype Outcome<T> =
    | Done(value: T, st: IState)
    | Raised(error: RuntimeError, st: IState)
    | HostCrash(printed: seq<string>)
    | NonFinite(printed: seq<string>)
    | OutOfFuel

  /** How a statement completes: normally, or by a `Return` signal. */
  datatype Flow = Normal | Returning(result: Value)

  /** A state-carrying outcome is valid, keeps the current frame, and grew
      from `st`. */
  predicate Sound<T>(st: IState, r: Outcome<T>) {
    ((r.Done? || r.Raised?) ==> Valid(r.st) && r.st.env == st.env && Grows(st, r.st)) &&
    ((r.HostCrash? || r.NonFinite?) ==> st.out <= r.printed)
  }

  predicate ValueDone(r: Outcome<Value>) {
    r.Done? ==> ValueOk(r.value, |r.st.heap|)
  }

  predicate ValuesOk(vs: seq<Value>, heapSize: nat) {
    forall i :: 0 <= i < |vs| ==> ValueOk(vs[i], heapSize)
  }

  predicate FlowDone(r: Outcome<Flow>) {
    r.Done? && r.value.Returning? ==> ValueOk(r.value.result, |r.st.heap|)
  }

  lemma GrowsTrans(a: IState, b: IState, c: IState)
    requires Grows(a, b) && Grows(b, c)
    ensures Grows(a, c)
  {
    forall i | 0 <= i < |a.heap| ensures Persists(a.heap[i], c.heap[i]) {
      assert Persists(a.heap[i], b.heap[i]) && Persists(b.heap[i], c.heap[i]);
    }
    forall i | 0 <= i < |a.frames| ensures c.frames[i].enclosing == a.frames[i].enclosing {
      assert b.frames[i].enclosing == a.frames[i].enclosing;
    }
  }

  /** An outcome sound from an intermediate state is sound from an earlier one. */
  lemma SoundChain<T>(st: IState, mid: IState, r: Outcome<T>)
    requires Grows(st, mid) && mid.env == st.env && Sound(mid, r)
    ensures Sound(st, r)
  {
    if r.Done? || r.Raised? { GrowsTrans(st, mid, r.st); }
  }

  /** Passes on an outcome that is not `Done`. */
  function Fail<T, U>(r: Outcome<T>): (f: Outcome<U>)
    requires !r.Done?
    ensures r.Raised? ==> f == Raised(r.error, r.st)
    ensures r.HostCrash? ==> f == HostCrash(r.printed)
    ensures r.NonFinite? ==> f == NonFinite(r.printed)
    ensures r.OutOfFuel? ==> f.OutOfFuel?
  {
    if r.Raised? then Raised(r.error, r.st)
    else if r.HostCrash? then HostCrash(r.printed)
    else if r.NonFinite? then NonFinite(r.printed)
    else OutOfFuel
  }

  // ---------------------------------------------------------------- expressions

  /** `evaluate`: one unit of fuel per node. */
  function Eval(ctx: Ctx, e: Expr, st: IState, fuel: nat): (r: Outcome<Value>)
    requires Valid(st)
    ensures Sound(st, r) && ValueDone(r)
    decreases fuel, 0, 0
  {
    if fuel == 0 then OutOfFuel
    else match e
      case LiteralExpr(l) => Done(FromLiteral(l), st)
      case GroupingExpr(x) => Eval(ctx, x, st, fuel - 1)
      case VariableExpr(id, name) => EvalLookUp(ctx, id, name, st)
      case ThisExpr(id, keyword) => EvalLookUp(ctx, id, keyword, st)
      case AssignExpr(id, name, v) => EvalAssign(ctx, id, name, v, st, fuel - 1)
      case LogicalExpr(l, op, r) => EvalLogical(ctx, l, op, r, st, fuel - 1)
      case SetExpr(o, name, v) => EvalSet(ctx, o, name, v, st, fuel - 1)
      case BinaryExpr(l, op, r) => EvalBinary(ctx, l, op, r, st, fuel - 1)
      case UnaryExpr(op, r) => EvalUnary(ctx, op, r, st, fuel - 1)
      case CallExpr(c, paren, args) => EvalCall(ctx, c, paren, args, st, fuel - 1)
      case GetExpr(o, name) => EvalGet(ctx, o, name, st, fuel - 1)
      case SuperExpr(_, _, _) => HostCrash(st.out)
  }

  /** `visit_variable_expr` and `visit_this_expr`. */
  function EvalLookUp(ctx: Ctx, id: nat, name: Token, st: IState): (r: Outcome<Value>)
    requires Valid(st)
    ensures Sound(st, r) && ValueDone(r)
    ensures r.Done? || r.Raised? ==> r.st == st
    ensures LookUp(ctx.locals, st, id, name).Found? <==> r.Done?
    ensures r.Done? ==> r.value == LookUp(ctx.locals, st, id, name).value
    ensures LookUp(ctx.locals, st, id, name).NotFound? <==> r.Raised?
  {
    match LookUp(ctx.locals, st, id, name)
    case Found(v) => Done(v, st)
    case NotFound(err) => Raised(err, st)
    case BrokenChain => HostCrash(st.out)
  }

  /** `visit_assign_expr`: the value first, then `assign_at` or the globals'
      `assign`; the result is the value assigned. */
  function EvalAssign(ctx: Ctx, id: nat, name: Token, value: Expr, st: IState, fuel: nat): (r: Outcome<Value>)
    requires Valid(st)
    ensures Sound(st, r) && ValueDone(r)
    ensures r.Done? ==> var v := Eval(ctx, value, st, fuel);
                        v.Done? && r.value == v.value &&
                        StAssign(ctx.locals, v.st, id, name, v.value) == Stored(r.st)
    decreases fuel, 6, 0
  {
    var v := Eval(ctx, value, st, fuel);
    if !v.Done? then Fail(v)
    else match StAssign(ctx.locals, v.st, id, name, v.value)
      case Stored(s) => Done(v.value, s)
      case StoreFailed(err) => Raised(err, v.st)
      case StoreBroken => HostCrash(v.st.out)
  }

  /** `visit_logical_expr`: `or` yields a truthy left operand and `and` a
      falsy one without evaluating the right; otherwise the right's value. */
  function EvalLogical(ctx: Ctx, left: Expr, op: Token, right: Expr, st: IState, fuel: nat): (r: Outcome<Value>)
    requires Valid(st)
    ensures Sound(st, r) && ValueDone(r)
    ensures var l := Eval(ctx, left, st, fuel);
            l.Done? && (op.kind == Or <==> Truthy(l.value)) ==> r == l
    ensures var l := Eval(ctx, left, st, fuel);
            l.Done? && (op.kind == Or <==> !Truthy(l.value)) ==> r == Eval(ctx, right, l.st, fuel)
    decreases fuel, 6, 0
  {
    var l := Eval(ctx, left, st, fuel);
    if !l.Done? then Fail(l)
    else if op.kind == Or then
      (if Truthy(l.value) then l else Eval(ctx, right, l.st, fuel))
    else
      (if !Truthy(l.value) then l else Eval(ctx, right, l.st, fuel))
  }

  /** `visit_set_expr`: a non-instance target ends in a Ruby NoMethodError
      (the error object is built without `.new`) before the value is
      evaluated; otherwise the field is written and the value returned. */
  function EvalSet(ctx: Ctx, obj: Expr, name: Token, value: Expr, st: IState, fuel: nat): (r: Outcome<Value>)
    requires Valid(st)
    ensures Sound(st, r) && ValueDone(r)
    ensures var o := Eval(ctx, obj, st, fuel);
            o.Done? && !(o.value.VObj? && o.st.heap[o.value.ref].InstanceObj?) ==> r == HostCrash(o.st.out)
    ensures r.Done? ==>
              var o := Eval(ctx, obj, st, fuel);
              o.Done? && o.value.VObj? && o.value.ref < |r.st.heap| && r.st.heap[o.value.ref].InstanceObj? &&
              name.lexeme in r.st.heap[o.value.ref].fields && r.st.heap[o.value.ref].fields[name.lexeme] == r.value
    decreases fuel, 6, 0
  {
    var o := Eval(ctx, obj, st, fuel);
    if !o.Done? then Fail(o)
    else if !(o.value.VObj? && o.st.heap[o.value.ref].InstanceObj?) then HostCrash(o.st.out)
    else
      var v := Eval(ctx, value, o.st, fuel);
      if !v.Done? then Fail(v)
      else
        assert Persists(o.st.heap[o.value.ref], v.st.heap[o.value.ref]);
        Done(v.value, StSetField(v.st, o.value.ref, name, v.value))
  }

  /** `visit_get_expr`: only instances have properties. */
  function EvalGet(ctx: Ctx, obj: Expr, name: Token, st: IState, fuel: nat): (r: Outcome<Value>)
    requires Valid(st)
    ensures Sound(st, r) && ValueDone(r)
    ensures var o := Eval(ctx, obj, st, fuel);
            o.Done? && !(o.value.VObj? && o.st.heap[o.value.ref].InstanceObj?) ==>
              r == Raised(RuntimeError(name, "Only instances have properties."), o.st)
    ensures r.Done? ==> var o := Eval(ctx, obj, st, fuel);
            o.Done? && o.value.VObj? && o.st.heap[o.value.ref].InstanceObj? &&
            o.st.heap[o.value.ref].klass < |o.st.heap| && o.st.heap[o.st.heap[o.value.ref].klass].ClassObj? &&
            InstanceGet(o.st.heap, o.st.frames, o.value.ref, name) == Ok(Alloc(r.st.heap, r.st.frames, r.value))
    decreases fuel, 6, 0
  {
    var o := Eval(ctx, obj, st, fuel);
    if !o.Done? then Fail(o)
    else if !(o.value.VObj? && o.st.heap[o.value.ref].InstanceObj?) then
      Raised(RuntimeError(name, "Only instances have properties."), o.st)
    else
      assert ObjectOk(o.st.heap, o.value.ref, |o.st.frames|);
      match InstanceGet(o.st.heap, o.st.frames, o.value.ref, name)
      case Err(err) => Raised(err, o.st)
      case Ok(a) =>
        var s := o.st.(heap := a.heap, frames := a.frames);
        assert Grows(o.st, s) by {
          forall i | 0 <= i < |o.st.heap| ensures Persists(o.st.heap[i], s.heap[i]) {
            assert s.heap[i] == a.heap[..|o.st.heap|][i];
          }
          forall i | 0 <= i < |o.st.frames| ensures s.frames[i].enclosing == o.st.frames[i].enclosing {
            assert s.frames[i] == a.frames[..|o.st.frames|][i];
          }
        }
        Done(a.value, s)
  }

  /** `visit_unary_expr`: `!` negates truthiness; `-` has no operand check,
      so it negates a number, returns a string unchanged (Ruby's
      `String#-@`) and raises a Ruby NoMethodError on anything else. */
  function EvalUnary(ctx: Ctx, op: Token, right: Expr, st: IState, fuel: nat): (r: Outcome<Value>)
    requires Valid(st)
    ensures Sound(st, r) && ValueDone(r)
    ensures var v := Eval(ctx, right, st, fuel);
            v.Done? ==>
              (op.kind == Bang ==> r == Done(VBool(!Truthy(v.value)), v.st)) &&
              (op.kind == Minus && v.value.VNum? ==> r == Done(VNum(-v.value.n), v.st)) &&
              (op.kind == Minus && v.value.VStr? ==> r == Done(v.value, v.st)) &&
              (op.kind == Minus && !v.value.VNum? && !v.value.VStr? ==> r == HostCrash(v.st.out))
    decreases fuel, 6, 0
  {
    var v := Eval(ctx, right, st, fuel);
    if !v.Done? then Fail(v)
    else if op.kind == Minus then
      (if v.value.VNum? then Done(VNum(-v.value.n), v.st)
       else if v.value.VStr? then Done(v.value, v.st)
       else HostCrash(v.st.out))
    else if op.kind == Bang then Done(VBool(!Truthy(v.value)), v.st)
    else Done(VNil, v.st)
  }

  /** `visit_binary_expr`: left, then right, then the operator table. */
  function EvalBinary(ctx: Ctx, left: Expr, op: Token, right: Expr, st: IState, fuel: nat): (r: Outcome<Value>)
    requires Valid(st)
    ensures Sound(st, r) && ValueDone(r)
    ensures var l := Eval(ctx, left, st, fuel);
            l.Done? ==> var rt := Eval(ctx, right, l.st, fuel);
                        rt.Done? ==> match BinaryOp(op, l.value, rt.value)
                                     case BOk(v) => r == Done(v, rt.st)
                                     case BErr(err) => r == Raised(err, rt.st)
                                     case BNonFinite => r == NonFinite(rt.st.out)
    decreases fuel, 6, 0
  {
    var l := Eval(ctx, left, st, fuel);
    if !l.Done? then Fail(l)
    else
      var rt := Eval(ctx, right, l.st, fuel);
      if !rt.Done? then Fail(rt)
      else match BinaryOp(op, l.value, rt.value)
        case BOk(v) => Done(v, rt.st)
        case BErr(err) => Raised(err, rt.st)
        case BNonFinite => NonFinite(rt.st.out)
  }

  /** The arguments, left to right. */
  function EvalArgs(ctx: Ctx, args: seq<Expr>, st: IState, fuel: nat): (r: Outcome<seq<Value>>)
    requires Valid(st)
    ensures Sound(st, r)
    ensures r.Done? ==> |r.value| == |args| && ValuesOk(r.value, |r.st.heap|)
    decreases fuel, 1, |args|
  {
    if |args| == 0 then Done([], st)
    else
      var first := Eval(ctx, args[0], st, fuel);
      if !first.Done? then Fail(first)
      else
        var rest := EvalArgs(ctx, args[1..], first.st, fuel);
        if !rest.Done? then Fail(rest)
        else Done([first.value] + rest.value, rest.st)
  }

  function CallError(paren: Token, arity: nat, count: nat): RuntimeError {
    RuntimeError(paren, "Expected " + NatToString(arity) + " arguments but got " + NatToString(count) + ".")
  }

  /** `visit_call_expr`: the callee, then the arguments left to right,
      then the call. */
  function EvalCall(ctx: Ctx, callee: Expr, paren: Token, args: seq<Expr>, st: IState, fuel: nat): (r: Outcome<Value>)
    requires Valid(st)
    ensures Sound(st, r) && ValueDone(r)
    ensures var c := Eval(ctx, callee, st, fuel);
            c.Done? ==> var a := EvalArgs(ctx, args, c.st, fuel);
              a.Done? ==> r == CallValue(ctx, c.value, paren, a.value, a.st, fuel)
    decreases fuel, 6, 0
  {
    var c := Eval(ctx, callee, st, fuel);
    if !c.Done? then Fail(c)
    else
      var a := EvalArgs(ctx, args, c.st, fuel);
      if !a.Done? then Fail(a)
      else
        var r := CallValue(ctx, c.value, paren, a.value, a.st, fuel);
        GrowsTrans(st, c.st, a.st);
        SoundChain(st, a.st, r);
        r
  }

  /** The checks of `visit_call_expr` before `function.call`: only functions
      and classes are callable, and the argument count must equal the arity. */
  function CallValue(ctx: Ctx, callee: Value, paren: Token, args: seq<Value>, st: IState, fuel: nat): (r: Outcome<Value>)
    requires Valid(st) && ValueOk(callee, |st.heap|) && ValuesOk(args, |st.heap|)
    ensures Sound(st, r) && ValueDone(r)
    ensures !(callee.VObj? && !st.heap[callee.ref].InstanceObj?) ==>
              r == Raised(RuntimeError(paren, "Can only call functions and classes."), st)
    ensures callee.VObj? && st.heap[callee.ref].FunctionObj? ==>
              var f := st.heap[callee.ref].fun;
              (|args| != |f.decl.params| ==> r == Raised(CallError(paren, |f.decl.params|, |args|), st)) &&
              (|args| == |f.decl.params| ==> f.closure < |st.frames| && r == CallFunction(ctx, f, args, st, fuel))
    ensures callee.VObj? && st.heap[callee.ref].ClassObj? ==>
              var arity := ClassArity(st.heap, callee.ref);
              (|args| != arity ==> r == Raised(CallError(paren, arity, |args|), st)) &&
              (|args| == arity ==> r == CallClass(ctx, callee.ref, args, st, fuel))
    decreases fuel, 5, 0
  {
    if !(callee.VObj? && !st.heap[callee.ref].InstanceObj?) then
      Raised(RuntimeError(paren, "Can only call functions and classes."), st)
    else
      var ref := callee.ref;
      assert ObjectOk(st.heap, ref, |st.frames|);
      if st.heap[ref].FunctionObj? then
        var f := st.heap[ref].fun;
        if |args| != FunctionArity(f) then Raised(CallError(paren, FunctionArity(f), |args|), st)
        else CallFunction(ctx, f, args, st, fuel)
      else
        var arity := ClassArity(st.heap, ref);
        if |args| != arity then Raised(CallError(paren, arity, |args|), st)
        else CallClass(ctx, ref, args, st, fuel)
  }

  /** The positional parameter bindings of a call, as successive
      `define`s make them: parameter i names argument i (nil past the end). */
  function ParamsMap(params: seq<Token>, args: seq<Value>): map<string, Value>
    decreases |params|
  {
    if |params| == 0 then map[]
    else
      var n := |params| - 1;
      ParamsMap(params[..n], args)[params[n].lexeme := if n < |args| then args[n] else VNil]
  }

  /** Exactly the parameter names are bound. */
  lemma {:induction false} ParamsMapDomain(params: seq<Token>, args: seq<Value>)
    ensures forall n :: n in ParamsMap(params, args) <==> exists i :: 0 <= i < |params| && params[i].lexeme == n
    decreases |params|
  {
    if |params| > 0 {
      var n := |params| - 1;
      var p0 := params[..n];
      ParamsMapDomain(p0, args);
      var m0 := ParamsMap(p0, args);
      var m := ParamsMap(params, args);
      assert m == m0[params[n].lexeme := if n < |args| then args[n] else VNil];
      forall key ensures key in m <==> exists i :: 0 <= i < |params| && params[i].lexeme == key {
        if key != params[n].lexeme && key in m {
          assert key in m0;
          var i :| 0 <= i < |p0| && p0[i].lexeme == key;
          assert params[i] == p0[i];
        }
        if key != params[n].lexeme && exists i :: 0 <= i < |params| && params[i].lexeme == key {
          var i :| 0 <= i < |params| && params[i].lexeme == key;
          assert i < n && p0[i] == params[i];
        }
      }
    }
  }

  /** A parameter with no later namesake is bound to the argument at its
      position (nil past the end of the arguments), so a later duplicate
      overrides an earlier one. */
  lemma {:induction false} ParamsMapValue(params: seq<Token>, args: seq<Value>, i: nat)
    requires i < |params|
    requires forall j :: i < j < |params| ==> params[j].lexeme != params[i].lexeme
    ensures params[i].lexeme in ParamsMap(params, args)
    ensures ParamsMap(params, args)[params[i].lexeme] == (if i < |args| then args[i] else VNil)
    decreases |params|
  {
    var n := |params| - 1;
    var p0 := params[..n];
    if i < n {
      assert params[n].lexeme != params[i].lexeme;
      assert p0[i] == params[i];
      forall j | i < j < |p0| ensures p0[j].lexeme != p0[i].lexeme {
        assert p0[j] == params[j];
      }
      ParamsMapValue(p0, args, i);
    }
  }

  lemma ParamsMapOk(params: seq<Token>, args: seq<Value>, heapSize: nat)
    requires ValuesOk(args, heapSize)
    ensures forall n :: n in ParamsMap(params, args) ==> ValueOk(ParamsMap(params, args)[n], heapSize)
    decreases |params|
  {
    if |params| > 0 { ParamsMapOk(params[..|params| - 1], args, heapSize); }
  }

  /** The frame a call runs its body in: a new frame holding the
      parameters, whose parent is the function's closure. */
  function CallFrame(f: LoxFunction, args: seq<Value>, st: IState): (r: IState)
    requires Valid(st) && f.closure < |st.frames| && ValuesOk(args, |st.heap|)
    ensures Valid(r) && Grows(st, r) && r.env == st.env && r.heap == st.heap && r.out == st.out
    ensures r.frames == st.frames + [Frame(ParamsMap(f.decl.params, args), Some(f.closure))]
  {
    ParamsMapOk(f.decl.params, args, |st.heap|);
    StPush(st, ParamsMap(f.decl.params, args), f.closure)
  }

  /** `this` as an initializer reads it: `@closure.get_at(0, 'this')`. */
  function ThisOf(frames: seq<Frame>, closure: nat): Value
    requires closure < |frames|
  {
    if "this" in frames[closure].values then frames[closure].values["this"] else VNil
  }

  /** `LoxFunction#call`: the body runs as a block in the call frame; a
      `Return` yields its value and falling off the end yields nil, except
      that an initializer always yields `this` from its closure. */
  function CallFunction(ctx: Ctx, f: LoxFunction, args: seq<Value>, st: IState, fuel: nat): (r: Outcome<Value>)
    requires Valid(st) && f.closure < |st.frames| && ValuesOk(args, |st.heap|)
    ensures Sound(st, r) && ValueDone(r)
    ensures var b := ExecBlock(ctx, f.decl.body, |st.frames|, CallFrame(f, args, st), fuel);
            (b.Raised? ==> r == Raised(b.error, b.st)) &&
            (b.Done? ==> r.Done? && r.st == b.st) &&
            (b.Done? && f.isInit ==> r.value == ThisOf(b.st.frames, f.closure)) &&
            (b.Done? && !f.isInit ==> r.value == if b.value.Returning? then b.value.result else VNil)
    ensures r.Done? || r.Raised? ==> |st.frames| < |r.st.frames| && r.st.frames[|st.frames|].enclosing == Some(f.closure)
    decreases fuel, 3, 0
  {
    var s := CallFrame(f, args, st);
    var b := ExecBlock(ctx, f.decl.body, |st.frames|, s, fuel);
    if !b.Done? then Fail(b)
    else if f.isInit then
      assert ValueOk(ThisOf(b.st.frames, f.closure), |b.st.heap|) by {
        if "this" in b.st.frames[f.closure].values {
          assert ValueOk(b.st.frames[f.closure].values["this"], |b.st.heap|);
        }
      }
      Done(ThisOf(b.st.frames, f.closure), b.st)
    else if b.value.Returning? then Done(b.value.result, b.st)
    else Done(VNil, b.st)
  }

  /** `LoxClass#call`: a fresh instance; the bound `init`, when there is
      one, runs with the arguments; the instance is the result. */
  function CallClass(ctx: Ctx, k: nat, args: seq<Value>, st: IState, fuel: nat): (r: Outcome<Value>)
    requires Valid(st) && k < |st.heap| && st.heap[k].ClassObj? && ValuesOk(args, |st.heap|)
    ensures Sound(st, r) && ValueDone(r)
    ensures r.Done? ==> r.value == VObj(|st.heap|) && |st.heap| < |r.st.heap| &&
                        r.st.heap[|st.heap|].InstanceObj? && r.st.heap[|st.heap|].klass == k
    ensures FindMethod(st.heap, k, "init").None? ==>
              r == Done(VObj(|st.heap|), StAlloc(st, InstanceObj(k, map[])))
    decreases fuel, 4, 0
  {
    var inst := InstanceObj(k, map[]);
    assert ClassesLinked(st.heap + [inst]) by {
      forall i | 0 <= i < |st.heap + [inst]| && (st.heap + [inst])[i].ClassObj? && (st.heap + [inst])[i].superclass.Some?
        ensures (st.heap + [inst])[i].superclass.value < i && (st.heap + [inst])[(st.heap + [inst])[i].superclass.value].ClassObj?
      {
        assert (st.heap + [inst])[i] == st.heap[i];
      }
    }
    var s := StAlloc(st, inst);
    var self := VObj(|st.heap|);
    assert FindMethod(s.heap, k, "init") == FindMethod(st.heap, k, "init") by {
      FindMethodExtend(st.heap, inst, k, "init");
    }
    match FindMethod(s.heap, k, "init")
    case None => Done(self, s)
    case Some(m) =>
      FindMethodOk(s.heap, |s.frames|, k, "init");
      var (frames2, f) := Bind(s.frames, m, self);
      var s2 := s.(frames := frames2);
      PushOk(s.heap, s.frames, map["this" := self], m.closure);
      assert frames2 == s.frames + [Frame(map["this" := self], Some(m.closure))];
      assert Grows(s, s2) by {
        forall i | 0 <= i < |s.frames| ensures s2.frames[i].enclosing == s.frames[i].enclosing {
          assert s2.frames[i] == s.frames[i];
        }
      }
      var c := CallFunction(ctx, f, args, s2, fuel);
      if !c.Done? then Fail(c)
      else
        assert Persists(s.heap[|st.heap|], c.st.heap[|st.heap|]);
        Done(self, c.st)
  }

  /** Method lookup in a class is unchanged by appending an object. */
  lemma {:induction false} FindMethodExtend(heap: seq<Object>, o: Object, k: nat, name: string)
    requires ClassesLinked(heap) && ClassesLinked(heap + [o]) && k < |heap| && heap[k].ClassObj?
    ensures FindMethod(heap + [o], k, name) == FindMethod(heap, k, name)
    decreases k
  {
    assert (heap + [o])[k] == heap[k];
    if name !in heap[k].methods {
      match heap[k].superclass
      case None =>
      case Some(s) => FindMethodExtend(heap, o, s, name);
    }
  }

  // ----------------------------------------------------------------- statements

  /** `execute`: one unit of fuel per statement. */
  function Exec(ctx: Ctx, s: Stmt, st: IState, fuel: nat): (r: Outcome<Flow>)
    requires Valid(st)
    ensures Sound(st, r) && FlowDone(r)
    decreases fuel, 0, 0
  {
    if fuel == 0 then OutOfFuel
    else match s
      case ExprStmt(e) => ExecExpr(ctx, e, st, fuel - 1)
      case PrintStmt(e) => ExecPrint(ctx, e, st, fuel - 1)
      case VarStmt(name, init) => ExecVar(ctx, name, init, st, fuel - 1)
      case BlockStmt(stmts) => ExecBlockStmt(ctx, stmts, st, fuel - 1)
      case ClassStmt(name, _, methods) => ExecClass(name, methods, st)
      case FunStmt(decl) => ExecFun(decl, st)
      case IfStmt(c, t, e) => ExecIf(ctx, c, t, e, st, fuel - 1)
      case ReturnStmt(_, v) => ExecReturn(ctx, v, st, fuel - 1)
      case WhileStmt(c, body) => ExecWhile(ctx, c, body, st, fuel - 1)
  }

  /** `visit_expression_stmt`. */
  function ExecExpr(ctx: Ctx, e: Expr, st: IState, fuel: nat): (r: Outcome<Flow>)
    requires Valid(st)
    ensures Sound(st, r) && FlowDone(r)
    ensures r.Done? ==> var v := Eval(ctx, e, st, fuel); r.value == Normal && v.Done? && v.st == r.st
    decreases fuel, 6, 0
  {
    var v := Eval(ctx, e, st, fuel);
    if !v.Done? then Fail(v) else Done(Normal, v.st)
  }

  /** `visit_print_stmt`: one line, the value's `stringify`. */
  function ExecPrint(ctx: Ctx, e: Expr, st: IState, fuel: nat): (r: Outcome<Flow>)
    requires Valid(st)
    ensures Sound(st, r) && FlowDone(r)
    ensures r.Done? ==> var v := Eval(ctx, e, st, fuel);
                        v.Done? && r.value == Normal &&
                        r.st.out == v.st.out + [Stringify(ctx.numText, v.st, v.value)]
    decreases fuel, 6, 0
  {
    var v := Eval(ctx, e, st, fuel);
    if !v.Done? then Fail(v)
    else Done(Normal, StPrint(v.st, Stringify(ctx.numText, v.st, v.value)))
  }

  /** `visit_var_stmt`: the initializer's value, or nil, defined in the
      current frame. */
  function ExecVar(ctx: Ctx, name: Token, init: Option<Expr>, st: IState, fuel: nat): (r: Outcome<Flow>)
    requires Valid(st)
    ensures Sound(st, r) && FlowDone(r)
    ensures init.None? ==> r == Done(Normal, StDefine(st, name.lexeme, VNil))
    ensures init.Some? && r.Done? ==>
              var v := Eval(ctx, init.value, st, fuel);
              v.Done? && r.st.frames == Define(v.st.frames, st.env, name.lexeme, v.value)
    decreases fuel, 6, 0
  {
    if init.None? then Done(Normal, StDefine(st, name.lexeme, VNil))
    else
      var v := Eval(ctx, init.value, st, fuel);
      if !v.Done? then Fail(v)
      else Done(Normal, StDefine(v.st, name.lexeme, v.value))
  }

  /** `visit_block_stmt`: the statements in a new frame under the current one. */
  function ExecBlockStmt(ctx: Ctx, stmts: seq<Stmt>, st: IState, fuel: nat): (r: Outcome<Flow>)
    requires Valid(st)
    ensures Sound(st, r) && FlowDone(r)
    ensures r == ExecBlock(ctx, stmts, |st.frames|, StPush(st, map[], st.env), fuel)
    decreases fuel, 6, 0
  {
    ExecBlock(ctx, stmts, |st.frames|, StPush(st, map[], st.env), fuel)
  }

  /** The method table of a class declaration: each method closes over the
      current frame and is an initializer exactly when named `init`. */
  function MethodTable(methods: seq<FunDecl>, env: nat): (m: map<string, LoxFunction>)
    ensures forall n :: n in m ==> m[n].closure == env && (m[n].isInit <==> n == "init") && m[n].decl.name.lexeme == n
    decreases |methods|
  {
    if |methods| == 0 then map[]
    else
      var n := |methods| - 1;
      var d := methods[n];
      MethodTable(methods[..n], env)[d.name.lexeme := LoxFunction(d, env, d.name.lexeme == "init")]
  }

  /** The table holds exactly the declared method names. */
  lemma {:induction false} MethodTableDomain(methods: seq<FunDecl>, env: nat)
    ensures forall n :: n in MethodTable(methods, env) <==> exists i :: 0 <= i < |methods| && methods[i].name.lexeme == n
    decreases |methods|
  {
    if |methods| > 0 {
      var n := |methods| - 1;
      var p0 := methods[..n];
      MethodTableDomain(p0, env);
      var m0 := MethodTable(p0, env);
      var m := MethodTable(methods, env);
      var d := methods[n];
      assert m == m0[d.name.lexeme := LoxFunction(d, env, d.name.lexeme == "init")];
      forall key ensures key in m <==> exists i :: 0 <= i < |methods| && methods[i].name.lexeme == key {
        if key != methods[n].name.lexeme && key in m {
          assert key in m0;
          var i :| 0 <= i < |p0| && p0[i].name.lexeme == key;
          assert methods[i] == p0[i];
        }
        if key != methods[n].name.lexeme && exists i :: 0 <= i < |methods| && methods[i].name.lexeme == key {
          var i :| 0 <= i < |methods| && methods[i].name.lexeme == key;
          assert i < n && p0[i] == methods[i];
        }
      }
    }
  }

  /** A method with no later namesake is the one its name finds: a later
      method of the same name replaces an earlier one. */
  lemma {:induction false} MethodTableValue(methods: seq<FunDecl>, env: nat, i: nat)
    requires i < |methods|
    requires forall j :: i < j < |methods| ==> methods[j].name.lexeme != methods[i].name.lexeme
    ensures methods[i].name.lexeme in MethodTable(methods, env)
    ensures MethodTable(methods, env)[methods[i].name.lexeme].decl == methods[i]
    decreases |methods|
  {
    var n := |methods| - 1;
    var p0 := methods[..n];
    if i < n {
      assert methods[n].name.lexeme != methods[i].name.lexeme;
      assert p0[i] == methods[i];
      forall j | i < j < |p0| ensures p0[j].name.lexeme != p0[i].name.lexeme {
        assert p0[j] == methods[j];
      }
      MethodTableValue(p0, env, i);
    }
  }

  /** `visit_class_stmt`: the name is defined as nil, the class is built
      with no superclass and assigned to the name. */
  function ExecClass(name: Token, methods: seq<FunDecl>, st: IState): (r: Outcome<Flow>)
    requires Valid(st)
    ensures Sound(st, r) && FlowDone(r)
    ensures r.Done? && r.value == Normal
    ensures |r.st.heap| == |st.heap| + 1 &&
            r.st.heap[|st.heap|] == ClassObj(name.lexeme, None, MethodTable(methods, st.env))
    ensures name.lexeme in r.st.frames[st.env].values && r.st.frames[st.env].values[name.lexeme] == VObj(|st.heap|)
    ensures r.st.out == st.out
  {
    var s1 := StDefine(st, name.lexeme, VNil);
    var ms := MethodTable(methods, st.env);
    var klass := ClassObj(name.lexeme, None, ms);
    assert ClassesLinked(s1.heap + [klass]) by {
      forall i | 0 <= i < |s1.heap + [klass]| && (s1.heap + [klass])[i].ClassObj? && (s1.heap + [klass])[i].superclass.Some?
        ensures (s1.heap + [klass])[i].superclass.value < i && (s1.heap + [klass])[(s1.heap + [klass])[i].superclass.value].ClassObj?
      {
        assert (s1.heap + [klass])[i] == s1.heap[i];
      }
    }
    var s2 := StAlloc(s1, klass);
    var s3 := StDefine(s2, name.lexeme, VObj(|st.heap|));
    assert Assign(s2.frames, s2.env, name, VObj(|st.heap|)) == Ok(s3.frames);
    Done(Normal, s3)
  }

  /** `visit_function_stmt`: a function closing over the current frame,
      defined under its name. */
  function ExecFun(decl: FunDecl, st: IState): (r: Outcome<Flow>)
    requires Valid(st)
    ensures Sound(st, r) && FlowDone(r)
    ensures r.Done? && r.value == Normal && r.st.out == st.out
    ensures |r.st.heap| == |st.heap| + 1 && r.st.heap[|st.heap|] == FunctionObj(LoxFunction(decl, st.env, false))
    ensures r.st.frames == Define(st.frames, st.env, decl.name.lexeme, VObj(|st.heap|))
  {
    var fo := FunctionObj(LoxFunction(decl, st.env, false));
    assert ClassesLinked(st.heap + [fo]) by {
      forall i | 0 <= i < |st.heap + [fo]| && (st.heap + [fo])[i].ClassObj? && (st.heap + [fo])[i].superclass.Some?
        ensures (st.heap + [fo])[i].superclass.value < i && (st.heap + [fo])[(st.heap + [fo])[i].superclass.value].ClassObj?
      {
        assert (st.heap + [fo])[i] == st.heap[i];
      }
    }
    var s1 := StAlloc(st, fo);
    Done(Normal, StDefine(s1, decl.name.lexeme, VObj(|st.heap|)))
  }

  /** `visit_if_stmt`. */
  function ExecIf(ctx: Ctx, cond: Expr, thenBranch: Stmt, elseBranch: Option<Stmt>, st: IState, fuel: nat): (r: Outcome<Flow>)
    requires Valid(st)
    ensures Sound(st, r) && FlowDone(r)
    ensures var c := Eval(ctx, cond, st, fuel);
            c.Done? ==> (Truthy(c.value) ==> r == Exec(ctx, thenBranch, c.st, fuel)) &&
                        (!Truthy(c.value) && elseBranch.Some? ==> r == Exec(ctx, elseBranch.value, c.st, fuel)) &&
                        (!Truthy(c.value) && elseBranch.None? ==> r == Done(Normal, c.st))
    decreases fuel, 6, 0
  {
    var c := Eval(ctx, cond, st, fuel);
    if !c.Done? then Fail(c)
    else if Truthy(c.value) then Exec(ctx, thenBranch, c.st, fuel)
    else if elseBranch.Some? then Exec(ctx, elseBranch.value, c.st, fuel)
    else Done(Normal, c.st)
  }

  /** `visit_return_stmt`: the value, or nil, carried by the Return signal. */
  function ExecReturn(ctx: Ctx, value: Option<Expr>, st: IState, fuel: nat): (r: Outcome<Flow>)
    requires Valid(st)
    ensures Sound(st, r) && FlowDone(r)
    ensures value.None? ==> r == Done(Returning(VNil), st)
    ensures value.Some? && r.Done? ==> r.value.Returning? && Eval(ctx, value.value, st, fuel) == Done(r.value.result, r.st)
    decreases fuel, 6, 0
  {
    if value.None? then Done(Returning(VNil), st)
    else
      var v := Eval(ctx, value.value, st, fuel);
      if !v.Done? then Fail(v) else Done(Returning(v.value), v.st)
  }

  /** `visit_while_stmt`: the body runs while the condition is truthy; a
      Return signal leaves the loop. Each iteration costs a unit of fuel. */
  function ExecWhile(ctx: Ctx, cond: Expr, body: Stmt, st: IState, fuel: nat): (r: Outcome<Flow>)
    requires Valid(st)
    ensures Sound(st, r) && FlowDone(r)
    ensures var c := Eval(ctx, cond, st, fuel);
            c.Done? && !Truthy(c.value) ==> r == Done(Normal, c.st)
    decreases fuel, 1, 0
  {
    if fuel == 0 then OutOfFuel
    else
      var c := Eval(ctx, cond, st, fuel);
      if !c.Done? then Fail(c)
      else if !Truthy(c.value) then Done(Normal, c.st)
      else
        var b := Exec(ctx, body, c.st, fuel);
        if !b.Done? then Fail(b)
        else if b.value.Returning? then b
        else ExecWhile(ctx, cond, body, b.st, fuel - 1)
  }

  /** The statements in order, stopping at the first Return signal or error. */
  function ExecSeq(ctx: Ctx, stmts: seq<Stmt>, st: IState, fuel: nat): (r: Outcome<Flow>)
    requires Valid(st)
    ensures Sound(st, r) && FlowDone(r)
    ensures |stmts| == 0 ==> r == Done(Normal, st)
    decreases fuel, 1, |stmts|
  {
    if |stmts| == 0 then Done(Normal, st)
    else
      var first := Exec(ctx, stmts[0], st, fuel);
      if !first.Done? then Fail(first)
      else if first.value.Returning? then first
      else ExecSeq(ctx, stmts[1..], first.st, fuel)
  }

  /** Running `a + b` is running `a` and then, if it completed normally,
      `b` from where `a` left off; a Return signal or an error in `a` skips
      `b` entirely. */
  lemma {:induction false} ExecSeqAppend(ctx: Ctx, a: seq<Stmt>, b: seq<Stmt>, st: IState, fuel: nat)
    requires Valid(st)
    ensures var ra := ExecSeq(ctx, a, st, fuel);
            ExecSeq(ctx, a + b, st, fuel) ==
              (if ra.Done? && ra.value.Normal? then ExecSeq(ctx, b, ra.st, fuel) else ra)
    decreases |a|
  {
    if |a| == 0 {
      assert a + b == b;
    } else {
      assert (a + b)[0] == a[0];
      assert (a + b)[1..] == a[1..] + b;
      var first := Exec(ctx, a[0], st, fuel);
      if first.Done? && first.value.Normal? {
        ExecSeqAppend(ctx, a[1..], b, first.st, fuel);
      }
    }
  }

  /** `execute_block`: the statements run in frame `env`, and the previous
      frame is current again afterwards however the block ends. */
  function ExecBlock(ctx: Ctx, stmts: seq<Stmt>, env: nat, st: IState, fuel: nat): (r: Outcome<Flow>)
    requires Valid(st) && env < |st.frames|
    ensures Sound(st, r) && FlowDone(r)
    ensures var b := ExecSeq(ctx, stmts, st.(env := env), fuel);
            (b.Done? ==> r == Done(b.value, b.st.(env := st.env))) &&
            (b.Raised? ==> r == Raised(b.error, b.st.(env := st.env)))
    decreases fuel, 2, 0
  {
    var b := ExecSeq(ctx, stmts, st.(env := env), fuel);
    if b.Done? then Done(b.value, b.st.(env := st.env))
    else if b.Raised? then Raised(b.error, b.st.(env := st.env))
    else Fail(b)
  }
}
