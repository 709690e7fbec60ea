/** The pieces of ch12/interpreter.rb that do not recurse into the tree:
    the interpreter's state and its primitive updates, the binary operator
    table, `stringify`, and the depth-directed variable lookup. */
module RloxRuntime {
  import opened Util
  import opened RloxToken
  import opened RloxAst
  import opened RloxValue
  import opened RloxEnvironment
  import opened RloxObjects

  /** The interpreter's fields: the heap of objects, the frame arena (frame 0
      is `@globals`), the current `@environment`, and the lines printed so far. */
  datatype IState = IState(heap: seq<Object>, frames: seq<Frame>, env: nat, out: seq<string>)

  /** `Interpreter.new`: empty globals, nothing printed. */
  const Initial := IState([], [Frame(map[], None)], 0, [])

  predicate Valid(st: IState) {
    StoreOk(st.heap, st.frames) && st.env < |st.frames|
  }

  /** An object keeps its identity and kind: functions and classes never
      change, an instance stays an instance of the same class. */
  predicate Persists(o: Object, later: Object) {
    if o.InstanceObj? then later.InstanceObj? && later.klass == o.klass else later == o
  }

  /** What any step of the interpreter keeps: heap and arena only grow,
      enclosing links never change, objects persist, output is only appended. */
  predicate Grows(a: IState, b: IState) {
    |a.heap| <= |b.heap| && |a.frames| <= |b.frames| && a.out <= b.out &&
    (forall i :: 0 <= i < |a.frames| ==> b.frames[i].enclosing == a.frames[i].enclosing) &&
    (forall i :: 0 <= i < |a.heap| ==> Persists(a.heap[i], b.heap[i]))
  }

  lemma InitialValid()
    ensures Valid(Initial) && Initial.frames[0].values == map[] && Initial.out == []
  {
    assert WellFormed(Initial.frames);
  }

  /** `@environment.define(name, value)`. */
  function StDefine(st: IState, name: string, v: Value): (r: IState)
    requires Valid(st) && ValueOk(v, |st.heap|)
    ensures Valid(r) && Grows(st, r) && r.env == st.env && r.heap == st.heap && r.out == st.out
    ensures r.frames == Define(st.frames, st.env, name, v)
  {
    st.(frames := Define(st.frames, st.env, name, v))
  }

  /** `Environment.new(enclosing)` already holding `values`; the new frame's
      index is the old arena size. */
  function StPush(st: IState, values: map<string, Value>, enclosing: nat): (r: IState)
    requires Valid(st) && enclosing < |st.frames|
    requires forall n :: n in values ==> ValueOk(values[n], |st.heap|)
    ensures Valid(r) && Grows(st, r) && r.env == st.env && r.heap == st.heap && r.out == st.out
    ensures r.frames == st.frames + [Frame(values, Some(enclosing))]
  {
    PushOk(st.heap, st.frames, values, enclosing);
    st.(frames := st.frames + [Frame(values, Some(enclosing))])
  }

  /** Allocates a sound object; its reference is the old heap size. */
  function StAlloc(st: IState, o: Object): (r: IState)
    requires Valid(st) && ClassesLinked(st.heap + [o]) && ObjectOk(st.heap + [o], |st.heap|, |st.frames|)
    ensures Valid(r) && Grows(st, r) && r.env == st.env && r.frames == st.frames && r.out == st.out
    ensures r.heap == st.heap + [o]
  {
    AllocOk(st.heap, st.frames, o);
    st.(heap := st.heap + [o])
  }

  /** `LoxInstance#set` on the instance at `ref`. */
  function StSetField(st: IState, ref: nat, name: Token, v: Value): (r: IState)
    requires Valid(st) && ref < |st.heap| && st.heap[ref].InstanceObj? && ValueOk(v, |st.heap|)
    ensures Valid(r) && Grows(st, r) && r.env == st.env && r.frames == st.frames && r.out == st.out
    ensures r.heap == InstanceSet(st.heap, ref, name, v)
  {
    SetOk(st.heap, st.frames, ref, name, v);
    st.(heap := InstanceSet(st.heap, ref, name, v))
  }

  /** `puts`: one more line of output. */
  function StPrint(st: IState, line: string): (r: IState)
    requires Valid(st)
    ensures Valid(r) && Grows(st, r) && r.env == st.env && r.out == st.out + [line]
  {
    st.(out := st.out + [line])
  }

  /** The outcome of one binary operator. */
  datatype BinResult = BOk(value: Value) | BErr(error: RuntimeError) | BNonFinite

  predicate IsNumericOp(k: TokenType) {
    k in {Greater, GreaterEqual, Less, LessEqual, Minus, Slash, Star}
  }

  predicate IsComparison(k: TokenType) {
    k in {Greater, GreaterEqual, Less, LessEqual}
  }

  /** The `case` of `visit_binary_expr` once both operands are evaluated.
      Reals cannot hold an IEEE infinity or NaN, so a division by zero is
      the distinct outcome BNonFinite. */
  function BinaryOp(op: Token, a: Value, b: Value): (r: BinResult)
    ensures IsNumericOp(op.kind) && !(a.VNum? && b.VNum?) ==> r == BErr(RuntimeError(op, "Operands must be numbers"))
    ensures IsComparison(op.kind) ==> (r.BOk? <==> a.VNum? && b.VNum?) && (r.BOk? ==> r.value.VBool?)
    ensures IsNumericOp(op.kind) && !IsComparison(op.kind) && r.BOk? ==> a.VNum? && b.VNum? && r.value.VNum?
    ensures r.BNonFinite? <==> op.kind == Slash && a.VNum? && b.VNum? && b.n == 0.0
    ensures a.VNum? && b.VNum? ==>
              (op.kind == Greater ==> r == BOk(VBool(a.n > b.n))) &&
              (op.kind == GreaterEqual ==> r == BOk(VBool(a.n >= b.n))) &&
              (op.kind == Less ==> r == BOk(VBool(a.n < b.n))) &&
              (op.kind == LessEqual ==> r == BOk(VBool(a.n <= b.n))) &&
              (op.kind == Minus ==> r == BOk(VNum(a.n - b.n))) &&
              (op.kind == Star ==> r == BOk(VNum(a.n * b.n))) &&
              (op.kind == Slash && b.n != 0.0 ==> r == BOk(VNum(a.n / b.n))) &&
              (op.kind == Plus ==> r == BOk(VNum(a.n + b.n)))
    ensures op.kind == Plus ==> (r.BOk? <==> (a.VNum? && b.VNum?) || (a.VStr? && b.VStr?))
    ensures op.kind == Plus && a.VStr? && b.VStr? ==> r == BOk(VStr(a.s + b.s))
    ensures op.kind == Plus && !r.BOk? ==> r == BErr(RuntimeError(op, "Operands must be two numbers or two strings."))
    ensures op.kind == EqualEqual ==> r == BOk(VBool(a == b))
    ensures op.kind == BangEqual ==> r == BOk(VBool(a != b))
    ensures r.BOk? ==> !r.value.VObj?
  {
    var k := op.kind;
    if IsNumericOp(k) && !(a.VNum? && b.VNum?) then BErr(RuntimeError(op, "Operands must be numbers"))
    else if k == Greater then BOk(VBool(a.n > b.n))
    else if k == GreaterEqual then BOk(VBool(a.n >= b.n))
    else if k == Less then BOk(VBool(a.n < b.n))
    else if k == LessEqual then BOk(VBool(a.n <= b.n))
    else if k == Minus then BOk(VNum(a.n - b.n))
    else if k == Slash then (if b.n == 0.0 then BNonFinite else BOk(VNum(a.n / b.n)))
    else if k == Star then BOk(VNum(a.n * b.n))
    else if k == Plus then
      (if a.VNum? && b.VNum? then BOk(VNum(a.n + b.n))
       else if a.VStr? && b.VStr? then BOk(VStr(a.s + b.s))
       else BErr(RuntimeError(op, "Operands must be two numbers or two strings.")))
    else if k == BangEqual then BOk(VBool(!IsEqual(a, b)))
    else if k == EqualEqual then BOk(VBool(IsEqual(a, b)))
    else BOk(VNil)
  }

  /** The comparisons agree with each other: `a > b` is `b < a`, and `>=`
      and `<=` are the negations of `<` and `>`; subtraction undoes
      addition. */
  lemma ComparisonsAgree(op: Token, x: real, y: real)
    ensures BinaryOp(op.(kind := Greater), VNum(x), VNum(y)) == BinaryOp(op.(kind := Less), VNum(y), VNum(x))
    ensures BinaryOp(op.(kind := GreaterEqual), VNum(x), VNum(y)).value.b == !BinaryOp(op.(kind := Less), VNum(x), VNum(y)).value.b
    ensures BinaryOp(op.(kind := LessEqual), VNum(x), VNum(y)).value.b == !BinaryOp(op.(kind := Greater), VNum(x), VNum(y)).value.b
    ensures BinaryOp(op.(kind := Minus), BinaryOp(op.(kind := Plus), VNum(x), VNum(y)).value, VNum(y)) == BOk(VNum(x))
  {
  }

  /** The trailing-zero cleanup of `stringify`: one trailing ".0" removed. */
  function StripDotZero(s: string): (r: string)
    ensures |s| >= 2 && s[|s| - 2..] == ".0" ==> r + ".0" == s
    ensures !(|s| >= 2 && s[|s| - 2..] == ".0") ==> r == s
  {
    if |s| >= 2 && s[|s| - 2..] == ".0" then s[..|s| - 2] else s
  }

  lemma StripDotZeroAppend(t: string)
    ensures StripDotZero(t + ".0") == t
  {
    assert (t + ".0")[|t + ".0"| - 2..] == ".0";
    assert (t + ".0")[..|t|] == t;
  }

  /** `stringify`: "nil", "true"/"false", a number's host text without a
      trailing ".0", a string as itself, an object's `to_s`. The host's
      float-to-text conversion is the parameter `numText`. */
  function Stringify(numText: Render<real>, st: IState, v: Value): (s: string)
    requires Valid(st) && ValueOk(v, |st.heap|)
    ensures v.VNil? ==> s == "nil"
    ensures v.VBool? ==> s == (if v.b then "true" else "false")
    ensures v.VNum? ==> s == StripDotZero(numText(v.n))
    ensures v.VStr? ==> s == v.s
    ensures v.VObj? && st.heap[v.ref].FunctionObj? ==> s == "<fn " + st.heap[v.ref].fun.decl.name.lexeme + ">"
    ensures v.VObj? && st.heap[v.ref].ClassObj? ==> s == st.heap[v.ref].name
    ensures v.VObj? && st.heap[v.ref].InstanceObj? ==>
              st.heap[v.ref].klass < |st.heap| && st.heap[st.heap[v.ref].klass].ClassObj? &&
              s == st.heap[st.heap[v.ref].klass].name + " instance"
  {
    match v
    case VNil => "nil"
    case VBool(b) => if b then "true" else "false"
    case VNum(n) => StripDotZero(numText(n))
    case VStr(t) => t
    case VObj(ref) =>
      assert ObjectOk(st.heap, ref, |st.frames|);
      ObjectText(st.heap, ref)
  }

  /** A read through the frame arena yields a value of the heap. */
  lemma GetAtOk(st: IState, d: nat, name: string)
    requires Valid(st)
    ensures GetAt(st.frames, st.env, d, name).Some? ==> ValueOk(GetAt(st.frames, st.env, d, name).value, |st.heap|)
  {
    match Ancestor(st.frames, st.env, d)
    case None =>
    case Some(a) =>
      if name in st.frames[a].values {
        assert ValueOk(st.frames[a].values[name], |st.heap|);
      }
  }

  /** A read of the globals by name yields a value of the heap. */
  lemma GlobalGetOk(st: IState, name: Token)
    requires Valid(st)
    ensures Get(st.frames, 0, name).Ok? ==> ValueOk(Get(st.frames, 0, name).value, |st.heap|)
  {
    GetIsNearest(st.frames, 0, name);
    var d := NearestDepth(st.frames, 0, name.lexeme);
    if d.Some? { GetAtOk(st.(env := 0), d.value, name.lexeme); }
  }

  /** The result of a variable read: a value, a runtime error, or a Ruby
      exception from walking past the end of the chain. */
  datatype Lookup = Found(value: Value) | NotFound(error: RuntimeError) | BrokenChain

  /** `lookup_variable`: a resolved node reads `get_at(depth)` from the
      current frame; an unresolved one reads the globals by name. */
  function LookUp(locals: map<nat, nat>, st: IState, id: nat, name: Token): (r: Lookup)
    requires Valid(st)
    ensures id in locals ==>
              var g := GetAt(st.frames, st.env, locals[id], name.lexeme);
              (r.BrokenChain? <==> g.None?) && (g.Some? ==> r == Found(g.value))
    ensures id !in locals ==>
              match Get(st.frames, 0, name)
              case Ok(v) => r == Found(v)
              case Err(e) => r == NotFound(e)
    ensures r.Found? ==> ValueOk(r.value, |st.heap|)
  {
    if id in locals then
      GetAtOk(st, locals[id], name.lexeme);
      match GetAt(st.frames, st.env, locals[id], name.lexeme)
      case None => BrokenChain
      case Some(v) => Found(v)
    else
      GlobalGetOk(st, name);
      match Get(st.frames, 0, name)
      case Ok(v) => Found(v)
      case Err(e) => NotFound(e)
  }

  /** When the resolver's depth for a node is the distance to the nearest
      frame binding the name, the resolved read agrees with the dynamic
      chain walk of `get` from the current frame. */
  lemma ResolvedLookupAgrees(locals: map<nat, nat>, st: IState, id: nat, name: Token)
    requires Valid(st) && id in locals
    requires NearestDepth(st.frames, st.env, name.lexeme) == Some(locals[id])
    ensures Get(st.frames, st.env, name).Ok?
    ensures LookUp(locals, st, id, name) == Found(Get(st.frames, st.env, name).value)
  {
    GetIsNearest(st.frames, st.env, name);
  }

  /** `assign_at` from the current frame, or `@globals.assign`. */
  datatype Stored = Stored(st: IState) | StoreFailed(error: RuntimeError) | StoreBroken

  function StAssign(locals: map<nat, nat>, st: IState, id: nat, name: Token, v: Value): (r: Stored)
    requires Valid(st) && ValueOk(v, |st.heap|)
    ensures id in locals ==>
              var a := AssignAt(st.frames, st.env, locals[id], name.lexeme, v);
              (r.StoreBroken? <==> a.None?) && (a.Some? ==> r == Stored(st.(frames := a.value)))
    ensures id !in locals ==>
              match Assign(st.frames, 0, name, v)
              case Ok(fs) => r == Stored(st.(frames := fs))
              case Err(e) => r == StoreFailed(e)
    ensures r.Stored? ==> Valid(r.st) && Grows(st, r.st) && r.st.env == st.env && r.st.heap == st.heap && r.st.out == st.out
  {
    if id in locals then
      match Ancestor(st.frames, st.env, locals[id])
      case None => StoreBroken
      case Some(a) =>
        var r := StDefine(st.(env := a), name.lexeme, v);
        Stored(r.(env := st.env))
    else
      AssignIsNearest(st.frames, 0, name, v);
      match NearestDepth(st.frames, 0, name.lexeme)
      case None => StoreFailed(Undefined(name))
      case Some(d) =>
        var a := Ancestor(st.frames, 0, d).value;
        var r := StDefine(st.(env := a), name.lexeme, v);
        Stored(r.(env := st.env))
  }
}
