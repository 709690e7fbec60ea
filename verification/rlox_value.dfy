/** Runtime values of the tree-walking interpreter and the heap objects they
    may point to (ch13/lox_function.rb, ch13/lox_class.rb,
    ch12/lox_instance.rb).

    Ruby objects with identity (functions, classes, instances) live in a
    heap `seq<Object>`; a value refers to one by index, so equality of two
    such values is reference identity, as Ruby's default `==`. Numbers are
    the host's floats, modelled as reals. */
module RloxValue {
  import opened Util
  import opened RloxToken
  import opened RloxAst

  datatype Value = VNil | VBool(b: bool) | VNum(n: real) | VStr(s: string) | VObj(ref: nat)

  /** A `LoxFunction`: its declaration, the frame it closes over, and whether
      it is a class's `init`. */
  datatype LoxFunction = LoxFunction(decl: FunDecl, closure: nat, isInit: bool)

  datatype Object =
    | FunctionObj(fun: LoxFunction)
    | ClassObj(name: string, superclass: Option<nat>, methods: map<string, LoxFunction>)
    | InstanceObj(klass: nat, fields: map<string, Value>)

  /** A `LoxRuntimeError`: the token it points at and its message. */
  datatype RuntimeError = RuntimeError(token: Token, message: string)

  datatype Result<T> = Ok(value: T) | Err(error: RuntimeError)

  /** The value of a Literal node. */
  function FromLiteral(l: LitValue): (v: Value)
    ensures l.LNil? <==> v.VNil?
    ensures l.LBool? ==> v == VBool(l.b)
    ensures l.LNum? ==> v == VNum(l.n)
    ensures l.LStr? ==> v == VStr(l.s)
  {
    match l
    case LNil => VNil
    case LBool(b) => VBool(b)
    case LNum(n) => VNum(n)
    case LStr(s) => VStr(s)
  }

  /** `truthy?`: nil and false are falsey, everything else (0 and "" too)
      is truthy. */
  function Truthy(v: Value): (b: bool)
    ensures !b <==> v == VNil || v == VBool(false)
  {
    match v
    case VNil => false
    case VBool(b) => b
    case _ => true
  }

  /** `equal?`: nil equals only nil; otherwise Ruby's `==`, which compares
      numbers, strings and booleans by value and objects by identity. */
  function IsEqual(a: Value, b: Value): (r: bool)
    ensures r <==> a == b
    ensures a.VNil? ==> (r <==> b.VNil?)
  {
    if a.VNil? && b.VNil? then true
    else if a.VNil? then false
    else a == b
  }
}
