/** Values of the bytecode VM (ch20/src/lox/value.rs): tagged booleans,
    nil, numbers and interned strings. A string value holds only its
    interner symbol, so equality of values is structural and two strings
    are equal exactly when their symbols are. */
module CloxValue {
  import opened Util
  import opened CloxInterner

  datatype Value = Bool(b: bool) | Nil | Number(n: real) | String(symbol: nat)

  /** Rust's `Result<T, String>`. */
  datatype Result<T> = Ok(value: T) | Err(message: string)

  function IsNumber(v: Value): (r: bool)
    ensures r <==> exists n :: v == Number(n)
  {
    v.Number?
  }

  function IsString(v: Value): (r: bool)
    ensures r <==> exists s :: v == String(s)
  {
    v.String?
  }

  /** `as_number`: the number, or the binary-operator error message. */
  function AsNumber(v: Value): (r: Result<real>)
    ensures r.Ok? <==> IsNumber(v)
    ensures r.Ok? ==> v == Number(r.value)
    ensures r.Err? ==> r.message == "Operands must be numbers."
  {
    match v
    case Number(n) => Ok(n)
    case _ => Err("Operands must be numbers.")
  }

  /** `as_string`: the symbol, or an error message. */
  function AsString(v: Value): (r: Result<nat>)
    ensures r.Ok? <==> IsString(v)
    ensures r.Ok? ==> v == String(r.value)
    ensures r.Err? ==> r.message == "Operands must be strings."
  {
    match v
    case String(s) => Ok(s)
    case _ => Err("Operands must be strings.")
  }

  /** `is_falsey`: nil and false are falsey, everything else (0 and the
      empty string too) is truthy. */
  function IsFalsey(v: Value): (r: bool)
    ensures r <==> v == Nil || v == Bool(false)
  {
    match v
    case Nil => true
    case Bool(false) => true
    case _ => false
  }

  /** `Display`: booleans and nil by name, numbers by the host's float
      rendering, and a string by its symbol number, not its text. */
  function Display(numText: Render<real>, v: Value): (r: string)
    ensures v.Bool? ==> r == (if v.b then "true" else "false")
    ensures v.Nil? ==> r == "nil"
    ensures v.String? ==> r == NatToString(v.symbol)
  {
    match v
    case Bool(b) => if b then "true" else "false"
    case Number(n) => numText(n)
    case Nil => "nil"
    case String(s) => NatToString(s)
  }

  /** For strings held by a valid interner, value equality is text
      equality. */
  lemma StringEquality(it: Interner, s: string, t: string)
    requires Valid(it) && s in it.ids && t in it.ids
    ensures String(it.ids[s]) == String(it.ids[t]) <==> s == t
  {
    if it.ids[s] == it.ids[t] {
      assert it.names[it.ids[s]] == s && it.names[it.ids[t]] == t;
    }
  }
}
