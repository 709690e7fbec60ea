/** The environment chain (ch11/environment.rb) as an arena: frames are
    addressed by index, so closures and blocks can share a frame, and a
    frame's `enclosing` link always points to an older frame. */
module RloxEnvironment {
  import opened Util
  import opened RloxToken
  import opened RloxValue

  datatype Frame = Frame(values: map<string, Value>, enclosing: Option<nat>)

  /** Every enclosing link points to an earlier frame, so chains are finite. */
  predicate WellFormed(frames: seq<Frame>) {
    forall i :: 0 <= i < |frames| && frames[i].enclosing.Some? ==> frames[i].enclosing.value < i
  }

  /** `Environment.new(enclosing)`: a fresh empty frame at the end of the arena. */
  function NewFrame(frames: seq<Frame>, enclosing: Option<nat>): (r: seq<Frame>)
    requires WellFormed(frames)
    requires enclosing.Some? ==> enclosing.value < |frames|
    ensures WellFormed(r) && |r| == |frames| + 1 && r[..|frames|] == frames
    ensures r[|frames|] == Frame(map[], enclosing)
  {
    frames + [Frame(map[], enclosing)]
  }

  /** The frames of the chain starting at `e`, innermost first. */
  function Chain(frames: seq<Frame>, e: nat): (c: seq<nat>)
    requires WellFormed(frames) && e < |frames|
    ensures |c| > 0 && c[0] == e
    ensures forall k :: 0 <= k < |c| ==> c[k] < |frames|
    ensures forall k :: 0 <= k < |c| - 1 ==> frames[c[k]].enclosing == Some(c[k + 1])
    ensures frames[c[|c| - 1]].enclosing.None?
    decreases e
  {
    match frames[e].enclosing
    case None => [e]
    case Some(p) => [e] + Chain(frames, p)
  }

  /** `define`: binds in frame `e` only, overwriting any existing binding. */
  function Define(frames: seq<Frame>, e: nat, name: string, v: Value): (r: seq<Frame>)
    requires WellFormed(frames) && e < |frames|
    ensures WellFormed(r) && |r| == |frames|
    ensures r[e].values == frames[e].values[name := v] && r[e].enclosing == frames[e].enclosing
    ensures forall j :: 0 <= j < |frames| && j != e ==> r[j] == frames[j]
  {
    frames[e := frames[e].(values := frames[e].values[name := v])]
  }

  /** `ancestor(distance)`: follows `distance` enclosing links; None when the
      chain ends first (Ruby would call `enclosing` on nil). */
  function Ancestor(frames: seq<Frame>, e: nat, distance: nat): (r: Option<nat>)
    requires WellFormed(frames) && e < |frames|
    ensures r.Some? ==> r.value <= e
    decreases distance
  {
    if distance == 0 then Some(e)
    else match frames[e].enclosing
      case None => None
      case Some(p) => Ancestor(frames, p, distance - 1)
  }

  /** `ancestor(d)` is the d-th frame of the chain, and exists exactly when
      the chain is longer than d. */
  lemma {:induction false} AncestorIsChain(frames: seq<Frame>, e: nat, distance: nat)
    requires WellFormed(frames) && e < |frames|
    ensures var c := Chain(frames, e);
            Ancestor(frames, e, distance) == if distance < |c| then Some(c[distance]) else None
    decreases distance
  {
    if distance > 0 {
      match frames[e].enclosing
      case None =>
      case Some(p) => AncestorIsChain(frames, p, distance - 1);
    }
  }

  /** The distance to the nearest frame on the chain that binds `name`. */
  function NearestDepth(frames: seq<Frame>, e: nat, name: string): (r: Option<nat>)
    requires WellFormed(frames) && e < |frames|
    ensures var c := Chain(frames, e);
            (r.Some? ==> r.value < |c| && name in frames[c[r.value]].values &&
                         forall k :: 0 <= k < r.value ==> name !in frames[c[k]].values) &&
            (r.None? ==> forall k :: 0 <= k < |c| ==> name !in frames[c[k]].values)
    decreases e
  {
    if name in frames[e].values then Some(0)
    else match frames[e].enclosing
      case None => None
      case Some(p) =>
        match NearestDepth(frames, p, name)
        case None => None
        case Some(d) => Some(d + 1)
  }

  function Undefined(name: Token): RuntimeError {
    RuntimeError(name, "Undefined variable '" + name.lexeme + "'.")
  }

  /** `get`: the nearest binding along the chain, or "Undefined variable". */
  function Get(frames: seq<Frame>, e: nat, name: Token): (r: Result<Value>)
    requires WellFormed(frames) && e < |frames|
    ensures r.Err? ==> r.error == Undefined(name)
    decreases e
  {
    if name.lexeme in frames[e].values then Ok(frames[e].values[name.lexeme])
    else match frames[e].enclosing
      case None => Err(Undefined(name))
      case Some(p) => Get(frames, p, name)
  }

  /** `get_at(distance, name)`: reads the ancestor's own frame only; an
      absent key reads as nil (Ruby's `Hash#[]`). None when the ancestor
      does not exist. */
  function GetAt(frames: seq<Frame>, e: nat, distance: nat, name: string): (r: Option<Value>)
    requires WellFormed(frames) && e < |frames|
    ensures r.Some? <==> Ancestor(frames, e, distance).Some?
    ensures r.Some? ==> var a := Ancestor(frames, e, distance).value;
                        r.value == if name in frames[a].values then frames[a].values[name] else VNil
  {
    match Ancestor(frames, e, distance)
    case None => None
    case Some(a) => Some(if name in frames[a].values then frames[a].values[name] else VNil)
  }

  /** `assign_at(distance, name, value)`: writes the ancestor's own frame,
      creating the entry if absent. None when the ancestor does not exist. */
  function AssignAt(frames: seq<Frame>, e: nat, distance: nat, name: string, v: Value): (r: Option<seq<Frame>>)
    requires WellFormed(frames) && e < |frames|
    ensures r.Some? <==> Ancestor(frames, e, distance).Some?
    ensures r.Some? ==> r.value == Define(frames, Ancestor(frames, e, distance).value, name, v)
  {
    match Ancestor(frames, e, distance)
    case None => None
    case Some(a) => Some(Define(frames, a, name, v))
  }

  /** `assign`: overwrites the nearest existing binding, never creates one,
      and fails with "Undefined variable" when there is none. */
  function Assign(frames: seq<Frame>, e: nat, name: Token, v: Value): (r: Result<seq<Frame>>)
    requires WellFormed(frames) && e < |frames|
    ensures r.Ok? ==> WellFormed(r.value) && |r.value| == |frames|
    ensures r.Err? ==> r.error == Undefined(name)
    decreases e
  {
    if name.lexeme in frames[e].values then Ok(Define(frames, e, name.lexeme, v))
    else match frames[e].enclosing
      case None => Err(Undefined(name))
      case Some(p) => Assign(frames, p, name, v)
  }

  /** `get` is `get_at` at the depth of the nearest binding: the dynamic
      chain walk and the statically resolved lookup agree. */
  lemma {:induction false} GetIsNearest(frames: seq<Frame>, e: nat, name: Token)
    requires WellFormed(frames) && e < |frames|
    ensures var d := NearestDepth(frames, e, name.lexeme);
            (d.None? ==> Get(frames, e, name) == Err(Undefined(name))) &&
            (d.Some? ==> GetAt(frames, e, d.value, name.lexeme).Some? &&
                         Get(frames, e, name) == Ok(GetAt(frames, e, d.value, name.lexeme).value))
    decreases e
  {
    if name.lexeme !in frames[e].values {
      match frames[e].enclosing
      case None =>
      case Some(p) => GetIsNearest(frames, p, name);
    }
  }

  /** `assign` is `define` in the frame of the nearest binding, and fails
      exactly when no frame on the chain binds the name. */
  lemma {:induction false} AssignIsNearest(frames: seq<Frame>, e: nat, name: Token, v: Value)
    requires WellFormed(frames) && e < |frames|
    ensures var d := NearestDepth(frames, e, name.lexeme);
            (d.None? ==> Assign(frames, e, name, v) == Err(Undefined(name))) &&
            (d.Some? ==> AssignAt(frames, e, d.value, name.lexeme, v).Some? &&
                         Assign(frames, e, name, v) == Ok(AssignAt(frames, e, d.value, name.lexeme, v).value))
    decreases e
  {
    if name.lexeme !in frames[e].values {
      match frames[e].enclosing
      case None =>
      case Some(p) => AssignIsNearest(frames, p, name, v);
    }
  }

  /** After a successful `assign`, `get` of the same name from the same frame
      returns the new value. */
  lemma {:induction false} GetAfterAssign(frames: seq<Frame>, e: nat, name: Token, v: Value)
    requires WellFormed(frames) && e < |frames|
    requires Assign(frames, e, name, v).Ok?
    ensures Get(Assign(frames, e, name, v).value, e, name) == Ok(v)
    decreases e
  {
    if name.lexeme !in frames[e].values {
      match frames[e].enclosing
      case None =>
      case Some(p) =>
        GetAfterAssign(frames, p, name, v);
        AssignFrames(frames, p, name, v);
    }
  }

  /** `assign` from `e` changes one frame, on the chain of `e`, and only its
      binding of the name; every other frame and the links stay. */
  lemma {:induction false} AssignFrames(frames: seq<Frame>, e: nat, name: Token, v: Value)
    requires WellFormed(frames) && e < |frames|
    requires Assign(frames, e, name, v).Ok?
    ensures var r := Assign(frames, e, name, v).value;
            exists a :: 0 <= a <= e && name.lexeme in frames[a].values &&
                        r[a].values == frames[a].values[name.lexeme := v] && r[a].enclosing == frames[a].enclosing &&
                        (forall j :: 0 <= j < |frames| && j != a ==> r[j] == frames[j]) &&
                        (a < e ==> name.lexeme !in frames[e].values)
    decreases e
  {
    if name.lexeme in frames[e].values {
      var r := Assign(frames, e, name, v).value;
      assert r[e].values == frames[e].values[name.lexeme := v];
    } else {
      match frames[e].enclosing
      case None =>
      case Some(p) => AssignFrames(frames, p, name, v);
    }
  }
}
