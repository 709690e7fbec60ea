/** The object model of the tree-walker: `LoxFunction` (ch13/lox_function.rb),
    `LoxClass` (ch13/lox_class.rb) and `LoxInstance` (ch12/lox_instance.rb),
    over a heap `seq<Object>` and the frame arena of RloxEnvironment.

    A store is sound when every reference in it points inside the heap,
    every closure inside the arena, every instance at a class, and every
    superclass at an older class (so method lookup terminates). */
module RloxObjects {
  import opened Util
  import opened RloxToken
  import opened RloxAst
  import opened RloxValue
  import opened RloxEnvironment

  predicate ValueOk(v: Value, heapSize: nat) {
    v.VObj? ==> v.ref < heapSize
  }

  /** Superclass links point at older classes. */
  predicate ClassesLinked(heap: seq<Object>) {
    forall i :: 0 <= i < |heap| && heap[i].ClassObj? && heap[i].superclass.Some? ==>
      heap[i].superclass.value < i && heap[heap[i].superclass.value].ClassObj?
  }

  predicate ObjectOk(heap: seq<Object>, i: nat, frameCount: nat)
    requires i < |heap|
  {
    match heap[i]
    case FunctionObj(f) => f.closure < frameCount
    case ClassObj(_, _, ms) => forall m :: m in ms ==> ms[m].closure < frameCount
    case InstanceObj(k, fields) =>
      k < |heap| && heap[k].ClassObj? && forall n :: n in fields ==> ValueOk(fields[n], |heap|)
  }

  predicate HeapOk(heap: seq<Object>, frameCount: nat) {
    ClassesLinked(heap) && forall i :: 0 <= i < |heap| ==> ObjectOk(heap, i, frameCount)
  }

  predicate FramesOk(frames: seq<Frame>, heapSize: nat) {
    WellFormed(frames) &&
    forall i, n :: 0 <= i < |frames| && n in frames[i].values ==> ValueOk(frames[i].values[n], heapSize)
  }

  predicate StoreOk(heap: seq<Object>, frames: seq<Frame>) {
    HeapOk(heap, |frames|) && FramesOk(frames, |heap|)
  }

  /** The classes from `k` up its superclass chain, `k` first. */
  function SuperChain(heap: seq<Object>, k: nat): (c: seq<nat>)
    requires ClassesLinked(heap) && k < |heap| && heap[k].ClassObj?
    ensures |c| > 0 && c[0] == k
    ensures forall j :: 0 <= j < |c| ==> c[j] < |heap| && heap[c[j]].ClassObj?
    ensures forall j :: 0 <= j < |c| - 1 ==> heap[c[j]].superclass == Some(c[j + 1])
    ensures heap[c[|c| - 1]].superclass.None?
    decreases k
  {
    match heap[k].superclass
    case None => [k]
    case Some(s) => [k] + SuperChain(heap, s)
  }

  /** `find_method`: the class's own table, then its superclass's, and nil
      when the chain runs out. */
  function FindMethod(heap: seq<Object>, k: nat, name: string): (r: Option<LoxFunction>)
    requires ClassesLinked(heap) && k < |heap| && heap[k].ClassObj?
    ensures name in heap[k].methods ==> r == Some(heap[k].methods[name])
    ensures name !in heap[k].methods && heap[k].superclass.None? ==> r.None?
    decreases k
  {
    if name in heap[k].methods then Some(heap[k].methods[name])
    else match heap[k].superclass
      case None => None
      case Some(s) => FindMethod(heap, s, name)
  }

  /** Class `k` has its own method called `name`. */
  predicate Defines(heap: seq<Object>, k: nat, name: string) {
    k < |heap| && heap[k].ClassObj? && name in heap[k].methods
  }

  predicate NoneDefines(heap: seq<Object>, c: seq<nat>, name: string) {
    forall j :: 0 <= j < |c| ==> !Defines(heap, c[j], name)
  }

  /** `c[j]` is the first class of `c` that defines `name`. */
  predicate FirstDefines(heap: seq<Object>, c: seq<nat>, j: nat, name: string) {
    j < |c| && Defines(heap, c[j], name) && forall i :: 0 <= i < j ==> !Defines(heap, c[i], name)
  }

  /** The method found is the one of the first class on the superclass chain
      that defines the name, and there is none exactly when no class does. */
  lemma {:induction false} FindMethodIsFirst(heap: seq<Object>, k: nat, name: string)
    requires ClassesLinked(heap) && k < |heap| && heap[k].ClassObj?
    ensures FindMethod(heap, k, name).None? <==> NoneDefines(heap, SuperChain(heap, k), name)
    ensures FindMethod(heap, k, name).Some? ==>
              exists j: nat :: FirstDefines(heap, SuperChain(heap, k), j, name) &&
                          FindMethod(heap, k, name).value == heap[SuperChain(heap, k)[j]].methods[name]
    decreases k
  {
    var c := SuperChain(heap, k);
    var r := FindMethod(heap, k, name);
    if name in heap[k].methods {
      assert FirstDefines(heap, c, 0, name) && r.value == heap[c[0]].methods[name];
    } else {
      match heap[k].superclass
      case None =>
        assert c == [k];
      case Some(s) =>
        FindMethodIsFirst(heap, s, name);
        var c2 := SuperChain(heap, s);
        assert c == [k] + c2;
        assert r == FindMethod(heap, s, name);
        if r.Some? {
          var j: nat :| FirstDefines(heap, c2, j, name) && r.value == heap[c2[j]].methods[name];
          assert c[j + 1] == c2[j];
          assert forall i :: 0 <= i < j + 1 ==> !Defines(heap, c[i], name) by {
            forall i | 0 <= i < j + 1 ensures !Defines(heap, c[i], name) {
              if i > 0 { assert c[i] == c2[i - 1]; }
            }
          }
          assert FirstDefines(heap, c, j + 1, name);
        } else {
          assert forall j :: 0 <= j < |c| ==> !Defines(heap, c[j], name) by {
            forall j | 0 <= j < |c| ensures !Defines(heap, c[j], name) {
              if j > 0 { assert c[j] == c2[j - 1]; }
            }
          }
        }
    }
  }

  /** A method found in a sound heap closes over a frame of the arena. */
  lemma {:induction false} FindMethodOk(heap: seq<Object>, frameCount: nat, k: nat, name: string)
    requires HeapOk(heap, frameCount) && k < |heap| && heap[k].ClassObj?
    ensures FindMethod(heap, k, name).Some? ==> FindMethod(heap, k, name).value.closure < frameCount
    decreases k
  {
    assert ObjectOk(heap, k, frameCount);
    if name !in heap[k].methods {
      match heap[k].superclass
      case None =>
      case Some(s) => FindMethodOk(heap, frameCount, s, name);
    }
  }

  /** `LoxFunction#arity`: the number of declared parameters. */
  function FunctionArity(f: LoxFunction): (n: nat)
    ensures n == |f.decl.params|
  {
    |f.decl.params|
  }

  /** `LoxClass#arity`: the arity of `init`, own or inherited, else 0. */
  function ClassArity(heap: seq<Object>, k: nat): (n: nat)
    requires ClassesLinked(heap) && k < |heap| && heap[k].ClassObj?
    ensures var c := SuperChain(heap, k);
            NoneDefines(heap, c, "init") ==> n == 0
    ensures FindMethod(heap, k, "init").Some? ==> n == |FindMethod(heap, k, "init").value.decl.params|
  {
    FindMethodIsFirst(heap, k, "init");
    match FindMethod(heap, k, "init")
    case Some(f) => FunctionArity(f)
    case None => 0
  }

  /** `LoxFunction#bind(instance)`: a new frame holding only `this`, whose
      parent is the old closure, and a function over it with the same
      declaration and initializer flag. */
  function Bind(frames: seq<Frame>, f: LoxFunction, instance: Value): (r: (seq<Frame>, LoxFunction))
    requires WellFormed(frames) && f.closure < |frames|
    ensures WellFormed(r.0) && |r.0| == |frames| + 1 && r.0[..|frames|] == frames
    ensures r.0[|frames|] == Frame(map["this" := instance], Some(f.closure))
    ensures r.1.decl == f.decl && r.1.isInit == f.isInit && r.1.closure == |frames|
  {
    var frames2 := Define(NewFrame(frames, Some(f.closure)), |frames|, "this", instance);
    (frames2, LoxFunction(f.decl, |frames|, f.isInit))
  }

  /** The result of an operation that may allocate: the new heap and arena,
      and the value produced. */
  datatype Alloc = Alloc(heap: seq<Object>, frames: seq<Frame>, value: Value)

  function UndefinedProperty(name: Token): RuntimeError {
    RuntimeError(name, "Undefined property '" + name.lexeme + "'")
  }

  /** `LoxInstance#get`: an own field shadows any method; otherwise the
      class's method bound to this instance, allocated afresh; otherwise
      "Undefined property". */
  function InstanceGet(heap: seq<Object>, frames: seq<Frame>, ref: nat, name: Token): (r: Result<Alloc>)
    requires StoreOk(heap, frames) && ref < |heap| && heap[ref].InstanceObj?
    requires heap[ref].klass < |heap| && heap[heap[ref].klass].ClassObj?
    ensures name.lexeme in heap[ref].fields ==>
              r == Ok(Alloc(heap, frames, heap[ref].fields[name.lexeme]))
    ensures name.lexeme !in heap[ref].fields && FindMethod(heap, heap[ref].klass, name.lexeme).Some? ==>
              var m := FindMethod(heap, heap[ref].klass, name.lexeme).value;
              r.Ok? && r.value.value == VObj(|heap|) &&
              |r.value.heap| == |heap| + 1 && r.value.heap[..|heap|] == heap && r.value.heap[|heap|].FunctionObj? &&
              r.value.heap[|heap|].fun == LoxFunction(m.decl, |frames|, m.isInit) &&
              r.value.frames == frames + [Frame(map["this" := VObj(ref)], Some(m.closure))]
    ensures name.lexeme !in heap[ref].fields && FindMethod(heap, heap[ref].klass, name.lexeme).None? ==>
              r == Err(UndefinedProperty(name))
    ensures r.Ok? ==> StoreOk(r.value.heap, r.value.frames) && ValueOk(r.value.value, |r.value.heap|)
    ensures r.Ok? ==> |heap| <= |r.value.heap| && r.value.heap[..|heap|] == heap
    ensures r.Ok? ==> |frames| <= |r.value.frames| && r.value.frames[..|frames|] == frames
  {
    var inst := heap[ref];
    assert ObjectOk(heap, ref, |frames|);
    if name.lexeme in inst.fields then Ok(Alloc(heap, frames, inst.fields[name.lexeme]))
    else match FindMethod(heap, inst.klass, name.lexeme)
      case None => Err(UndefinedProperty(name))
      case Some(m) =>
        FindMethodOk(heap, |frames|, inst.klass, name.lexeme);
        var (frames2, f) := Bind(frames, m, VObj(ref));
        var heap2 := heap + [FunctionObj(f)];
        assert frames2 == frames + [Frame(map["this" := VObj(ref)], Some(m.closure))];
        BindOk(heap, frames, m, ref);
        Ok(Alloc(heap2, frames2, VObj(|heap|)))
  }

  /** Binding a method of a sound store, and allocating the bound function,
      leaves the store sound. */
  lemma BindOk(heap: seq<Object>, frames: seq<Frame>, m: LoxFunction, ref: nat)
    requires StoreOk(heap, frames) && m.closure < |frames| && ref < |heap|
    ensures var (bound, f) := Bind(frames, m, VObj(ref));
            StoreOk(heap + [FunctionObj(f)], bound)
  {
    var (bound, f) := Bind(frames, m, VObj(ref));
    var grown := heap + [FunctionObj(f)];
    assert ObjectOk(grown, |heap|, |bound|);
    forall i | 0 <= i < |heap| ensures ObjectOk(grown, i, |bound|) {
      assert ObjectOk(heap, i, |frames|);
      assert grown[i] == heap[i];
    }
    forall i, n | 0 <= i < |bound| && n in bound[i].values ensures ValueOk(bound[i].values[n], |grown|) {
      if i < |frames| { assert bound[i] == frames[i]; }
    }
  }

  /** `LoxInstance#set`: writes the instance's own field, creating it if
      absent; nothing else in the heap changes. */
  function InstanceSet(heap: seq<Object>, ref: nat, name: Token, v: Value): (r: seq<Object>)
    requires ref < |heap| && heap[ref].InstanceObj?
    ensures |r| == |heap| && r[ref].InstanceObj? && r[ref].klass == heap[ref].klass
    ensures r[ref].fields == heap[ref].fields[name.lexeme := v]
    ensures forall i :: 0 <= i < |heap| && i != ref ==> r[i] == heap[i]
  {
    heap[ref := InstanceObj(heap[ref].klass, heap[ref].fields[name.lexeme := v])]
  }

  /** A `get` after a `set` of the same name returns the value set, without
      allocating. */
  lemma GetAfterSet(heap: seq<Object>, frames: seq<Frame>, ref: nat, name: Token, v: Value)
    requires StoreOk(heap, frames) && ref < |heap| && heap[ref].InstanceObj? && ValueOk(v, |heap|)
    requires heap[ref].klass < |heap| && heap[heap[ref].klass].ClassObj?
    ensures StoreOk(InstanceSet(heap, ref, name, v), frames)
    ensures InstanceGet(InstanceSet(heap, ref, name, v), frames, ref, name) ==
            Ok(Alloc(InstanceSet(heap, ref, name, v), frames, v))
  {
    SetOk(heap, frames, ref, name, v);
  }

  /** Setting a field to a value of the heap leaves the store sound. */
  lemma SetOk(heap: seq<Object>, frames: seq<Frame>, ref: nat, name: Token, v: Value)
    requires StoreOk(heap, frames) && ref < |heap| && heap[ref].InstanceObj? && ValueOk(v, |heap|)
    ensures StoreOk(InstanceSet(heap, ref, name, v), frames)
  {
    var heap2 := InstanceSet(heap, ref, name, v);
    forall i | 0 <= i < |heap| ensures ObjectOk(heap2, i, |frames|) {
      assert ObjectOk(heap, i, |frames|);
      if heap[i].InstanceObj? { assert heap[heap[i].klass] == heap2[heap[i].klass]; }
    }
    assert ClassesLinked(heap2) by {
      forall i | 0 <= i < |heap2| && heap2[i].ClassObj? && heap2[i].superclass.Some?
        ensures heap2[i].superclass.value < i && heap2[heap2[i].superclass.value].ClassObj?
      {
        assert heap2[i] == heap[i];
      }
    }
  }

  /** Soundness survives a larger arena. */
  lemma HeapOkMono(heap: seq<Object>, n: nat, m: nat)
    requires HeapOk(heap, n) && n <= m
    ensures HeapOk(heap, m)
  {
    forall i | 0 <= i < |heap| ensures ObjectOk(heap, i, m) {
      assert ObjectOk(heap, i, n);
    }
  }

  /** Appending a sound object to a sound store keeps it sound. */
  lemma AllocOk(heap: seq<Object>, frames: seq<Frame>, o: Object)
    requires StoreOk(heap, frames)
    requires ClassesLinked(heap + [o]) && ObjectOk(heap + [o], |heap|, |frames|)
    ensures StoreOk(heap + [o], frames)
  {
    var heap2 := heap + [o];
    forall i | 0 <= i < |heap| ensures ObjectOk(heap2, i, |frames|) {
      assert ObjectOk(heap, i, |frames|);
      assert heap2[i] == heap[i];
      if heap[i].InstanceObj? { assert heap2[heap[i].klass] == heap[heap[i].klass]; }
    }
  }

  /** Pushing a frame of heap values, linked to an existing frame, keeps the
      store sound. */
  lemma PushOk(heap: seq<Object>, frames: seq<Frame>, values: map<string, Value>, enclosing: nat)
    requires StoreOk(heap, frames) && enclosing < |frames|
    requires forall n :: n in values ==> ValueOk(values[n], |heap|)
    ensures StoreOk(heap, frames + [Frame(values, Some(enclosing))])
  {
    HeapOkMono(heap, |frames|, |frames| + 1);
    var frames2 := frames + [Frame(values, Some(enclosing))];
    forall i, n | 0 <= i < |frames2| && n in frames2[i].values ensures ValueOk(frames2[i].values[n], |heap|) {
      if i < |frames| { assert frames2[i] == frames[i]; }
    }
  }

  /** The `to_s` of a heap object: "<fn NAME>" for a function, the bare
      name for a class, "NAME instance" for an instance. */
  function ObjectText(heap: seq<Object>, ref: nat): (s: string)
    requires ref < |heap|
    requires heap[ref].InstanceObj? ==> heap[ref].klass < |heap| && heap[heap[ref].klass].ClassObj?
    ensures heap[ref].FunctionObj? ==> s == "<fn " + heap[ref].fun.decl.name.lexeme + ">"
    ensures heap[ref].ClassObj? ==> s == heap[ref].name
    ensures heap[ref].InstanceObj? ==> s == heap[heap[ref].klass].name + " instance"
  {
    match heap[ref]
    case FunctionObj(f) => "<fn " + f.decl.name.lexeme + ">"
    case ClassObj(n, _, _) => n
    case InstanceObj(k, _) => heap[k].name + " instance"
  }
}
