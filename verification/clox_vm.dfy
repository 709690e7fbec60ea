/** The stack VM (ch20/src/lox/vm.rs): it runs a chunk from its first
    instruction with an empty stack until `Return`, which renders the value
    on top of the stack. Every instruction moves the instruction pointer
    one step forward; there are no jumps, so a run takes at most one step
    per instruction. The stack holds at most 256 values, and a push beyond
    that, a pop from an empty stack, a constant index outside the pool, an
    instruction pointer past the end and a lookup of an unknown symbol are
    panics of the host program. */
module CloxVm {
  import opened Util
  import opened CloxValue
  import CloxInterner
  import CloxChunk
  import CloxScanner
  import CloxCompiler

  type Code = CloxChunk.Chunk<Value>

  /** `STACK_MAX`. */
  const StackMax: nat := 256

  /** The machine between instructions: the chunk, the index of the next
      instruction, the live part of the stack (bottom first) and the
      interner it shares with the compiler. */
  datatype Vm = Vm(chunk: Code, ip: nat, stack: seq<Value>, interner: CloxInterner.Interner)

  /** `InterpretError`. */
  datatype InterpretError = CompileError(message: string) | RuntimeError(message: string)

  /** How a run ends. `Returned` is the `Ok` of `run` with the rendered
      value; `Failed` is an `InterpretError`. A division by zero, whose
      IEEE infinity or NaN has no counterpart among the reals, stops the
      model. The chunk format has opcodes that this chapter's VM has no
      case for. `Diverges` is a compilation that never finishes. Each
      outcome that follows a run carries the interner as the run left it. */
  datatype Outcome =
    | Returned(text: string, interner: CloxInterner.Interner)
    | Failed(error: InterpretError, interner: CloxInterner.Interner)
    | NonFinite
    | Panic
    | Unsupported(op: CloxChunk.OpCode)
    | Diverges

  /** The result of one instruction. */
  datatype Next = Continue(vm: Vm) | Halt(outcome: Outcome)

  // ---------------------------------------------------------------------
  // Stack effects
  // ---------------------------------------------------------------------

  /** The opcodes this VM has a case for. */
  predicate Supported(op: CloxChunk.OpCode) {
    !(op.Pop? || op.Print? || op.DefineGlobal?)
  }

  /** The opcodes that pop two numbers and push their comparison or
      arithmetic result. */
  predicate NumericBinary(op: CloxChunk.OpCode) {
    op.Greater? || op.Less? || op.Subtract? || op.Multiply? || op.Divide?
  }

  /** How many values an instruction pops. */
  function Pops(op: CloxChunk.OpCode): nat {
    match op
    case Equal => 2
    case Greater => 2
    case Less => 2
    case Add => 2
    case Subtract => 2
    case Multiply => 2
    case Divide => 2
    case Not => 1
    case Negate => 1
    case Return => 1
    case _ => 0
  }

  /** How many values an instruction pushes when it succeeds. */
  function Pushes(op: CloxChunk.OpCode): nat {
    if op.Return? || !Supported(op) then 0 else 1
  }

  // ---------------------------------------------------------------------
  // Instructions
  // ---------------------------------------------------------------------

  /** The operands of `op` are on the stack and its result has room. */
  predicate Fits(vm: Vm, op: CloxChunk.OpCode) {
    Pops(op) <= |vm.stack| && |vm.stack| - Pops(op) + Pushes(op) <= StackMax
  }

  /** `next` is what a successful `op` leaves behind: the same chunk, the
      next instruction, `Pops(op)` values popped without touching the ones
      below and `Pushes(op)` pushed; the interner only grows. */
  predicate Succeeds(vm: Vm, op: CloxChunk.OpCode, next: Vm) {
    Fits(vm, op) && next.chunk == vm.chunk && next.ip == vm.ip + 1 &&
    |next.stack| == |vm.stack| - Pops(op) + Pushes(op) &&
    next.stack[..|vm.stack| - Pops(op)] == vm.stack[..|vm.stack| - Pops(op)] &&
    vm.interner.names <= next.interner.names
  }

  /** `push` of `v` once `k` values are popped, moving to the next
      instruction: the slot past the top must exist. */
  function PushAfter(vm: Vm, k: nat, v: Value, it: CloxInterner.Interner): (r: Next)
    requires k <= |vm.stack|
    ensures |vm.stack| - k < StackMax <==> r.Continue?
    ensures r.Continue? ==> r.vm == Vm(vm.chunk, vm.ip + 1, vm.stack[..|vm.stack| - k] + [v], it)
    ensures r.Halt? ==> r.outcome == Panic
  {
    if |vm.stack| - k < StackMax then Continue(Vm(vm.chunk, vm.ip + 1, vm.stack[..|vm.stack| - k] + [v], it))
    else Halt(Panic)
  }

  /** The opcodes that push a constant or a literal value. */
  predicate IsLoad(op: CloxChunk.OpCode) {
    op.Constant? || op.True? || op.False? || op.Nil?
  }

  /** The value a load opcode pushes. */
  function Loaded(c: Code, op: CloxChunk.OpCode): Value
    requires IsLoad(op) && (op.Constant? ==> op.index < |c.constants|)
  {
    match op
    case Constant(k) => c.constants[k]
    case True => Bool(true)
    case False => Bool(false)
    case Nil => Nil
  }

  /** `OP_CONSTANT`, `OP_TRUE`, `OP_FALSE` and `OP_NIL`; `read_constant`
      panics on an index outside the pool. */
  function LoadOp(vm: Vm, op: CloxChunk.OpCode): (r: Next)
    requires IsLoad(op) && |vm.stack| <= StackMax
    ensures !Fits(vm, op) || (op.Constant? && op.index >= |vm.chunk.constants|) <==> r == Halt(Panic)
    ensures r.Continue? ==> Succeeds(vm, op, r.vm) && r.vm.interner == vm.interner
    ensures r.Continue? ==> r.vm.stack[|vm.stack|] == Loaded(vm.chunk, op)
  {
    match op
    case Constant(k) => if k < |vm.chunk.constants| then PushAfter(vm, 0, vm.chunk.constants[k], vm.interner) else Halt(Panic)
    case True => PushAfter(vm, 0, Bool(true), vm.interner)
    case False => PushAfter(vm, 0, Bool(false), vm.interner)
    case Nil => PushAfter(vm, 0, Nil, vm.interner)
  }

  /** `OP_EQUAL`: pop two values and push whether they are equal. */
  function EqualOp(vm: Vm): (r: Next)
    requires |vm.stack| <= StackMax
    ensures !Fits(vm, CloxChunk.Equal) <==> r == Halt(Panic)
    ensures r.Continue? ==> Succeeds(vm, CloxChunk.Equal, r.vm) && r.vm.interner == vm.interner &&
                            r.vm.stack[|vm.stack| - 2] == Bool(vm.stack[|vm.stack| - 2] == vm.stack[|vm.stack| - 1])
  {
    var n := |vm.stack|;
    if n < 2 then Halt(Panic) else PushAfter(vm, 2, Bool(vm.stack[n - 1] == vm.stack[n - 2]), vm.interner)
  }

  /** `OP_NOT`: pop a value and push whether it is falsey. */
  function NotOp(vm: Vm): (r: Next)
    requires |vm.stack| <= StackMax
    ensures !Fits(vm, CloxChunk.Not) <==> r == Halt(Panic)
    ensures r.Continue? ==> Succeeds(vm, CloxChunk.Not, r.vm) && r.vm.interner == vm.interner &&
                            r.vm.stack[|vm.stack| - 1] == Bool(IsFalsey(vm.stack[|vm.stack| - 1]))
  {
    var n := |vm.stack|;
    if n == 0 then Halt(Panic) else PushAfter(vm, 1, Bool(IsFalsey(vm.stack[n - 1])), vm.interner)
  }

  /** The result of a numeric binary opcode on two numbers; `None` is a
      division by zero. */
  function NumericResult(op: CloxChunk.OpCode, a: real, b: real): (r: Option<Value>)
    requires NumericBinary(op)
    ensures r.None? <==> op.Divide? && b == 0.0
  {
    match op
    case Greater => Some(Bool(a > b))
    case Less => Some(Bool(a < b))
    case Subtract => Some(Number(a - b))
    case Multiply => Some(Number(a * b))
    case Divide => if b == 0.0 then None else Some(Number(a / b))
  }

  /** `binary_op!`: pop `b`, then `a`, and only then check that both are
      numbers. */
  function BinaryOp(vm: Vm, op: CloxChunk.OpCode): (r: Next)
    requires NumericBinary(op) && |vm.stack| <= StackMax
    ensures !Fits(vm, op) <==> r == Halt(Panic)
    ensures Fits(vm, op) && !(IsNumber(vm.stack[|vm.stack| - 2]) && IsNumber(vm.stack[|vm.stack| - 1])) ==>
              r == Halt(Failed(RuntimeError("Operands must be numbers."), vm.interner))
    ensures r.Continue? ==> Succeeds(vm, op, r.vm) && r.vm.interner == vm.interner
    ensures r.Continue? ==> Fits(vm, op) && vm.stack[|vm.stack| - 2].Number? && vm.stack[|vm.stack| - 1].Number? &&
                            NumericResult(op, vm.stack[|vm.stack| - 2].n, vm.stack[|vm.stack| - 1].n) == Some(r.vm.stack[|vm.stack| - 2])
    ensures r == Halt(NonFinite) <==> Fits(vm, op) && op.Divide? && vm.stack[|vm.stack| - 2].Number? &&
                                      vm.stack[|vm.stack| - 1] == Number(0.0)
    ensures r.Halt? ==> r.outcome.Panic? || r.outcome.Failed? || r.outcome.NonFinite?
  {
    var n := |vm.stack|;
    if n < 2 then Halt(Panic)
    else
      var b := AsNumber(vm.stack[n - 1]);
      var a := AsNumber(vm.stack[n - 2]);
      if a.Err? || b.Err? then Halt(Failed(RuntimeError("Operands must be numbers."), vm.interner))
      else
        match NumericResult(op, a.value, b.value)
        case None => Halt(NonFinite)
        case Some(v) => PushAfter(vm, 2, v, vm.interner)
  }

  /** Every symbol the interner has handed out names a stored string. */
  predicate SymbolsInRange(it: CloxInterner.Interner) {
    forall t :: t in it.ids ==> it.ids[t] < |it.names|
  }

  /** `concatinate`: both texts looked up, joined and interned; `None` is
      the panic of a symbol the interner does not know. */
  function Concatenate(it: CloxInterner.Interner, a: nat, b: nat): (r: Option<(CloxInterner.Interner, Value)>)
    ensures r.Some? <==> a < |it.names| && b < |it.names|
    ensures r.Some? ==> it.names <= r.value.0.names && r.value.1.String?
    ensures r.Some? && SymbolsInRange(it) ==> SymbolsInRange(r.value.0) && r.value.1.symbol < |r.value.0.names|
    ensures r.Some? && CloxInterner.Valid(it) && |it.names| < CloxInterner.SymbolRange ==>
              CloxInterner.Valid(r.value.0) &&
              CloxInterner.Lookup(r.value.0, r.value.1.symbol) == Some(it.names[a] + it.names[b])
  {
    var x := CloxInterner.Lookup(it, a);
    var y := CloxInterner.Lookup(it, b);
    if x.None? || y.None? then None
    else
      var (it2, id) := CloxInterner.Intern(it, x.value + y.value);
      assert CloxInterner.Valid(it) && |it.names| < CloxInterner.SymbolRange ==>
               CloxInterner.Valid(it2) && CloxInterner.Lookup(it2, id) == Some(x.value + y.value) by {
        if CloxInterner.Valid(it) && |it.names| < CloxInterner.SymbolRange {
          CloxInterner.InternValid(it, x.value + y.value);
        }
      }
      Some((it2, String(id)))
  }

  /** `OP_ADD`: strings are concatenated, numbers added, anything else is
      an error; both operands are popped first. */
  function AddOp(vm: Vm): (r: Next)
    requires |vm.stack| <= StackMax
    ensures !Fits(vm, CloxChunk.Add) ==> r == Halt(Panic)
    ensures Fits(vm, CloxChunk.Add) && !(IsString(vm.stack[|vm.stack| - 2]) && IsString(vm.stack[|vm.stack| - 1])) &&
            !(IsNumber(vm.stack[|vm.stack| - 2]) && IsNumber(vm.stack[|vm.stack| - 1])) ==>
              r == Halt(Failed(RuntimeError("Operands must be numbers or strings."), vm.interner))
    ensures r.Continue? ==> Succeeds(vm, CloxChunk.Add, r.vm)
    ensures Fits(vm, CloxChunk.Add) && IsNumber(vm.stack[|vm.stack| - 2]) && IsNumber(vm.stack[|vm.stack| - 1]) ==>
              r.Continue? && r.vm.interner == vm.interner &&
              r.vm.stack[|vm.stack| - 2] == Number(vm.stack[|vm.stack| - 2].n + vm.stack[|vm.stack| - 1].n)
    ensures Fits(vm, CloxChunk.Add) && IsString(vm.stack[|vm.stack| - 2]) && IsString(vm.stack[|vm.stack| - 1]) ==>
              (r.Continue? <==> vm.stack[|vm.stack| - 2].symbol < |vm.interner.names| &&
                                vm.stack[|vm.stack| - 1].symbol < |vm.interner.names|)
    ensures r.Continue? && IsString(vm.stack[|vm.stack| - 2]) && IsString(vm.stack[|vm.stack| - 1]) &&
            CloxInterner.Valid(vm.interner) && |vm.interner.names| < CloxInterner.SymbolRange ==>
              vm.stack[|vm.stack| - 2].symbol < |vm.interner.names| && vm.stack[|vm.stack| - 1].symbol < |vm.interner.names| &&
              CloxInterner.Valid(r.vm.interner) && r.vm.stack[|vm.stack| - 2].String? &&
              CloxInterner.Lookup(r.vm.interner, r.vm.stack[|vm.stack| - 2].symbol) ==
                Some(vm.interner.names[vm.stack[|vm.stack| - 2].symbol] + vm.interner.names[vm.stack[|vm.stack| - 1].symbol])
    ensures r.Halt? ==> r.outcome.Panic? || r.outcome.Failed?
  {
    var n := |vm.stack|;
    if n < 2 then Halt(Panic)
    else
      var b := vm.stack[n - 1];
      var a := vm.stack[n - 2];
      if IsString(a) && IsString(b) then
        match Concatenate(vm.interner, a.symbol, b.symbol)
        case None => Halt(Panic)
        case Some((it, s)) => PushAfter(vm, 2, s, it)
      else if IsNumber(a) && IsNumber(b) then PushAfter(vm, 2, Number(a.n + b.n), vm.interner)
      else Halt(Failed(RuntimeError("Operands must be numbers or strings."), vm.interner))
  }

  /** `unary_op!` for negation. */
  function NegateOp(vm: Vm): (r: Next)
    requires |vm.stack| <= StackMax
    ensures !Fits(vm, CloxChunk.Negate) <==> r == Halt(Panic)
    ensures Fits(vm, CloxChunk.Negate) && !IsNumber(vm.stack[|vm.stack| - 1]) ==>
              r == Halt(Failed(RuntimeError("Operand must be number."), vm.interner))
    ensures r.Continue? ==> Succeeds(vm, CloxChunk.Negate, r.vm) && r.vm.interner == vm.interner &&
                            r.vm.stack[|vm.stack| - 1] == Number(-vm.stack[|vm.stack| - 1].n)
  {
    var n := |vm.stack|;
    if n == 0 then Halt(Panic)
    else
      var a := AsNumber(vm.stack[n - 1]);
      if a.Err? then Halt(Failed(RuntimeError("Operand must be number."), vm.interner))
      else PushAfter(vm, 1, Number(-a.value), vm.interner)
  }

  /** `OP_RETURN`: a string renders as its text, any other value by
      `Display`. */
  function ReturnOp(vm: Vm, numText: Render<real>): (r: Next)
    ensures r.Halt? && (r.outcome.Panic? || r.outcome.Returned?)
    ensures r.outcome.Returned? ==> r.outcome.interner == vm.interner
    ensures r.outcome.Panic? <==>
              |vm.stack| == 0 || (vm.stack[|vm.stack| - 1].String? && vm.stack[|vm.stack| - 1].symbol >= |vm.interner.names|)
    ensures r.outcome.Returned? ==>
              |vm.stack| > 0 &&
              var top := vm.stack[|vm.stack| - 1];
              (top.String? ==> top.symbol < |vm.interner.names| && r.outcome.text == vm.interner.names[top.symbol]) &&
              (!top.String? ==> r.outcome.text == Display(numText, top))
  {
    if |vm.stack| == 0 then Halt(Panic)
    else
      match vm.stack[|vm.stack| - 1]
      case String(s) =>
        var t := CloxInterner.Lookup(vm.interner, s);
        if t.None? then Halt(Panic) else Halt(Returned(t.value, vm.interner))
      case v => Halt(Returned(Display(numText, v), vm.interner))
  }

  /** One turn of `run`'s loop: read the instruction (moving the
      instruction pointer past it) and execute it. A continuing step
      leaves the chunk alone, moves to the next instruction, pops exactly
      `Pops(op)` values without touching the ones below, and pushes
      `Pushes(op)`; the interner only grows. Missing operands or a full
      stack are a panic, and an opcode without a case stops the model. */
  function Step(vm: Vm, numText: Render<real>): (r: Next)
    requires vm.ip < |vm.chunk.instructions| && |vm.stack| <= StackMax
    ensures var op := vm.chunk.instructions[vm.ip].code;
            r.Continue? ==> Supported(op) && !op.Return? && Succeeds(vm, op, r.vm)
    ensures var op := vm.chunk.instructions[vm.ip].code;
            Supported(op) && !Fits(vm, op) ==> r == Halt(Panic)
    ensures var op := vm.chunk.instructions[vm.ip].code;
            !Supported(op) <==> r == Halt(Unsupported(op))
    ensures r.Halt? && r.outcome.Returned? ==> vm.chunk.instructions[vm.ip].code.Return?
    ensures r.Halt? && r.outcome.Failed? ==> r.outcome.error.RuntimeError?
  {
    var op := vm.chunk.instructions[vm.ip].code;
    match op
    case Constant(_) => LoadOp(vm, op)
    case True => LoadOp(vm, op)
    case False => LoadOp(vm, op)
    case Nil => LoadOp(vm, op)
    case Equal => EqualOp(vm)
    case Greater => BinaryOp(vm, op)
    case Less => BinaryOp(vm, op)
    case Add => AddOp(vm)
    case Subtract => BinaryOp(vm, op)
    case Multiply => BinaryOp(vm, op)
    case Divide => BinaryOp(vm, op)
    case Negate => NegateOp(vm)
    case Not => NotOp(vm)
    case Return => ReturnOp(vm, numText)
    case _ => Halt(Unsupported(op))
  }

  /** The loop of `run`, from the current state on. Reading past the last
      instruction is the panic of `unwrap` on a missing instruction. A run
      returns a value only by reaching a `Return` at or after `ip`, and
      every error it reports is a runtime error. */
  function Exec(vm: Vm, numText: Render<real>): (r: Outcome)
    requires |vm.stack| <= StackMax
    ensures r != Diverges
    ensures r.Returned? ==> exists i :: vm.ip <= i < |vm.chunk.instructions| && vm.chunk.instructions[i].code.Return?
    ensures r.Failed? ==> r.error.RuntimeError?
    decreases |vm.chunk.instructions| - vm.ip
  {
    if vm.ip >= |vm.chunk.instructions| then Panic
    else
      match Step(vm, numText)
      case Continue(nx) => Exec(nx, numText)
      case Halt(o) => o
  }

  /** `run`, after `reset_stack`: the first instruction, an empty stack.
      An empty chunk panics at once, and a value is returned only by a
      chunk holding a `Return`. */
  function Run(chunk: Code, it: CloxInterner.Interner, numText: Render<real>): (r: Outcome)
    ensures r != Diverges
    ensures |chunk.instructions| == 0 ==> r == Panic
    ensures r.Returned? ==> exists i :: 0 <= i < |chunk.instructions| && chunk.instructions[i].code.Return?
    ensures r.Failed? ==> r.error.RuntimeError?
  {
    Exec(Vm(chunk, 0, [], it), numText)
  }

  // ---------------------------------------------------------------------
  // Errors and the pipeline
  // ---------------------------------------------------------------------

  /** `format_err`: with a token, `[line N] Error`, then ` at end` for
      EOF, the scanner's message for an error token, or ` at '…'` with the
      token's debug form and a line break; then `: MESSAGE` and a line
      break. Without a token, `Error: MESSAGE` and a line break. */
  function FormatErr(e: CloxCompiler.ParserError, debug: Render<CloxScanner.Token>): (r: string)
    ensures |e.message| + 3 <= |r| && r[|r| - |e.message| - 3..] == ": " + e.message + "\n"
    ensures e.token.None? ==> r == "Error" + ": " + e.message + "\n"
    ensures e.token.Some? ==>
              var head := "[line " + NatToString(e.token.value.line) + "] Error";
              |head| <= |r| && r[..|head|] == head
    ensures e.token.Some? && e.token.value.kind == CloxScanner.EOF ==>
              r == "[line " + NatToString(e.token.value.line) + "] Error" + " at end" + ": " + e.message + "\n"
  {
    var tail := ": " + e.message + "\n";
    match e.token
    case None =>
      assert ("Error" + tail)[5..] == tail;
      "Error" + tail
    case Some(t) =>
      var head := "[line " + NatToString(t.line) + "] Error";
      var at := match t.kind
                case EOF => " at end"
                case Error(m) => m
                case _ => " at '" + debug(t) + "'\n";
      var r := head + at + tail;
      assert r[..|head|] == head;
      assert r[|r| - |tail|..] == tail;
      r
  }

  /** `interpret`: run what the compiler produced, or report its error. The
      compiler's panic is the program's, and a compilation that never ends
      never reaches the VM. */
  function Interpret(c: CloxCompiler.Compilation, numText: Render<real>, debug: Render<CloxScanner.Token>): (r: Outcome)
    ensures c.Rejected? ==> r.Failed? && r.error.CompileError? && r.interner == c.interner &&
                            r.error.message == FormatErr(c.error, debug)
    ensures c.Hangs? <==> r == Diverges
    ensures c.CompilePanic? ==> r == Panic
  {
    match c
    case Compiled(chunk, it) => Run(chunk, it, numText)
    case Rejected(e, it) => Failed(CompileError(FormatErr(e, debug)), it)
    case CompilePanic => Panic
    case Hangs => Diverges
  }

  // ---------------------------------------------------------------------
  // Stack safety
  // ---------------------------------------------------------------------

  /** A static check of the code from `from` on, entered with `depth`
      values on the stack: every opcode has a case, finds the operands it
      pops, leaves room for what it pushes, and a `Return` comes before
      the end. */
  predicate StackSafe(ins: seq<CloxChunk.Instruction>, from: nat, depth: nat)
    decreases |ins| - from
  {
    from < |ins| &&
    var op := ins[from].code;
    Supported(op) && Pops(op) <= depth && depth - Pops(op) + Pushes(op) <= StackMax &&
    (op.Return? || StackSafe(ins, from + 1, depth - Pops(op) + Pushes(op)))
  }

  /** Every string among these values names a symbol the interner knows. */
  predicate SymbolsKnown(vs: seq<Value>, it: CloxInterner.Interner) {
    forall i :: 0 <= i < |vs| && vs[i].String? ==> vs[i].symbol < |it.names|
  }

  /** A state that the static check accepts and whose strings are known. */
  predicate SafeState(vm: Vm) {
    |vm.stack| <= StackMax && StackSafe(vm.chunk.instructions, vm.ip, |vm.stack|) &&
    CloxChunk.ConstantsInRange(vm.chunk) && SymbolsInRange(vm.interner) &&
    SymbolsKnown(vm.chunk.constants, vm.interner) && SymbolsKnown(vm.stack, vm.interner)
  }

  /** The outcomes a run can end in without a panic. */
  predicate Clean(o: Outcome) {
    o.Returned? || o.Failed? || o.NonFinite?
  }

  lemma SymbolsKnownGrow(vs: seq<Value>, it: CloxInterner.Interner, larger: CloxInterner.Interner)
    requires SymbolsKnown(vs, it) && it.names <= larger.names
    ensures SymbolsKnown(vs, larger)
  {
  }

  lemma SymbolsKnownPush(vs: seq<Value>, k: nat, v: Value, it: CloxInterner.Interner)
    requires k <= |vs| && SymbolsKnown(vs, it) && (v.String? ==> v.symbol < |it.names|)
    ensures SymbolsKnown(vs[..k] + [v], it)
  {
    assert forall i :: 0 <= i < k ==> (vs[..k] + [v])[i] == vs[i];
  }

  /** One instruction of a safe state does not panic. */
  lemma StepNoPanic(vm: Vm, numText: Render<real>)
    requires SafeState(vm)
    ensures vm.ip < |vm.chunk.instructions|
    ensures var r := Step(vm, numText); r.Halt? ==> Clean(r.outcome)
  {
    var op := vm.chunk.instructions[vm.ip].code;
    var n := |vm.stack|;
    assert Supported(op) && Pops(op) <= n && n - Pops(op) + Pushes(op) <= StackMax;
    if op.Constant? {
      assert op.index < |vm.chunk.constants|;
    } else if op.Add? {
      var a := vm.stack[n - 2];
      var b := vm.stack[n - 1];
      if IsString(a) && IsString(b) {
        assert a.symbol < |vm.interner.names| && b.symbol < |vm.interner.names|;
      }
    } else if op.Return? {
      assert vm.stack[n - 1].String? ==> vm.stack[n - 1].symbol < |vm.interner.names|;
    }
  }

  /** The value a continuing step pushes is one the new interner knows. */
  lemma StepTopKnown(vm: Vm, numText: Render<real>)
    requires SafeState(vm) && vm.ip < |vm.chunk.instructions|
    ensures var r := Step(vm, numText);
            r.Continue? ==> |r.vm.stack| > 0 && SymbolsInRange(r.vm.interner) &&
                            (r.vm.stack[|r.vm.stack| - 1].String? ==>
                               r.vm.stack[|r.vm.stack| - 1].symbol < |r.vm.interner.names|)
  {
    var op := vm.chunk.instructions[vm.ip].code;
    var n := |vm.stack|;
    var r := Step(vm, numText);
    if r.Continue? {
      var top := r.vm.stack[|r.vm.stack| - 1];
      if op.Constant? {
        assert vm.chunk.constants[op.index] == top;
      } else if op.Add? {
        var a := vm.stack[n - 2];
        var b := vm.stack[n - 1];
        if IsString(a) && IsString(b) {
          var c := Concatenate(vm.interner, a.symbol, b.symbol);
          assert c.Some? && r.vm.interner == c.value.0 && top == c.value.1;
        }
      }
    }
  }

  /** A state that succeeds a safe one, pushing one known value, is safe. */
  lemma SuccessorSafe(vm: Vm, op: CloxChunk.OpCode, next: Vm)
    requires SafeState(vm) && vm.ip < |vm.chunk.instructions| && op == vm.chunk.instructions[vm.ip].code
    requires Supported(op) && !op.Return? && Succeeds(vm, op, next) && SymbolsInRange(next.interner)
    requires next.stack[|next.stack| - 1].String? ==> next.stack[|next.stack| - 1].symbol < |next.interner.names|
    ensures SafeState(next)
  {
    var m := |vm.stack| - Pops(op);
    var top := next.stack[|next.stack| - 1];
    assert next.stack == vm.stack[..m] + [top] by {
      assert next.stack[..m] == vm.stack[..m];
    }
    SymbolsKnownGrow(vm.stack, vm.interner, next.interner);
    SymbolsKnownGrow(vm.chunk.constants, vm.interner, next.interner);
    SymbolsKnownPush(vm.stack, m, top, next.interner);
  }

  /** A continuing step of a safe state lands in a safe state. */
  lemma StepStaysSafe(vm: Vm, numText: Render<real>)
    requires SafeState(vm) && vm.ip < |vm.chunk.instructions|
    ensures var r := Step(vm, numText); r.Continue? ==> SafeState(r.vm)
  {
    var r := Step(vm, numText);
    if r.Continue? {
      StepTopKnown(vm, numText);
      SuccessorSafe(vm, vm.chunk.instructions[vm.ip].code, r.vm);
    }
  }

  /** A state the static check accepts runs to a value, a runtime error or
      a division by zero, and never panics. */
  lemma {:induction false} ExecSafe(vm: Vm, numText: Render<real>)
    requires SafeState(vm)
    ensures Clean(Exec(vm, numText))
    decreases |vm.chunk.instructions| - vm.ip
  {
    StepNoPanic(vm, numText);
    StepStaysSafe(vm, numText);
    var r := Step(vm, numText);
    if r.Continue? {
      ExecSafe(r.vm, numText);
    }
  }

  /** A chunk that passes the static check from an empty stack, whose
      constants are in the pool and whose strings the interner knows,
      runs without a panic. */
  lemma RunSafe(chunk: Code, it: CloxInterner.Interner, numText: Render<real>)
    requires StackSafe(chunk.instructions, 0, 0) && CloxChunk.ConstantsInRange(chunk)
    requires SymbolsInRange(it) && SymbolsKnown(chunk.constants, it)
    ensures Clean(Run(chunk, it, numText))
  {
    ExecSafe(Vm(chunk, 0, [], it), numText);
  }

  /** A run that meets an opcode without a case, with no `Return` before
      it, ends there or earlier: on an opcode without a case, a runtime
      error, a panic or a division by zero, never by returning. */
  lemma {:induction false} ExecStopsAt(vm: Vm, numText: Render<real>, j: nat)
    requires |vm.stack| <= StackMax && vm.ip <= j < |vm.chunk.instructions|
    requires !Supported(vm.chunk.instructions[j].code)
    requires forall i :: vm.ip <= i < j ==> !vm.chunk.instructions[i].code.Return?
    ensures var r := Exec(vm, numText);
            (r.Unsupported? && !Supported(r.op)) || (r.Failed? && r.error.RuntimeError?) ||
            r == Panic || r == NonFinite
    decreases j - vm.ip
  {
    var r := Step(vm, numText);
    if r.Continue? {
      ExecStopsAt(r.vm, numText, j);
    } else {
      assert Exec(vm, numText) == r.outcome;
    }
  }

  /** The chunk the ch21 compiler produces for `1 + 2;`. */
  function SumCode(): Code {
    CloxChunk.Chunk([CloxCompiler.OnLine1(CloxChunk.Constant(0)), CloxCompiler.OnLine1(CloxChunk.Constant(1)),
                     CloxCompiler.OnLine1(CloxChunk.Add), CloxCompiler.OnLine1(CloxChunk.Pop),
                     CloxCompiler.OnLine1(CloxChunk.Return)],
                    [Number(1.0), Number(2.0)])
  }

  /** The two constants load. */
  lemma SumLoads(numText: Render<real>)
    ensures Exec(Vm(SumCode(), 0, [], CloxInterner.Empty), numText) ==
            Exec(Vm(SumCode(), 2, [Number(1.0), Number(2.0)], CloxInterner.Empty), numText)
  {
    var c := SumCode();
    var v0 := Vm(c, 0, [], CloxInterner.Empty);
    var v1 := Vm(c, 1, [Number(1.0)], CloxInterner.Empty);
    assert Step(v0, numText) == Continue(v1);
    ExecContinues(v0, numText);
    assert Step(v1, numText) == Continue(Vm(c, 2, [Number(1.0), Number(2.0)], CloxInterner.Empty));
    ExecContinues(v1, numText);
  }

  /** `Add` leaves their sum. */
  lemma SumAdds(numText: Render<real>)
    ensures Exec(Vm(SumCode(), 2, [Number(1.0), Number(2.0)], CloxInterner.Empty), numText) ==
            Exec(Vm(SumCode(), 3, [Number(3.0)], CloxInterner.Empty), numText)
  {
    var vm := Vm(SumCode(), 2, [Number(1.0), Number(2.0)], CloxInterner.Empty);
    assert vm.stack[..0] == [];
    assert Step(vm, numText) == Continue(Vm(SumCode(), 3, [Number(3.0)], CloxInterner.Empty));
    ExecContinues(vm, numText);
  }

  /** The ch21 compiler's chunk for `1 + 2;` does not run to a value on
      this VM: both constants load and `Add` leaves 3, then the `Pop` that
      closes the statement has no case here. */
  lemma InterpretSumStops(src: string, numText: Render<real>, debug: Render<CloxScanner.Token>)
    requires src == "1 + 2;"
    ensures Interpret(CloxCompiler.Compile(CloxScanner.TokenStream(src), CloxInterner.Empty), numText, debug) ==
              Unsupported(CloxChunk.Pop)
  {
    CloxScanner.SumSource(src);
    CloxCompiler.CompileSum(CloxCompiler.SumTokens());
    SumLoads(numText);
    SumAdds(numText);
    assert SumCode().instructions[3].code == CloxChunk.Pop;
  }

  // ---------------------------------------------------------------------
  // The compiler's operator code, run
  // ---------------------------------------------------------------------

  /** A chunk of these opcodes followed by `Return`, all on line 1, with an
      empty pool. */
  function CodeChunk(codes: seq<CloxChunk.OpCode>): (c: Code)
    ensures |c.instructions| == |codes| + 1 && c.constants == []
    ensures forall i :: 0 <= i < |codes| ==> c.instructions[i].code == codes[i]
    ensures c.instructions[|codes|].code == CloxChunk.Return
  {
    var body := seq(|codes|, i requires 0 <= i < |codes| => CloxChunk.Instruction(codes[i], 1));
    CloxChunk.Chunk(body + [CloxChunk.Instruction(CloxChunk.Return, 1)], [])
  }

  /** A continuing step hands the run over to the next state. */
  lemma ExecContinues(vm: Vm, numText: Render<real>)
    requires |vm.stack| <= StackMax && vm.ip < |vm.chunk.instructions| && Step(vm, numText).Continue?
    ensures Exec(vm, numText) == Exec(Step(vm, numText).vm, numText)
  {
  }

  /** `Return` on a value other than a string renders it by `Display`. */
  lemma ExecReturns(vm: Vm, numText: Render<real>)
    requires |vm.stack| <= StackMax && vm.ip < |vm.chunk.instructions|
    requires vm.chunk.instructions[vm.ip].code == CloxChunk.Return
    requires |vm.stack| > 0 && !vm.stack[|vm.stack| - 1].String?
    ensures Exec(vm, numText) == Returned(Display(numText, vm.stack[|vm.stack| - 1]), vm.interner)
  {
  }

  /** The comparison operators of the source language. */
  predicate IsComparison(k: CloxScanner.TokenType) {
    k == CloxScanner.BangEqual || k == CloxScanner.EqualEqual || k == CloxScanner.Greater ||
    k == CloxScanner.GreaterEqual || k == CloxScanner.Less || k == CloxScanner.LessEqual
  }

  /** What a comparison operator means on two numbers. */
  predicate Holds(k: CloxScanner.TokenType, x: real, y: real)
    requires IsComparison(k)
  {
    match k
    case BangEqual => x != y
    case EqualEqual => x == y
    case Greater => x > y
    case GreaterEqual => x >= y
    case Less => x < y
    case LessEqual => x <= y
  }

  /** `==`, `>` and `<` are one opcode each. */
  lemma PlainComparison(k: CloxScanner.TokenType, x: real, y: real, it: CloxInterner.Interner, numText: Render<real>)
    requires k == CloxScanner.EqualEqual || k == CloxScanner.Greater || k == CloxScanner.Less
    ensures Exec(Vm(CodeChunk(CloxCompiler.BinaryCode(k)), 0, [Number(x), Number(y)], it), numText)
            == Returned(if Holds(k, x, y) then "true" else "false", it)
  {
    var c := CodeChunk(CloxCompiler.BinaryCode(k));
    var vm := Vm(c, 0, [Number(x), Number(y)], it);
    assert Step(vm, numText) == Continue(Vm(c, 1, [Bool(Holds(k, x, y))], it));
    ExecContinues(vm, numText);
    ExecReturns(Vm(c, 1, [Bool(Holds(k, x, y))], it), numText);
  }

  /** A numeric binary opcode on two numbers pushes its result in their
      place. */
  lemma NumericStep(vm: Vm, x: real, y: real, v: Value, numText: Render<real>)
    requires vm.ip < |vm.chunk.instructions| && NumericBinary(vm.chunk.instructions[vm.ip].code)
    requires vm.stack == [Number(x), Number(y)]
    requires NumericResult(vm.chunk.instructions[vm.ip].code, x, y) == Some(v)
    ensures Step(vm, numText) == Continue(Vm(vm.chunk, vm.ip + 1, [v], vm.interner))
  {
    assert vm.stack[..0] == [];
  }

  /** `Not` replaces the top value by whether it is falsey. */
  lemma NotStep(vm: Vm, v: Value, numText: Render<real>)
    requires vm.ip < |vm.chunk.instructions| && vm.chunk.instructions[vm.ip].code == CloxChunk.Not
    requires vm.stack == [v]
    ensures Step(vm, numText) == Continue(Vm(vm.chunk, vm.ip + 1, [Bool(IsFalsey(v))], vm.interner))
  {
    assert vm.stack[..0] == [];
  }

  /** `Not` then `Return` on one value returns whether it is falsey. */
  lemma NotReturns(c: Code, ip: nat, v: Value, it: CloxInterner.Interner, numText: Render<real>)
    requires ip + 1 < |c.instructions| && c.instructions[ip].code == CloxChunk.Not
    requires c.instructions[ip + 1].code == CloxChunk.Return
    ensures Exec(Vm(c, ip, [v], it), numText) == Returned(if IsFalsey(v) then "true" else "false", it)
  {
    var vm := Vm(c, ip, [v], it);
    var vm1 := Vm(c, ip + 1, [Bool(IsFalsey(v))], it);
    NotStep(vm, v, numText);
    ExecContinues(vm, numText);
    ExecReturns(vm1, numText);
  }

  /** `!=`, `>=` and `<=` are the opposite comparison followed by `Not`. */
  lemma NegatedComparison(k: CloxScanner.TokenType, x: real, y: real, it: CloxInterner.Interner, numText: Render<real>)
    requires k == CloxScanner.BangEqual || k == CloxScanner.GreaterEqual || k == CloxScanner.LessEqual
    ensures Exec(Vm(CodeChunk(CloxCompiler.BinaryCode(k)), 0, [Number(x), Number(y)], it), numText)
            == Returned(if Holds(k, x, y) then "true" else "false", it)
  {
    var codes := CloxCompiler.BinaryCode(k);
    assert |codes| == 2 && codes[1] == CloxChunk.Not;
    var c := CodeChunk(codes);
    var vm := Vm(c, 0, [Number(x), Number(y)], it);
    var first := Bool(!Holds(k, x, y));
    if k == CloxScanner.BangEqual {
      EqualStep(vm, Number(x), Number(y), numText);
    } else {
      assert NumericResult(codes[0], x, y) == Some(first);
      NumericStep(vm, x, y, first, numText);
    }
    ExecContinues(vm, numText);
    NotReturns(c, 1, first, it, numText);
  }

  /** The code the compiler emits for a comparison, run on two numbers,
      returns whether the comparison holds; the negated forms get there
      through the opposite comparison and `Not`. */
  lemma ComparisonCode(k: CloxScanner.TokenType, x: real, y: real, it: CloxInterner.Interner, numText: Render<real>)
    requires IsComparison(k)
    ensures Exec(Vm(CodeChunk(CloxCompiler.BinaryCode(k)), 0, [Number(x), Number(y)], it), numText)
            == Returned(if Holds(k, x, y) then "true" else "false", it)
  {
    if k == CloxScanner.EqualEqual || k == CloxScanner.Greater || k == CloxScanner.Less {
      PlainComparison(k, x, y, it, numText);
    } else {
      NegatedComparison(k, x, y, it, numText);
    }
  }

  /** The arithmetic operators of the source language. */
  predicate IsArithmetic(k: CloxScanner.TokenType) {
    k == CloxScanner.Plus || k == CloxScanner.Minus || k == CloxScanner.Star || k == CloxScanner.Slash
  }

  /** What an arithmetic operator means on two numbers. */
  function Arithmetic(k: CloxScanner.TokenType, x: real, y: real): real
    requires IsArithmetic(k) && (k == CloxScanner.Slash ==> y != 0.0)
  {
    match k
    case Plus => x + y
    case Minus => x - y
    case Star => x * y
    case Slash => x / y
  }

  /** `+` on two numbers is their sum. */
  lemma AdditionCode(x: real, y: real, it: CloxInterner.Interner, numText: Render<real>)
    ensures Exec(Vm(CodeChunk(CloxCompiler.BinaryCode(CloxScanner.Plus)), 0, [Number(x), Number(y)], it), numText)
            == Returned(numText(x + y), it)
  {
    var c := CodeChunk(CloxCompiler.BinaryCode(CloxScanner.Plus));
    var vm := Vm(c, 0, [Number(x), Number(y)], it);
    assert c.instructions[0].code == CloxChunk.Add;
    assert Step(vm, numText) == Continue(Vm(c, 1, [Number(x + y)], it));
    ExecContinues(vm, numText);
    ExecReturns(Vm(c, 1, [Number(x + y)], it), numText);
  }

  /** `-`, `*` and `/` go through the numeric binary opcodes. */
  lemma NumericCode(k: CloxScanner.TokenType, x: real, y: real, it: CloxInterner.Interner, numText: Render<real>)
    requires k == CloxScanner.Minus || k == CloxScanner.Star || k == CloxScanner.Slash
    ensures var r := Exec(Vm(CodeChunk(CloxCompiler.BinaryCode(k)), 0, [Number(x), Number(y)], it), numText);
            if k == CloxScanner.Slash && y == 0.0 then r == NonFinite else r == Returned(numText(Arithmetic(k, x, y)), it)
  {
    var c := CodeChunk(CloxCompiler.BinaryCode(k));
    var vm := Vm(c, 0, [Number(x), Number(y)], it);
    var op := c.instructions[0].code;
    assert NumericBinary(op);
    if k == CloxScanner.Slash && y == 0.0 {
      assert Step(vm, numText) == Halt(NonFinite);
    } else {
      assert NumericResult(op, x, y) == Some(Number(Arithmetic(k, x, y)));
      assert Step(vm, numText) == Continue(Vm(c, 1, [Number(Arithmetic(k, x, y))], it));
      ExecContinues(vm, numText);
      ExecReturns(Vm(c, 1, [Number(Arithmetic(k, x, y))], it), numText);
    }
  }

  /** The code the compiler emits for an arithmetic operator, run on two
      numbers, returns their sum, difference, product or quotient, the
      left operand first; dividing by zero leaves the reals. */
  lemma ArithmeticCode(k: CloxScanner.TokenType, x: real, y: real, it: CloxInterner.Interner, numText: Render<real>)
    requires IsArithmetic(k)
    ensures var r := Exec(Vm(CodeChunk(CloxCompiler.BinaryCode(k)), 0, [Number(x), Number(y)], it), numText);
            if k == CloxScanner.Slash && y == 0.0 then r == NonFinite else r == Returned(numText(Arithmetic(k, x, y)), it)
  {
    if k == CloxScanner.Plus {
      AdditionCode(x, y, it, numText);
    } else {
      NumericCode(k, x, y, it, numText);
    }
  }

  /** `Equal` replaces the top two values by whether they are equal. */
  lemma EqualStep(vm: Vm, a: Value, b: Value, numText: Render<real>)
    requires vm.ip < |vm.chunk.instructions| && vm.chunk.instructions[vm.ip].code == CloxChunk.Equal
    requires vm.stack == [a, b]
    ensures Step(vm, numText) == Continue(Vm(vm.chunk, vm.ip + 1, [Bool(a == b)], vm.interner))
  {
    assert vm.stack[..0] == [];
  }

  /** `==` compares any two values, strings by symbol. */
  lemma EqualEqualCode(a: Value, b: Value, it: CloxInterner.Interner, numText: Render<real>)
    ensures Exec(Vm(CodeChunk(CloxCompiler.BinaryCode(CloxScanner.EqualEqual)), 0, [a, b], it), numText)
            == Returned(if a == b then "true" else "false", it)
  {
    var c := CodeChunk(CloxCompiler.BinaryCode(CloxScanner.EqualEqual));
    var vm := Vm(c, 0, [a, b], it);
    var vm1 := Vm(c, 1, [Bool(a == b)], it);
    EqualStep(vm, a, b, numText);
    ExecContinues(vm, numText);
    ExecReturns(vm1, numText);
  }

  /** `!=` is `==` followed by `Not`. */
  lemma BangEqualCode(a: Value, b: Value, it: CloxInterner.Interner, numText: Render<real>)
    ensures Exec(Vm(CodeChunk(CloxCompiler.BinaryCode(CloxScanner.BangEqual)), 0, [a, b], it), numText)
            == Returned(if a != b then "true" else "false", it)
  {
    var c := CodeChunk(CloxCompiler.BinaryCode(CloxScanner.BangEqual));
    assert c.instructions[0].code == CloxChunk.Equal && c.instructions[1].code == CloxChunk.Not;
    var vm := Vm(c, 0, [a, b], it);
    EqualStep(vm, a, b, numText);
    ExecContinues(vm, numText);
    NotReturns(c, 1, Bool(a == b), it, numText);
  }

  /** `==` and `!=` compare any two values, strings by symbol. */
  lemma EqualityCode(k: CloxScanner.TokenType, a: Value, b: Value, it: CloxInterner.Interner, numText: Render<real>)
    requires k == CloxScanner.EqualEqual || k == CloxScanner.BangEqual
    ensures Exec(Vm(CodeChunk(CloxCompiler.BinaryCode(k)), 0, [a, b], it), numText)
            == Returned(if (a == b) == (k == CloxScanner.EqualEqual) then "true" else "false", it)
  {
    if k == CloxScanner.EqualEqual {
      EqualEqualCode(a, b, it, numText);
    } else {
      BangEqualCode(a, b, it, numText);
    }
  }

  // ---------------------------------------------------------------------
  // The VM's tests
  // ---------------------------------------------------------------------

  /** An instruction on line 123, as in the tests' hand-built chunks. */
  function At123(op: CloxChunk.OpCode): CloxChunk.Instruction {
    CloxChunk.Instruction(op, 123)
  }

  /** Negating the constant 1.2 returns the rendering of -1.2. */
  lemma NegateExample(c: Code, it: CloxInterner.Interner, numText: Render<real>)
    requires c == CloxChunk.Chunk([At123(CloxChunk.Constant(0)), At123(CloxChunk.Negate), At123(CloxChunk.Return)],
                                  [Number(1.2)])
    ensures Run(c, it, numText) == Returned(numText(-1.2), it)
  {
    var vm0 := Vm(c, 0, [], it);
    var vm1 := Vm(c, 1, [Number(1.2)], it);
    var vm2 := Vm(c, 2, [Number(-1.2)], it);
    assert Step(vm0, numText) == Continue(vm1);
    assert Step(vm1, numText) == Continue(vm2);
    ExecContinues(vm0, numText);
    ExecContinues(vm1, numText);
    ExecReturns(vm2, numText);
  }

  /** (1.2 + 3.4) / 5.6, computed exactly. */
  lemma CalculateExample(c: Code, it: CloxInterner.Interner, numText: Render<real>)
    requires c == CloxChunk.Chunk([At123(CloxChunk.Constant(0)), At123(CloxChunk.Constant(1)), At123(CloxChunk.Add),
                                   At123(CloxChunk.Constant(2)), At123(CloxChunk.Divide), At123(CloxChunk.Return)],
                                  [Number(1.2), Number(3.4), Number(5.6)])
    ensures Run(c, it, numText) == Returned(numText(23.0 / 28.0), it)
  {
    var vm0 := Vm(c, 0, [], it);
    var vm1 := Vm(c, 1, [Number(1.2)], it);
    var vm2 := Vm(c, 2, [Number(1.2), Number(3.4)], it);
    var vm3 := Vm(c, 3, [Number(4.6)], it);
    var vm4 := Vm(c, 4, [Number(4.6), Number(5.6)], it);
    var vm5 := Vm(c, 5, [Number(23.0 / 28.0)], it);
    assert Step(vm0, numText) == Continue(vm1);
    assert Step(vm1, numText) == Continue(vm2);
    assert Step(vm2, numText) == Continue(vm3);
    assert Step(vm3, numText) == Continue(vm4);
    assert Step(vm4, numText) == Continue(vm5);
    ExecContinues(vm0, numText);
    ExecContinues(vm1, numText);
    ExecContinues(vm2, numText);
    ExecContinues(vm3, numText);
    ExecContinues(vm4, numText);
    ExecReturns(vm5, numText);
  }

  /** Adding a number and a boolean is a runtime error. */
  lemma AddNonNumbersExample(c: Code, it: CloxInterner.Interner, numText: Render<real>)
    requires c == CloxChunk.Chunk([At123(CloxChunk.Constant(0)), At123(CloxChunk.Constant(1)), At123(CloxChunk.Add)],
                                  [Number(1.2), Bool(false)])
    ensures Run(c, it, numText) == Failed(RuntimeError("Operands must be numbers or strings."), it)
  {
    var vm0 := Vm(c, 0, [], it);
    var vm1 := Vm(c, 1, [Number(1.2)], it);
    var vm2 := Vm(c, 2, [Number(1.2), Bool(false)], it);
    assert Step(vm0, numText) == Continue(vm1);
    assert Step(vm1, numText) == Continue(vm2);
    ExecContinues(vm0, numText);
    ExecContinues(vm1, numText);
  }

  /** Negating nil is a runtime error. */
  lemma NegateNilExample(c: Code, it: CloxInterner.Interner, numText: Render<real>)
    requires c == CloxChunk.Chunk([At123(CloxChunk.Constant(0)), At123(CloxChunk.Negate)], [Nil])
    ensures Run(c, it, numText) == Failed(RuntimeError("Operand must be number."), it)
  {
    var vm0 := Vm(c, 0, [], it);
    var vm1 := Vm(c, 1, [Nil], it);
    assert Step(vm0, numText) == Continue(vm1);
    ExecContinues(vm0, numText);
  }

  /** An instruction on line 1, where every token of a one-line source is. */
  function AtLine1(op: CloxChunk.OpCode): CloxChunk.Instruction {
    CloxChunk.Instruction(op, 1)
  }

  /** The chunk the ch20 compiler gives for the source `"st" + "ri" + "ng"`,
      written out by hand because that compiler is not part of this model:
      every instruction on line 1, and the literals interned as symbols 0, 1
      and 2. */
  predicate AppendChunk(c: Code) {
    c == CloxChunk.Chunk([AtLine1(CloxChunk.Constant(0)), AtLine1(CloxChunk.Constant(1)), AtLine1(CloxChunk.Add),
                          AtLine1(CloxChunk.Constant(2)), AtLine1(CloxChunk.Add), AtLine1(CloxChunk.Return)],
                         [String(0), String(1), String(2)])
  }

  /** `Add` on two strings the interner knows pushes the symbol of their
      concatenation. */
  lemma AddStringsStep(vm: Vm, a: nat, b: nat, joined: CloxInterner.Interner, s: Value, numText: Render<real>)
    requires vm.ip < |vm.chunk.instructions| && vm.chunk.instructions[vm.ip].code == CloxChunk.Add
    requires vm.stack == [String(a), String(b)]
    requires Concatenate(vm.interner, a, b) == Some((joined, s))
    ensures Step(vm, numText) == Continue(Vm(vm.chunk, vm.ip + 1, [s], joined))
  {
    assert vm.stack[..0] == [];
  }

  /** The first two instructions push the literals `st` and `ri`. */
  lemma AppendLoads(c: Code, it: CloxInterner.Interner, numText: Render<real>)
    requires AppendChunk(c)
    ensures Exec(Vm(c, 0, [], it), numText) == Exec(Vm(c, 2, [String(0), String(1)], it), numText)
  {
    var vm0 := Vm(c, 0, [], it);
    var vm1 := Vm(c, 1, [String(0)], it);
    assert Step(vm0, numText) == Continue(vm1);
    assert Step(vm1, numText) == Continue(Vm(c, 2, [String(0), String(1)], it));
    ExecContinues(vm0, numText);
    ExecContinues(vm1, numText);
  }

  /** Joining `st` and `ri` interns `stri` as symbol 3. */
  lemma ConcatenateFirst(it: CloxInterner.Interner)
    requires it.names == ["st", "ri", "ng"] && "stri" !in it.ids
    ensures Concatenate(it, 0, 1) == Some((CloxInterner.Interner(it.ids["stri" := 3], it.names + ["stri"]), String(3)))
  {
    assert "st" + "ri" == "stri";
    assert CloxInterner.Intern(it, "stri") == (CloxInterner.Interner(it.ids["stri" := 3], it.names + ["stri"]), 3);
  }

  /** `"st" + "ri"` interns `stri` as symbol 3. */
  lemma AppendFirst(c: Code, it: CloxInterner.Interner, numText: Render<real>)
    requires AppendChunk(c) && it.names == ["st", "ri", "ng"] && "stri" !in it.ids
    ensures Exec(Vm(c, 0, [], it), numText) ==
              Exec(Vm(c, 3, [String(3)], CloxInterner.Interner(it.ids["stri" := 3], it.names + ["stri"])), numText)
  {
    var it3 := CloxInterner.Interner(it.ids["stri" := 3], it.names + ["stri"]);
    var vm2 := Vm(c, 2, [String(0), String(1)], it);
    AppendLoads(c, it, numText);
    ConcatenateFirst(it);
    AddStringsStep(vm2, 0, 1, it3, String(3), numText);
    ExecContinues(vm2, numText);
  }

  /** Joining `stri` and `ng` interns `string` as symbol 4. */
  lemma ConcatenateSecond(it: CloxInterner.Interner)
    requires it.names == ["st", "ri", "ng", "stri"] && "string" !in it.ids
    ensures Concatenate(it, 3, 2) == Some((CloxInterner.Interner(it.ids["string" := 4], it.names + ["string"]), String(4)))
  {
    assert "stri" + "ng" == "string";
    assert CloxInterner.Intern(it, "string") == (CloxInterner.Interner(it.ids["string" := 4], it.names + ["string"]), 4);
  }

  /** `stri` + `"ng"` interns `string` as symbol 4. */
  lemma AppendSecond(c: Code, it: CloxInterner.Interner, numText: Render<real>)
    requires AppendChunk(c) && it.names == ["st", "ri", "ng", "stri"] && "string" !in it.ids
    ensures Exec(Vm(c, 3, [String(3)], it), numText) ==
              Exec(Vm(c, 5, [String(4)], CloxInterner.Interner(it.ids["string" := 4], it.names + ["string"])), numText)
  {
    var it4 := CloxInterner.Interner(it.ids["string" := 4], it.names + ["string"]);
    var vm3 := Vm(c, 3, [String(3)], it);
    var vm4 := Vm(c, 4, [String(3), String(2)], it);
    assert Step(vm3, numText) == Continue(vm4);
    ConcatenateSecond(it);
    AddStringsStep(vm4, 3, 2, it4, String(4), numText);
    ExecContinues(vm3, numText);
    ExecContinues(vm4, numText);
  }


  /** The final `Return` renders symbol 4 as its text. */
  lemma AppendReturn(c: Code, it: CloxInterner.Interner, numText: Render<real>)
    requires AppendChunk(c) && |it.names| == 5 && it.names[4] == "string"
    ensures Exec(Vm(c, 5, [String(4)], it), numText) == Returned("string", it)
  {
    var vm5 := Vm(c, 5, [String(4)], it);
    assert c.instructions[5].code == CloxChunk.Return;
    assert Step(vm5, numText) == Halt(Returned("string", it));
  }

  /** `"st" + "ri" + "ng"` returns `string`, and the interner then holds
      the three literals, `stri` and `string`, in that order. */
  lemma AppendStringsExample(c: Code, it: CloxInterner.Interner, numText: Render<real>)
    requires AppendChunk(c) && it.names == ["st", "ri", "ng"] && it.ids.Keys == {"st", "ri", "ng"}
    ensures var r := Run(c, it, numText);
            r.Returned? && r.text == "string" && r.interner.names == ["st", "ri", "ng", "stri", "string"]
  {
    AppendFirst(c, it, numText);
    var it3 := CloxInterner.Interner(it.ids["stri" := 3], it.names + ["stri"]);
    assert "string" !in it3.ids;
    AppendSecond(c, it3, numText);
    var it4 := CloxInterner.Interner(it3.ids["string" := 4], it3.names + ["string"]);
    AppendReturn(c, it4, numText);
  }
}
