/** Bytecode chunks (ch17/src/lox/chunk.rs): a list of instructions, each
    with its source line, and a constant pool. The opcode set is that of
    the later chapters, which the compiler and the VM share; the
    disassembler knows the seven opcodes of its own chapter. The constant
    type is a parameter: plain numbers there, tagged values later. */
module CloxChunk {
  import opened Util

  datatype OpCode =
    | Constant(index: nat)
    | Nil | True | False
    | Pop
    | DefineGlobal(symbol: nat)
    | Equal | Greater | Less
    | Add | Subtract | Multiply | Divide
    | Not | Negate
    | Print
    | Return

  datatype Instruction = Instruction(code: OpCode, line: nat)

  datatype Chunk<V> = Chunk(instructions: seq<Instruction>, constants: seq<V>)

  /** `Chunk::new`. */
  function NewChunk<V>(): (c: Chunk<V>)
    ensures |c.instructions| == 0 && |c.constants| == 0
  {
    Chunk([], [])
  }

  /** `add_constant`: the index the value gets is the pool's previous
      length; the instructions are untouched. */
  function AddConstant<V>(c: Chunk<V>, v: V): (r: (Chunk<V>, nat))
    ensures r.1 == |c.constants| && r.1 < |r.0.constants| && r.0.constants[r.1] == v
    ensures r.0.constants[..(r.1)] == c.constants && |r.0.constants| == |c.constants| + 1
    ensures r.0.instructions == c.instructions
  {
    (Chunk(c.instructions, c.constants + [v]), |c.constants|)
  }

  /** `write_chunk`: one instruction appended; the pool is untouched. */
  function WriteChunk<V>(c: Chunk<V>, code: OpCode, line: nat): (r: Chunk<V>)
    ensures |r.instructions| == |c.instructions| + 1 && r.instructions[..|c.instructions|] == c.instructions
    ensures r.instructions[|c.instructions|] == Instruction(code, line)
    ensures r.constants == c.constants
  {
    Chunk(c.instructions + [Instruction(code, line)], c.constants)
  }

  /** Every constant instruction names a slot of the pool. */
  predicate ConstantsInRange<V>(c: Chunk<V>) {
    forall i :: 0 <= i < |c.instructions| && c.instructions[i].code.Constant? ==>
      c.instructions[i].code.index < |c.constants|
  }

  /** The opcodes the disassembler of this chapter has a case for. */
  predicate Disassemblable(op: OpCode) {
    op.Constant? || op.Add? || op.Subtract? || op.Multiply? || op.Divide? || op.Negate? || op.Return?
  }

  /** The name the disassembler prints for an opcode: `OP_` and the
      opcode in capitals, short enough for the 16-wide name column. */
  function OpName(op: OpCode): (r: string)
    requires Disassemblable(op)
    ensures 4 <= |r| <= 16 && r[..3] == "OP_"
  {
    match op
    case Constant(_) => "OP_CONSTANT"
    case Add => "OP_ADD"
    case Subtract => "OP_SUBTRACT"
    case Multiply => "OP_MULTIPLY"
    case Divide => "OP_DIVIDE"
    case Negate => "OP_NEGATE"
    case Return => "OP_RETURN"
  }

  /** Distinct opcodes print distinct names; all constants share one. */
  lemma OpNameInjective(a: OpCode, b: OpCode)
    requires Disassemblable(a) && Disassemblable(b)
    ensures OpName(a) == OpName(b) <==> a == b || (a.Constant? && b.Constant?)
  {
  }

  /** The line column: `   | ` when the line repeats the previous
      instruction's, else the line right-aligned in four columns. */
  function LineColumn<V>(c: Chunk<V>, offset: nat): (r: string)
    requires offset < |c.instructions|
    ensures |r| >= 5 && r[|r| - 1] == ' '
    ensures offset > 0 && c.instructions[offset].line == c.instructions[offset - 1].line <==> r == "   | "
    ensures !(offset > 0 && c.instructions[offset].line == c.instructions[offset - 1].line) ==>
              r == PadLeft(NatToString(c.instructions[offset].line), 4, ' ') + " "
  {
    if offset > 0 && c.instructions[offset].line == c.instructions[offset - 1].line then "   | "
    else
      var r := PadLeft(NatToString(c.instructions[offset].line), 4, ' ') + " ";
      assert r[|r| - 2] != '|' by {
        assert r[|r| - 2] == NatToString(c.instructions[offset].line)[|NatToString(c.instructions[offset].line)| - 1];
      }
      r
  }

  /** The offset zero-padded to four digits, then the line column. */
  function EntryHead<V>(c: Chunk<V>, offset: nat): string
    requires offset < |c.instructions|
  {
    PadLeft(NatToString(offset), 4, '0') + " " + LineColumn(c, offset)
  }

  /** The opcode part of an entry; `None` is the panic of a constant index
      outside the pool. */
  function EntryBody<V>(c: Chunk<V>, show: Render<V>, offset: nat): Option<string>
    requires offset < |c.instructions| && Disassemblable(c.instructions[offset].code)
  {
    match c.instructions[offset].code
    case Constant(k) =>
      if k < |c.constants| then
        Some(PadRight("OP_CONSTANT", 16) + " " + PadLeft(NatToString(k), 4, ' ') + " '" + show(c.constants[k]) + "\n")
      else None
    case op => Some(OpName(op) + "\n")
  }

  /** `disassemble_instruction`: the offset zero-padded to four digits,
      the line column, then the opcode; a constant shows its name padded
      to sixteen, its index in four columns and a quote before the value.
      `None` is the panic of a constant index outside the pool. */
  function DisassembleInstruction<V>(c: Chunk<V>, show: Render<V>, offset: nat): (r: Option<string>)
    requires offset < |c.instructions| && Disassemblable(c.instructions[offset].code)
    ensures r.None? <==> c.instructions[offset].code.Constant? && c.instructions[offset].code.index >= |c.constants|
    ensures var p := PadLeft(NatToString(offset), 4, '0') + " ";
            r.Some? ==> |p| <= |r.value| && r.value[..|p|] == p
    ensures r.Some? ==>
              var head := PadLeft(NatToString(offset), 4, '0') + " " + LineColumn(c, offset);
              match c.instructions[offset].code
              case Constant(k) =>
                k < |c.constants| &&
                r.value == head + PadRight("OP_CONSTANT", 16) + " " + PadLeft(NatToString(k), 4, ' ') + " '" +
                           show(c.constants[k]) + "\n"
              case op => r.value == head + OpName(op) + "\n"
  {
    var p := PadLeft(NatToString(offset), 4, '0') + " ";
    var body := EntryBody(c, show, offset);
    if body.None? then None
    else
      assert (EntryHead(c, offset) + body.value)[..|p|] == p;
      Some(EntryHead(c, offset) + body.value)
  }

  /** The entries for instructions `from..` in order. */
  function Entries<V>(c: Chunk<V>, show: Render<V>, from: nat): Option<string>
    requires from <= |c.instructions|
    requires forall i :: 0 <= i < |c.instructions| ==> Disassemblable(c.instructions[i].code)
    decreases |c.instructions| - from
  {
    if from == |c.instructions| then Some("")
    else
      var e := DisassembleInstruction(c, show, from);
      var rest := Entries(c, show, from + 1);
      if e.None? || rest.None? then None else Some(e.value + rest.value)
  }

  /** `disassemble`: a `== NAME ==` header line, then one entry per
      instruction. */
  function Disassemble<V>(c: Chunk<V>, name: string, show: Render<V>): (r: Option<string>)
    requires forall i :: 0 <= i < |c.instructions| ==> Disassemblable(c.instructions[i].code)
    ensures r.Some? ==> |name| + 7 <= |r.value| && r.value[..|name| + 7] == "== " + name + " ==\n"
  {
    var e := Entries(c, show, 0);
    if e.None? then None else Some("== " + name + " ==\n" + e.value)
  }

  /** The disassembly fails exactly when some constant instruction points
      outside the pool, and otherwise is the header followed by each
      instruction's entry. */
  lemma {:induction false} EntriesSpec<V>(c: Chunk<V>, show: Render<V>, from: nat)
    requires from <= |c.instructions|
    requires forall i :: 0 <= i < |c.instructions| ==> Disassemblable(c.instructions[i].code)
    ensures Entries(c, show, from).None? <==>
              exists i :: from <= i < |c.instructions| && DisassembleInstruction(c, show, i).None?
    ensures from < |c.instructions| && Entries(c, show, from).Some? ==>
              Entries(c, show, from).value ==
                DisassembleInstruction(c, show, from).value + Entries(c, show, from + 1).value
    decreases |c.instructions| - from
  {
    if from < |c.instructions| {
      EntriesSpec(c, show, from + 1);
      var e := DisassembleInstruction(c, show, from);
      var rest := Entries(c, show, from + 1);
      assert Entries(c, show, from) == if e.None? || rest.None? then None else Some(e.value + rest.value);
      if e.Some? && rest.Some? {
        forall i | from <= i < |c.instructions|
          ensures DisassembleInstruction(c, show, i).Some?
        {
          if i > from {
            assert !DisassembleInstruction(c, show, i).None?;
          }
        }
      }
    }
  }

  /** The chunk of the disassembler's test: a constant and a return, both
      on line 123. */
  function ExampleChunk(): Chunk<real> {
    Chunk([Instruction(Constant(0), 123), Instruction(Return, 123)], [1.2])
  }

  /** The test chunk's first entry, piece by piece: offset and line
      column, then the constant's name, index and value. */
  lemma ExampleConstantEntry(show: Render<real>)
    requires show(1.2) == "1.2"
    ensures EntryHead(ExampleChunk(), 0) == "0000  123 "
    ensures EntryBody(ExampleChunk(), show, 0) == Some("OP_CONSTANT     " + " " + "   0" + " '" + "1.2" + "\n")
  {
    ExampleConstantHead();
    ExampleConstantBody(show);
  }

  /** The offset and line columns of the test's first entry. */
  lemma ExampleConstantHead()
    ensures EntryHead(ExampleChunk(), 0) == "0000  123 "
  {
    var c := ExampleChunk();
    assert NatToString(123) == "123";
    assert NatToString(0) == "0";
    assert PadLeft("0", 4, '0') == "0000";
    assert PadLeft("123", 4, ' ') == " 123";
    assert LineColumn(c, 0) == " 123 ";
  }

  /** The opcode part of the test's first entry. */
  lemma ExampleConstantBody(show: Render<real>)
    requires show(1.2) == "1.2"
    ensures EntryBody(ExampleChunk(), show, 0) == Some("OP_CONSTANT     " + " " + "   0" + " '" + "1.2" + "\n")
  {
    var c := ExampleChunk();
    assert NatToString(0) == "0";
    assert c.instructions[0].code == Constant(0) && c.constants[0] == 1.2;
    assert PadLeft("0", 4, ' ') == "   0";
    assert PadRight("OP_CONSTANT", 16) == "OP_CONSTANT     ";
  }

  /** The test chunk's second entry: same line, so the line column is a bar. */
  lemma ExampleReturnEntry(show: Render<real>)
    ensures EntryHead(ExampleChunk(), 1) == "0001    | "
    ensures EntryBody(ExampleChunk(), show, 1) == Some("OP_RETURN" + "\n")
  {
    var c := ExampleChunk();
    assert NatToString(1) == "1";
    assert PadLeft("1", 4, '0') == "0001";
    assert LineColumn(c, 1) == "   | ";
    assert c.instructions[1].code == Return;
  }

  /** The chunk of the disassembler's test prints as the test expects. */
  lemma DisassemblyExample(show: Render<real>)
    requires show(1.2) == "1.2"
    ensures Disassemble(ExampleChunk(), "test chunk", show)
            == Some("== test chunk ==\n"
                    + (("0000  123 " + ("OP_CONSTANT     " + " " + "   0" + " '" + "1.2" + "\n"))
                       + ("0001    | " + ("OP_RETURN" + "\n"))))
  {
    var c := ExampleChunk();
    ExampleConstantEntry(show);
    ExampleReturnEntry(show);
    var e0 := "0000  123 " + ("OP_CONSTANT     " + " " + "   0" + " '" + "1.2" + "\n");
    var e1 := "0001    | " + ("OP_RETURN" + "\n");
    assert DisassembleInstruction(c, show, 0) == Some(e0);
    assert DisassembleInstruction(c, show, 1) == Some(e1);
    assert Entries(c, show, 2) == Some("");
    assert e1 + "" == e1;
    assert Entries(c, show, 1) == Some(e1);
    assert Entries(c, show, 0) == Some(e0 + e1);
    assert "== " + "test chunk" + " ==\n" == "== test chunk ==\n";
  }
}
