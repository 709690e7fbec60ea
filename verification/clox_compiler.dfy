/** The single-pass Pratt compiler (ch21/src/lox/compiler.rs): it pulls
    tokens from the scanner one at a time and writes bytecode and constants
    into a chunk, interning string literals and global names on the way.

    The scanner is represented by the stream of tokens it would hand out
    (`CloxScanner.Stream`): `next` counts the tokens taken so far, and once
    the final EOF has been taken every further request yields it again. A
    stream that ends in a scanner panic panics on the request past its last
    token.

    Kept as written:
    - `==` has `Comparison` precedence while `!=` has `Equality`;
    - `compile` compiles one declaration and stops; a stream whose first
      token is EOF never leaves the loop that skips EOF tokens;
    - `parse_variable` compares the current token with an identifier whose
      text is empty, so only an empty identifier is accepted as a variable
      name, and `DefineGlobal` carries the name's symbol, not a constant
      index. */
module CloxCompiler {
  import opened Util
  import opened CloxScanner
  import CloxChunk
  import CloxValue
  import CloxInterner

  type Code = CloxChunk.Chunk<CloxValue.Value>

  // ---------------------------------------------------------------------
  // Precedence levels
  // ---------------------------------------------------------------------

  datatype Precedence =
    | PNone | PAssignment | POr | PAnd | PEquality | PComparison
    | PTerm | PFactor | PUnary | PCall | PPrimary

  /** `Precedence::value`: the level's position in the declaration. */
  function Level(p: Precedence): (v: nat)
    ensures v <= 10
    ensures v == 0 <==> p == PNone
  {
    match p
    case PNone => 0
    case PAssignment => 1
    case POr => 2
    case PAnd => 3
    case PEquality => 4
    case PComparison => 5
    case PTerm => 6
    case PFactor => 7
    case PUnary => 8
    case PCall => 9
    case PPrimary => 10
  }

  /** `Precedence::from_value` on a `u8`: the level at that position, and
      `None` for anything past the last one. */
  function FromValue(v: nat): (p: Precedence)
    requires v < 256
    ensures v <= 10 ==> Level(p) == v
    ensures v > 10 ==> p == PNone
  {
    if v == 0 then PNone
    else if v == 1 then PAssignment
    else if v == 2 then POr
    else if v == 3 then PAnd
    else if v == 4 then PEquality
    else if v == 5 then PComparison
    else if v == 6 then PTerm
    else if v == 7 then PFactor
    else if v == 8 then PUnary
    else if v == 9 then PCall
    else if v == 10 then PPrimary
    else PNone
  }

  /** Every level survives the trip through its value. */
  lemma LevelRoundTrip(p: Precedence)
    ensures FromValue(Level(p)) == p
  {
  }

  /** `Precedence::add`: the level `k` steps higher, `None` past the top.
      The `u8` sum cannot overflow for the steps the compiler takes. */
  function AddLevel(p: Precedence, k: nat): (r: Precedence)
    requires Level(p) + k < 256
    ensures Level(p) + k <= 10 ==> Level(r) == Level(p) + k
    ensures Level(p) + k > 10 ==> r == PNone
  {
    FromValue(Level(p) + k)
  }

  // ---------------------------------------------------------------------
  // The rule table
  // ---------------------------------------------------------------------

  /** The parse functions a rule can name. */
  datatype ParseFn = GroupingFn | UnaryFn | BinaryFn | StringFn | NumberFn | LiteralFn

  datatype ParseRule = ParseRule(prefix: Option<ParseFn>, infix: Option<ParseFn>, precedence: Precedence)

  /** The tokens with an infix rule. */
  predicate IsBinaryOperator(k: TokenType) {
    k == Minus || k == Plus || k == Slash || k == Star ||
    k == BangEqual || k == EqualEqual || k == Greater || k == GreaterEqual ||
    k == Less || k == LessEqual
  }

  /** `get_rule`. Only binary operators have an infix rule, and a token has
      a precedence exactly when it has one; each prefix function serves
      exactly the tokens it parses; EOF has no rule at all. */
  function GetRule(k: TokenType): (r: ParseRule)
    ensures r.infix.Some? <==> IsBinaryOperator(k)
    ensures r.infix.Some? ==> r.infix == Some(BinaryFn)
    ensures r.precedence != PNone <==> IsBinaryOperator(k)
    ensures r.prefix == Some(GroupingFn) <==> k == LeftParen
    ensures r.prefix == Some(UnaryFn) <==> k == Minus || k == Bang
    ensures r.prefix == Some(StringFn) <==> k.String?
    ensures r.prefix == Some(NumberFn) <==> k.Number?
    ensures r.prefix == Some(LiteralFn) <==> k == Nil || k == True || k == False
    ensures k == EOF ==> r == ParseRule(None, None, PNone)
  {
    match k
    case LeftParen => ParseRule(Some(GroupingFn), None, PNone)
    case RightParen => ParseRule(None, None, PNone)
    case Minus => ParseRule(Some(UnaryFn), Some(BinaryFn), PTerm)
    case Plus => ParseRule(None, Some(BinaryFn), PTerm)
    case Slash => ParseRule(None, Some(BinaryFn), PFactor)
    case Star => ParseRule(None, Some(BinaryFn), PFactor)
    case Bang => ParseRule(Some(UnaryFn), None, PNone)
    case BangEqual => ParseRule(None, Some(BinaryFn), PEquality)
    case EqualEqual => ParseRule(None, Some(BinaryFn), PComparison)
    case Greater => ParseRule(None, Some(BinaryFn), PComparison)
    case GreaterEqual => ParseRule(None, Some(BinaryFn), PComparison)
    case Less => ParseRule(None, Some(BinaryFn), PComparison)
    case LessEqual => ParseRule(None, Some(BinaryFn), PComparison)
    case String(_) => ParseRule(Some(StringFn), None, PNone)
    case Number(_) => ParseRule(Some(NumberFn), None, PNone)
    case Nil => ParseRule(Some(LiteralFn), None, PNone)
    case True => ParseRule(Some(LiteralFn), None, PNone)
    case False => ParseRule(Some(LiteralFn), None, PNone)
    case _ => ParseRule(None, None, PNone)
  }

  /** Multiplication and division bind tighter than addition and
      subtraction, which bind tighter than the comparisons; `==` sits with
      the comparisons, above `!=`. */
  lemma OperatorLevels()
    ensures Level(GetRule(Star).precedence) == Level(GetRule(Slash).precedence) > Level(GetRule(Plus).precedence)
    ensures Level(GetRule(Plus).precedence) == Level(GetRule(Minus).precedence) > Level(GetRule(Less).precedence)
    ensures Level(GetRule(EqualEqual).precedence) == Level(GetRule(Less).precedence) > Level(GetRule(BangEqual).precedence)
  {
    assert GetRule(Star).precedence == PFactor && GetRule(Slash).precedence == PFactor;
    assert GetRule(Plus).precedence == PTerm && GetRule(Minus).precedence == PTerm;
    assert GetRule(EqualEqual).precedence == PComparison && GetRule(Less).precedence == PComparison;
    assert GetRule(BangEqual).precedence == PEquality;
  }

  /** The code `binary` emits after both operands: the negated comparisons
      are a comparison followed by `Not`. */
  function BinaryCode(k: TokenType): seq<CloxChunk.OpCode> {
    match k
    case BangEqual => [CloxChunk.Equal, CloxChunk.Not]
    case EqualEqual => [CloxChunk.Equal]
    case Greater => [CloxChunk.Greater]
    case GreaterEqual => [CloxChunk.Less, CloxChunk.Not]
    case Less => [CloxChunk.Less]
    case LessEqual => [CloxChunk.Greater, CloxChunk.Not]
    case Plus => [CloxChunk.Add]
    case Minus => [CloxChunk.Subtract]
    case Star => [CloxChunk.Multiply]
    case Slash => [CloxChunk.Divide]
    case _ => []
  }

  /** Every binary operator emits one or two opcodes, two exactly for
      `!=`, `>=` and `<=`, the second of which is `Not`. */
  lemma BinaryCodeShape(k: TokenType)
    requires IsBinaryOperator(k)
    ensures 1 <= |BinaryCode(k)| <= 2
    ensures |BinaryCode(k)| == 2 <==> k == BangEqual || k == GreaterEqual || k == LessEqual
    ensures |BinaryCode(k)| == 2 ==> BinaryCode(k)[1] == CloxChunk.Not
  {
  }

  /** The code `unary` emits after its operand. */
  function UnaryCode(k: TokenType): seq<CloxChunk.OpCode> {
    match k
    case Bang => [CloxChunk.Not]
    case Minus => [CloxChunk.Negate]
    case _ => []
  }

  /** The statement keywords `synchronize` stops in front of. */
  predicate StartsStatement(k: TokenType) {
    k == Class || k == Fun || k == Var || k == For || k == If || k == While || k == Print || k == Return
  }

  // ---------------------------------------------------------------------
  // Parser state
  // ---------------------------------------------------------------------

  /** The parser between steps: how many tokens it has taken from the
      stream, the previous and current token, the chunk being written and
      the shared interner. */
  datatype Parser = Parser(
    next: nat,
    previous: Option<Token>,
    current: Option<Token>,
    chunk: Code,
    interner: CloxInterner.Interner)

  /** `ParserError`: the token it points at, if any, and the message. */
  datatype ParserError = ParserError(token: Option<Token>, message: string)

  /** The outcome of a parse step: success, an error (with the state where
      it was raised, from which `synchronize` continues), or a panic of the
      scanner or of an `unwrap`. */
  datatype Step = Ok(p: Parser) | Failed(error: ParserError, p: Parser) | Panicked

  /** The state agrees with the stream: the current token is the last one
      taken, and the chunk's constant instructions point into its pool. */
  predicate Scanning(s: Stream, p: Parser) {
    WellEnded(s) && 1 <= p.next <= |s.tokens| && p.current == Some(s.tokens[p.next - 1]) &&
    CloxChunk.ConstantsInRange(p.chunk)
  }

  /** A state after at least one step past the initial one. */
  predicate Ready(s: Stream, p: Parser) {
    Scanning(s, p) && p.previous.Some?
  }

  /** `q` is a state reachable from `p`: no token given back, and code,
      constants and interned strings only appended to. */
  predicate Grows(s: Stream, p: Parser, q: Parser) {
    Ready(s, q) && p.next <= q.next &&
    p.chunk.instructions <= q.chunk.instructions &&
    p.chunk.constants <= q.chunk.constants &&
    p.interner.names <= q.interner.names
  }

  predicate Sound(s: Stream, p: Parser, r: Step) {
    r.Panicked? || Grows(s, p, r.p)
  }

  lemma GrowsTrans(s: Stream, a: Parser, b: Parser, c: Parser)
    requires Grows(s, a, b) && Grows(s, b, c)
    ensures Grows(s, a, c)
  {
    assert a.chunk.instructions <= c.chunk.instructions by {
      assert c.chunk.instructions[..|a.chunk.instructions|] == c.chunk.instructions[..|b.chunk.instructions|][..|a.chunk.instructions|];
    }
    assert a.chunk.constants <= c.chunk.constants by {
      assert c.chunk.constants[..|a.chunk.constants|] == c.chunk.constants[..|b.chunk.constants|][..|a.chunk.constants|];
    }
    assert a.interner.names <= c.interner.names by {
      assert c.interner.names[..|a.interner.names|] == c.interner.names[..|b.interner.names|][..|a.interner.names|];
    }
  }

  /** A step from `a` that first reached `b` is sound for `a` too. */
  lemma SoundChain(s: Stream, a: Parser, b: Parser, r: Step)
    requires Grows(s, a, b) && Sound(s, b, r)
    ensures Sound(s, a, r)
  {
    if !r.Panicked? {
      GrowsTrans(s, a, b, r.p);
    }
  }

  // ---------------------------------------------------------------------
  // Token cursor
  // ---------------------------------------------------------------------

  /** The scanner's answer to one more request: the next token of the
      stream, the final EOF again once it has been taken, or `None` for the
      panic that ends a panicking stream. */
  function NextToken(s: Stream, next: nat): (r: Option<(Token, nat)>)
    requires WellEnded(s) && next <= |s.tokens|
    ensures r.None? <==> next == |s.tokens| && s.panics
    ensures r.Some? ==> 1 <= r.value.1 <= |s.tokens| && r.value.0 == s.tokens[r.value.1 - 1]
    ensures r.Some? && next < |s.tokens| ==> r.value.1 == next + 1
    ensures r.Some? && next == |s.tokens| ==> r.value.1 == next && r.value.0.kind == EOF
  {
    if next < |s.tokens| then Some((s.tokens[next], next + 1))
    else if s.panics then None
    else Some((s.tokens[next - 1], next))
  }

  /** `advance`: the current token becomes the previous one and the next
      token becomes current; an error token is reported at itself. Taking a
      token other than EOF always moves along the stream. */
  function Advance(s: Stream, p: Parser): (r: Step)
    requires WellEnded(s) && p.next <= |s.tokens| && CloxChunk.ConstantsInRange(p.chunk)
    ensures r.Panicked? <==> p.next == |s.tokens| && s.panics
    ensures !r.Panicked? ==> (Scanning(s, r.p) && r.p.previous == p.current &&
                              r.p.chunk == p.chunk && r.p.interner == p.interner && p.next <= r.p.next)
    ensures !r.Panicked? && p.next < |s.tokens| ==> r.p.next == p.next + 1
    ensures r.Failed? <==> !r.Panicked? && r.p.current.value.kind.Error?
    ensures r.Failed? ==> r.error == ParserError(r.p.current, r.p.current.value.kind.message)
    ensures Scanning(s, p) ==> Sound(s, p, r)
  {
    var t := NextToken(s, p.next);
    if t.None? then Panicked
    else
      var (tok, n) := t.value;
      var q := p.(next := n, previous := p.current, current := Some(tok));
      if tok.kind.Error? then Failed(ParserError(Some(tok), tok.kind.message), q) else Ok(q)
  }

  /** Only EOF can be current at the end of a stream that does not panic,
      so advancing over any other token takes a new one. */
  lemma AdvanceProgress(s: Stream, p: Parser)
    requires Scanning(s, p) && p.current.value.kind != EOF
    ensures var r := Advance(s, p); !r.Panicked? ==> r.p.next == p.next + 1
  {
  }

  /** `check`: the current token has exactly this type, payload included. */
  predicate Check(p: Parser, k: TokenType)
    requires p.current.Some?
  {
    p.current.value.kind == k
  }

  /** `consume`: advance over a token of the expected type, else an error
      at the current token with the given message. */
  function Consume(s: Stream, p: Parser, k: TokenType, message: string): (r: Step)
    requires Ready(s, p)
    ensures Sound(s, p, r)
    ensures !Check(p, k) ==> r == Failed(ParserError(p.current, message), p)
    ensures Check(p, k) ==> r == Advance(s, p)
  {
    if Check(p, k) then Advance(s, p)
    else Failed(ParserError(p.current, message), p)
  }

  // ---------------------------------------------------------------------
  // Emitting code
  // ---------------------------------------------------------------------

  /** The code of a chunk ends with these opcodes. */
  predicate EndsWith(ins: seq<CloxChunk.Instruction>, codes: seq<CloxChunk.OpCode>) {
    |codes| <= |ins| && forall i :: 0 <= i < |codes| ==> ins[|ins| - |codes| + i].code == codes[i]
  }

  /** `emit_byte`: one instruction stamped with the previous token's line. */
  function Emit(p: Parser, op: CloxChunk.OpCode): (q: Parser)
    requires p.previous.Some?
    requires CloxChunk.ConstantsInRange(p.chunk)
    requires op.Constant? ==> op.index < |p.chunk.constants|
    ensures q.chunk.instructions == p.chunk.instructions + [CloxChunk.Instruction(op, p.previous.value.line)]
    ensures q.chunk.constants == p.chunk.constants && CloxChunk.ConstantsInRange(q.chunk)
    ensures q == p.(chunk := q.chunk)
  {
    var c := CloxChunk.WriteChunk(p.chunk, op, p.previous.value.line);
    assert forall i :: 0 <= i < |c.instructions| - 1 ==> c.instructions[i] == p.chunk.instructions[i];
    p.(chunk := c)
  }

  /** `emit_bytes`: the opcodes in order, each on the previous token's line. */
  function EmitAll(p: Parser, codes: seq<CloxChunk.OpCode>): (q: Parser)
    requires p.previous.Some?
    requires CloxChunk.ConstantsInRange(p.chunk)
    requires forall i :: 0 <= i < |codes| ==> !codes[i].Constant?
    ensures |q.chunk.instructions| == |p.chunk.instructions| + |codes|
    ensures p.chunk.instructions <= q.chunk.instructions
    ensures forall i :: 0 <= i < |codes| ==>
              q.chunk.instructions[|p.chunk.instructions| + i] == CloxChunk.Instruction(codes[i], p.previous.value.line)
    ensures q.chunk.constants == p.chunk.constants && CloxChunk.ConstantsInRange(q.chunk)
    ensures q == p.(chunk := q.chunk)
    decreases |codes|
  {
    if codes == [] then p
    else
      var q := EmitAll(Emit(p, codes[0]), codes[1..]);
      assert forall i :: 1 <= i < |codes| ==> codes[1..][i - 1] == codes[i];
      q
  }

  /** Appending one opcode grows the state and leaves it at the end. */
  lemma EmitGrows(s: Stream, p: Parser, op: CloxChunk.OpCode)
    requires Ready(s, p) && !op.Constant?
    ensures Grows(s, p, Emit(p, op))
    ensures EndsWith(Emit(p, op).chunk.instructions, [op])
  {
  }

  /** Appending opcodes grows the state and leaves them at the end. */
  lemma EmitAllGrows(s: Stream, p: Parser, codes: seq<CloxChunk.OpCode>)
    requires Ready(s, p)
    requires forall i :: 0 <= i < |codes| ==> !codes[i].Constant?
    ensures Grows(s, p, EmitAll(p, codes))
    ensures EndsWith(EmitAll(p, codes).chunk.instructions, codes)
  {
    var q := EmitAll(p, codes);
    assert |q.chunk.instructions| - |codes| == |p.chunk.instructions|;
  }

  /** `emit_constant`: the value goes to the end of the pool and a
      `Constant` instruction with its index is emitted. */
  function EmitConstant(p: Parser, v: CloxValue.Value): (q: Parser)
    requires p.previous.Some?
    requires CloxChunk.ConstantsInRange(p.chunk)
    ensures q.chunk.constants == p.chunk.constants + [v]
    ensures q.chunk.instructions ==
              p.chunk.instructions + [CloxChunk.Instruction(CloxChunk.Constant(|p.chunk.constants|), p.previous.value.line)]
    ensures CloxChunk.ConstantsInRange(q.chunk)
    ensures q == p.(chunk := q.chunk)
  {
    var (c, i) := CloxChunk.AddConstant(p.chunk, v);
    Emit(p.(chunk := c), CloxChunk.Constant(i))
  }

  // ---------------------------------------------------------------------
  // Expressions
  // ---------------------------------------------------------------------

  /** `string`: the literal's text is interned and its symbol stored as a
      constant. */
  function StringLiteral(p: Parser): (q: Parser)
    requires p.previous.Some? && CloxChunk.ConstantsInRange(p.chunk)
    ensures p.chunk.instructions <= q.chunk.instructions && p.chunk.constants <= q.chunk.constants
    ensures p.interner.names <= q.interner.names && CloxChunk.ConstantsInRange(q.chunk)
    ensures q.next == p.next && q.previous == p.previous && q.current == p.current
    ensures p.previous.value.kind.String? ==> |q.chunk.instructions| == |p.chunk.instructions| + 1
  {
    match p.previous.value.kind
    case String(text) =>
      var (it, id) := CloxInterner.Intern(p.interner, text);
      EmitConstant(p.(interner := it), CloxValue.String(id))
    case _ => p
  }

  /** `number`: the literal's value becomes a constant; any other token is
      reported at the current token. */
  function NumberLiteral(s: Stream, p: Parser): (r: Step)
    requires Ready(s, p)
    ensures Sound(s, p, r) && !r.Panicked?
    ensures r.Ok? <==> p.previous.value.kind.Number?
    ensures r.Ok? ==> r.p.chunk.constants == p.chunk.constants + [CloxValue.Number(p.previous.value.kind.n)] &&
                      EndsWith(r.p.chunk.instructions, [CloxChunk.Constant(|p.chunk.constants|)])
    ensures r.Failed? ==> r == Failed(ParserError(p.current, "Expected number."), p)
  {
    match p.previous.value.kind
    case Number(n) => Ok(EmitConstant(p, CloxValue.Number(n)))
    case _ => Failed(ParserError(p.current, "Expected number."), p)
  }

  /** `literal`: `true`, `false` and `nil` push their value. */
  function Literal(p: Parser): (q: Parser)
    requires p.previous.Some? && CloxChunk.ConstantsInRange(p.chunk)
    ensures q == p.(chunk := q.chunk) && q.chunk.constants == p.chunk.constants && CloxChunk.ConstantsInRange(q.chunk)
    ensures p.chunk.instructions <= q.chunk.instructions
    ensures p.previous.value.kind == True ==> q.chunk.instructions == p.chunk.instructions + [CloxChunk.Instruction(CloxChunk.True, p.previous.value.line)]
    ensures p.previous.value.kind == False ==> q.chunk.instructions == p.chunk.instructions + [CloxChunk.Instruction(CloxChunk.False, p.previous.value.line)]
    ensures p.previous.value.kind == Nil ==> q.chunk.instructions == p.chunk.instructions + [CloxChunk.Instruction(CloxChunk.Nil, p.previous.value.line)]
  {
    match p.previous.value.kind
    case True => Emit(p, CloxChunk.True)
    case False => Emit(p, CloxChunk.False)
    case Nil => Emit(p, CloxChunk.Nil)
    case _ => p
  }

  /** The rule a parse function is dispatched under: the prefix rule of the
      token just taken, or its infix rule. */
  predicate Dispatched(p: Parser, f: ParseFn)
    requires p.previous.Some?
  {
    GetRule(p.previous.value.kind).prefix == Some(f) || GetRule(p.previous.value.kind).infix == Some(f)
  }

  /** `parse_precendence`: take a token and run its prefix rule, then keep
      folding infix operators while they bind at least as tightly as
      `prec`. On success the current token binds less tightly than `prec`
      and the expression has left at least one instruction. */
  function ParsePrecedence(s: Stream, prec: Precedence, p: Parser): (r: Step)
    requires Scanning(s, p)
    ensures Sound(s, p, r)
    ensures r.Ok? ==> Level(GetRule(r.p.current.value.kind).precedence) < Level(prec)
    ensures r.Ok? ==> |p.chunk.instructions| < |r.p.chunk.instructions|
    decreases |s.tokens| - p.next, 1
  {
    var a := Advance(s, p);
    if !a.Ok? then a
    else
      var rule := GetRule(a.p.previous.value.kind);
      if rule.prefix.None? then Failed(ParserError(None, "Expect expression."), a.p)
      else
        AdvanceProgress(s, p);
        var b := Apply(s, rule.prefix.value, a.p);
        SoundChain(s, p, a.p, b);
        if !b.Ok? then b
        else
          var c := InfixLoop(s, prec, b.p);
          SoundChain(s, p, b.p, c);
          c
  }

  /** The infix loop of `parse_precendence`. */
  function InfixLoop(s: Stream, prec: Precedence, p: Parser): (r: Step)
    requires Ready(s, p)
    ensures Sound(s, p, r)
    ensures r.Ok? ==> Level(GetRule(r.p.current.value.kind).precedence) < Level(prec)
    ensures r.Ok? && Level(GetRule(p.current.value.kind).precedence) < Level(prec) ==> r == Ok(p)
    decreases |s.tokens| - p.next, 0
  {
    if Level(prec) <= Level(GetRule(p.current.value.kind).precedence) then
      var a := Advance(s, p);
      if !a.Ok? then a
      else
        var rule := GetRule(a.p.previous.value.kind);
        if rule.infix.None? then Panicked
        else
          AdvanceProgress(s, p);
          var b := Apply(s, rule.infix.value, a.p);
          SoundChain(s, p, a.p, b);
          if !b.Ok? then b
          else
            var c := InfixLoop(s, prec, b.p);
            SoundChain(s, p, b.p, c);
            c
    else Ok(p)
  }

  /** Run one parse function on the token just taken. A successful parse
      function has emitted code. */
  function Apply(s: Stream, f: ParseFn, p: Parser): (r: Step)
    requires Ready(s, p) && Dispatched(p, f)
    ensures Sound(s, p, r)
    ensures r.Ok? ==> |p.chunk.instructions| < |r.p.chunk.instructions|
    decreases |s.tokens| - p.next, 3
  {
    match f
    case GroupingFn => Grouping(s, p)
    case UnaryFn => Unary(s, p)
    case BinaryFn => Binary(s, p)
    case _ => Operand(s, f, p)
  }

  /** The parse functions of literal operands, which take no further
      tokens. */
  function Operand(s: Stream, f: ParseFn, p: Parser): (r: Step)
    requires Ready(s, p) && Dispatched(p, f) && (f == StringFn || f == NumberFn || f == LiteralFn)
    ensures Sound(s, p, r)
    ensures r.Ok? ==> |p.chunk.instructions| < |r.p.chunk.instructions|
  {
    if f == StringFn then
      var q := StringLiteral(p);
      assert Grows(s, p, q);
      Ok(q)
    else if f == NumberFn then NumberLiteral(s, p)
    else
      var q := Literal(p);
      assert Grows(s, p, q);
      Ok(q)
  }

  /** `grouping`: an expression, then a closing parenthesis. */
  function Grouping(s: Stream, p: Parser): (r: Step)
    requires Ready(s, p)
    ensures Sound(s, p, r)
    ensures r.Ok? ==> |p.chunk.instructions| < |r.p.chunk.instructions| && r.p.previous.value.kind == RightParen
    decreases |s.tokens| - p.next, 2
  {
    var e := ParsePrecedence(s, PAssignment, p);
    if !e.Ok? then e
    else
      var c := Consume(s, e.p, RightParen, "Expect ')' after expression.");
      SoundChain(s, p, e.p, c);
      c
  }

  /** `unary`: the operand at `Unary` level, then the operator's opcode,
      so the operand's code comes first. */
  function Unary(s: Stream, p: Parser): (r: Step)
    requires Ready(s, p)
    ensures Sound(s, p, r)
    ensures r.Ok? ==> var code := UnaryCode(p.previous.value.kind);
                      |p.chunk.instructions| + |code| < |r.p.chunk.instructions| &&
                      EndsWith(r.p.chunk.instructions, code)
    decreases |s.tokens| - p.next, 2
  {
    var op := p.previous.value.kind;
    var e := ParsePrecedence(s, PUnary, p);
    if !e.Ok? then e
    else
      var q := EmitAll(e.p, UnaryCode(op));
      EmitAllGrows(s, e.p, UnaryCode(op));
      SoundChain(s, p, e.p, Ok(q));
      Ok(q)
  }

  /** `binary`: the right operand one level above the operator's own, then
      the operator's opcodes, so operators of one level associate to the
      left and the code of the operands precedes the operator's. */
  function Binary(s: Stream, p: Parser): (r: Step)
    requires Ready(s, p)
    ensures Sound(s, p, r)
    ensures r.Ok? ==> var code := BinaryCode(p.previous.value.kind);
                      |p.chunk.instructions| + |code| < |r.p.chunk.instructions| &&
                      EndsWith(r.p.chunk.instructions, code)
    ensures r.Ok? ==> Level(GetRule(r.p.current.value.kind).precedence) <= Level(GetRule(p.previous.value.kind).precedence)
    decreases |s.tokens| - p.next, 2
  {
    var op := p.previous.value.kind;
    var rule := GetRule(op);
    var e := ParsePrecedence(s, AddLevel(rule.precedence, 1), p);
    if !e.Ok? then e
    else
      var q := EmitAll(e.p, BinaryCode(op));
      EmitAllGrows(s, e.p, BinaryCode(op));
      SoundChain(s, p, e.p, Ok(q));
      Ok(q)
  }

  /** `expression`. */
  function Expression(s: Stream, p: Parser): (r: Step)
    requires Scanning(s, p)
    ensures Sound(s, p, r)
    ensures r.Ok? ==> |p.chunk.instructions| < |r.p.chunk.instructions| && GetRule(r.p.current.value.kind).precedence == PNone
  {
    ParsePrecedence(s, PAssignment, p)
  }

  // ---------------------------------------------------------------------
  // Statements and declarations
  // ---------------------------------------------------------------------

  /** `expression_statement` and `print_statement`: an expression, a
      semicolon, then the statement's closing opcode. */
  function ClosedStatement(s: Stream, p: Parser, message: string, close: CloxChunk.OpCode): (r: Step)
    requires Scanning(s, p) && !close.Constant?
    ensures Sound(s, p, r)
    ensures r.Ok? ==> |p.chunk.instructions| + 1 < |r.p.chunk.instructions| &&
                      EndsWith(r.p.chunk.instructions, [close]) && r.p.previous.value.kind == Semicolon
  {
    var e := Expression(s, p);
    if !e.Ok? then e
    else
      var c := Consume(s, e.p, Semicolon, message);
      SoundChain(s, p, e.p, c);
      if !c.Ok? then c
      else
        var q := Emit(c.p, close);
        EmitGrows(s, c.p, close);
        SoundChain(s, p, c.p, Ok(q));
        Ok(q)
  }

  /** `statement`: `print` starts a print statement, anything else an
      expression statement, ending in `Print` or `Pop` respectively. */
  function Statement(s: Stream, p: Parser): (r: Step)
    requires Scanning(s, p)
    ensures Sound(s, p, r)
    ensures r.Ok? ==> EndsWith(r.p.chunk.instructions, [if Check(p, Print) then CloxChunk.Print else CloxChunk.Pop])
    ensures r.Ok? ==> |p.chunk.instructions| + 1 < |r.p.chunk.instructions|
  {
    if Check(p, Print) then
      var a := Advance(s, p);
      if !a.Ok? then a
      else
        var r := ClosedStatement(s, a.p, "Expect ';' after value.", CloxChunk.Print);
        SoundChain(s, p, a.p, r);
        r
    else ClosedStatement(s, p, "Expect ';' after expression.", CloxChunk.Pop)
  }

  /** The initializer of a variable declaration: `= expression`, or an
      implicit `nil`. */
  function Initializer(s: Stream, p: Parser): (r: Step)
    requires Ready(s, p)
    ensures Sound(s, p, r)
    ensures r.Ok? ==> |p.chunk.instructions| < |r.p.chunk.instructions|
    ensures !Check(p, Equal) ==> r == Ok(Emit(p, CloxChunk.Nil))
  {
    if Check(p, Equal) then
      var a := Advance(s, p);
      if !a.Ok? then a
      else
        var e := Expression(s, a.p);
        SoundChain(s, p, a.p, e);
        e
    else
      EmitGrows(s, p, CloxChunk.Nil);
      Ok(Emit(p, CloxChunk.Nil))
  }

  /** The end of a variable declaration: a semicolon, then `DefineGlobal`
      of the name's symbol. */
  function DefineVariable(s: Stream, p: Parser, global: nat): (r: Step)
    requires Ready(s, p)
    ensures Sound(s, p, r)
    ensures r.Ok? ==> |p.chunk.instructions| < |r.p.chunk.instructions| &&
                      EndsWith(r.p.chunk.instructions, [CloxChunk.DefineGlobal(global)])
  {
    var c := Consume(s, p, Semicolon, "Expect ';' after variable declaration.");
    if !c.Ok? then c
    else
      var q := Emit(c.p, CloxChunk.DefineGlobal(global));
      EmitGrows(s, c.p, CloxChunk.DefineGlobal(global));
      SoundChain(s, p, c.p, Ok(q));
      Ok(q)
  }

  /** `parse_variable` and `identifier_constant`: consume the name, which
      is only accepted when it is the empty identifier; its text is
      interned and stored as a constant, and its symbol is the global. */
  function ParseVariable(s: Stream, p: Parser): (r: (Step, nat))
    requires Ready(s, p)
    ensures Sound(s, p, r.0)
    ensures !Check(p, Identifier("")) ==> r.0 == Failed(ParserError(p.current, "Expect variable name."), p)
    ensures r.0.Ok? ==> r.1 == CloxInterner.Intern(p.interner, "").1
  {
    var v := Consume(s, p, Identifier(""), "Expect variable name.");
    if !v.Ok? then (v, p.next)
    else
      match v.p.previous.value.kind
      case Identifier(name) =>
        var (it, id) := CloxInterner.Intern(v.p.interner, name);
        var (pool, _) := CloxChunk.AddConstant(v.p.chunk, CloxValue.String(id));
        var q := v.p.(chunk := pool, interner := it);
        assert Grows(s, v.p, q);
        SoundChain(s, p, v.p, Ok(q));
        (Ok(q), id)
      case _ => (Panicked, p.next)
  }

  /** `var_declaration`, after `var`: the name, an optional initializer,
      a semicolon, then `DefineGlobal` of the name's symbol. */
  function VarDeclaration(s: Stream, p: Parser): (r: Step)
    requires Ready(s, p)
    ensures Sound(s, p, r)
    ensures !Check(p, Identifier("")) ==> r == Failed(ParserError(p.current, "Expect variable name."), p)
    ensures r.Ok? ==> |p.chunk.instructions| < |r.p.chunk.instructions|
    ensures r.Ok? ==> EndsWith(r.p.chunk.instructions, [CloxChunk.DefineGlobal(CloxInterner.Intern(p.interner, "").1)])
  {
    var (v, global) := ParseVariable(s, p);
    if !v.Ok? then v
    else
      var m := Initializer(s, v.p);
      SoundChain(s, p, v.p, m);
      if !m.Ok? then m
      else
        var d := DefineVariable(s, m.p, global);
        SoundChain(s, p, m.p, d);
        d
  }

  /** `synchronize`: skip tokens until the previous one is a semicolon,
      the current one starts a statement, or the input ends. It stops at
      the first such point: every token it skipped was neither EOF nor a
      statement keyword, and none but the last was a semicolon. */
  function Synchronize(s: Stream, p: Parser): (r: Step)
    requires Ready(s, p)
    ensures Sound(s, p, r)
    ensures r.Ok? ==> r.p.current.value.kind == EOF || r.p.previous.value.kind == Semicolon ||
                      StartsStatement(r.p.current.value.kind)
    ensures r.Ok? ==> forall k :: p.next - 1 <= k < r.p.next - 1 ==>
                        s.tokens[k].kind != EOF && !StartsStatement(s.tokens[k].kind)
    ensures r.Ok? ==> forall k :: p.next - 1 <= k < r.p.next - 2 ==> s.tokens[k].kind != Semicolon
    ensures r.Ok? && r.p.next > p.next ==> p.previous.value.kind != Semicolon
    ensures r.Failed? ==> r.error.token == r.p.current && r.p.current.value.kind.Error?
    decreases |s.tokens| - p.next
  {
    var cur := p.current.value.kind;
    if cur == EOF || p.previous.value.kind == Semicolon || StartsStatement(cur) then Ok(p)
    else
      AdvanceProgress(s, p);
      var a := Advance(s, p);
      if !a.Ok? then a
      else
        assert a.p.next == p.next + 1 && s.tokens[p.next - 1] == p.current.value;
        var r := Synchronize(s, a.p);
        SoundChain(s, p, a.p, r);
        r
  }

  /** An error inside a declaration: synchronize, then report the
      original error unless synchronizing hits one of its own. */
  function Recover(s: Stream, r: Step): (res: Step)
    requires !r.Panicked? ==> Ready(s, r.p)
    ensures r.Ok? || r.Panicked? ==> res == r
    ensures r.Failed? ==> !res.Ok?
    ensures r.Failed? ==> Sound(s, r.p, res)
  {
    if !r.Failed? then r
    else
      var y := Synchronize(s, r.p);
      if y.Ok? then Failed(r.error, y.p) else y
  }

  /** `declaration`: a variable declaration after `var`, else a
      statement; an error is followed by synchronizing. */
  function Declaration(s: Stream, p: Parser): (r: Step)
    requires Scanning(s, p)
    ensures Sound(s, p, r)
    ensures r.Ok? ==> |p.chunk.instructions| < |r.p.chunk.instructions|
  {
    if Check(p, Var) then
      var a := Advance(s, p);
      if !a.Ok? then a
      else
        var v := VarDeclaration(s, a.p);
        SoundChain(s, p, a.p, v);
        var r := Recover(s, v);
        if v.Failed? then SoundChain(s, p, v.p, r); r else r
    else
      var v := Statement(s, p);
      var r := Recover(s, v);
      if v.Failed? then SoundChain(s, p, v.p, r); r else r
  }

  // ---------------------------------------------------------------------
  // compile
  // ---------------------------------------------------------------------

  /** The outcome of `compile`: the chunk, or the error; either way the
      shared interner as the compiler left it. A scanner or `unwrap` panic,
      and the endless loop on an input that starts at EOF, are outcomes of
      their own. */
  datatype Compilation =
    | Compiled(chunk: Code, interner: CloxInterner.Interner)
    | Rejected(error: ParserError, interner: CloxInterner.Interner)
    | CompilePanic
    | Hangs

  function Start(it: CloxInterner.Interner): Parser {
    Parser(0, None, None, CloxChunk.NewChunk(), it)
  }

  /** `compile`: take the first token; skip EOF tokens (forever, since EOF
      repeats); compile one declaration and finish with `Return`. The
      compiled chunk ends in `Return`, its constant instructions point into
      its pool, and the interner has only grown. */
  function Compile(s: Stream, it: CloxInterner.Interner): (r: Compilation)
    requires WellEnded(s)
    ensures r.Hangs? <==> |s.tokens| > 0 && s.tokens[0].kind == EOF
    ensures r.Compiled? ==> |r.chunk.instructions| >= 2 &&
                            r.chunk.instructions[|r.chunk.instructions| - 1].code == CloxChunk.Return &&
                            CloxChunk.ConstantsInRange(r.chunk) && it.names <= r.interner.names
    ensures r.Rejected? ==> it.names <= r.interner.names
  {
    var a := Advance(s, Start(it));
    match a
    case Panicked => CompilePanic
    case Failed(e, q) => Rejected(e, q.interner)
    case Ok(q) =>
      if q.current.value.kind == EOF then Hangs
      else
        var d := Declaration(s, q);
        match d
        case Panicked => CompilePanic
        case Failed(e, q2) => Rejected(e, q2.interner)
        case Ok(q2) => Compiled(Emit(q2, CloxChunk.Return).chunk, q2.interner)
  }

  // ---------------------------------------------------------------------
  // Properties
  // ---------------------------------------------------------------------

  /** A stream that reaches EOF without a scanner error. */
  predicate Clean(s: Stream) {
    !s.panics && forall i :: 0 <= i < |s.tokens| ==> !s.tokens[i].kind.Error?
  }

  /** On such a stream `synchronize` always finds its stopping point. */
  lemma {:induction false} SynchronizeSucceeds(s: Stream, p: Parser)
    requires Ready(s, p) && Clean(s)
    ensures Synchronize(s, p).Ok?
    decreases |s.tokens| - p.next
  {
    var cur := p.current.value.kind;
    if !(cur == EOF || p.previous.value.kind == Semicolon || StartsStatement(cur)) {
      AdvanceProgress(s, p);
      var a := Advance(s, p);
      assert !a.p.current.value.kind.Error?;
      SynchronizeSucceeds(s, a.p);
    }
  }

  /** `var` followed by any named identifier is rejected with "Expect
      variable name." at the name, whatever follows. */
  lemma VarNeedsEmptyName(s: Stream, p: Parser, name: string)
    requires Scanning(s, p) && Clean(s) && Check(p, Var) && p.next < |s.tokens|
    requires s.tokens[p.next].kind == Identifier(name) && name != ""
    ensures Declaration(s, p).Failed?
    ensures Declaration(s, p).error == ParserError(Some(s.tokens[p.next]), "Expect variable name.")
  {
    var a := Advance(s, p);
    assert a.Ok? && a.p.current == Some(s.tokens[p.next]);
    assert !Check(a.p, Identifier(""));
    SynchronizeSucceeds(s, a.p);
  }

  /** An instruction on line 1, as in the compiler's tests. */
  function OnLine1(op: CloxChunk.OpCode): CloxChunk.Instruction {
    CloxChunk.Instruction(op, 1)
  }

  /** A successful prefix step hands over to the infix loop. */
  lemma PrefixThenInfix(s: Stream, prec: Precedence, p: Parser, a: Parser, f: ParseFn, b: Parser)
    requires Scanning(s, p)
    requires Advance(s, p) == Ok(a) && GetRule(a.previous.value.kind).prefix == Some(f)
    requires Apply(s, f, a) == Ok(b)
    ensures Ready(s, b) && ParsePrecedence(s, prec, p) == InfixLoop(s, prec, b)
  {
  }

  /** An infix loop that folds in one operator and then meets a token of
      lower precedence. */
  lemma OneInfixStep(s: Stream, prec: Precedence, p: Parser, a: Parser, f: ParseFn, b: Parser)
    requires Ready(s, p) && Level(prec) <= Level(GetRule(p.current.value.kind).precedence)
    requires Advance(s, p) == Ok(a) && GetRule(a.previous.value.kind).infix == Some(f)
    requires Apply(s, f, a) == Ok(b) && Level(GetRule(b.current.value.kind).precedence) < Level(prec)
    ensures InfixLoop(s, prec, p) == Ok(b)
  {
  }

  /** A program of one declaration compiles to that declaration's code
      followed by `Return`. */
  lemma CompileOneDeclaration(s: Stream, it: CloxInterner.Interner, q: Parser, d: Parser)
    requires WellEnded(s) && Advance(s, Start(it)) == Ok(q) && q.current.value.kind != EOF
    requires Declaration(s, q) == Ok(d)
    ensures Compile(s, it) == Compiled(Emit(d, CloxChunk.Return).chunk, d.interner)
  {
  }

  /** The tokens of `1 + 2;`, all on line 1. */
  function SumTokens(): Stream {
    Stream([Token(Number(1.0), 1), Token(Plus, 1), Token(Number(2.0), 1), Token(Semicolon, 1), Token(EOF, 1)], false)
  }

  /** The chunk of `1 + 2;` after its first `n` instructions. */
  function SumChunk(n: nat): Code {
    var one := CloxValue.Number(1.0);
    var two := CloxValue.Number(2.0);
    if n == 0 then CloxChunk.Chunk([], [])
    else if n == 1 then CloxChunk.Chunk([OnLine1(CloxChunk.Constant(0))], [one])
    else if n == 2 then CloxChunk.Chunk([OnLine1(CloxChunk.Constant(0)), OnLine1(CloxChunk.Constant(1))], [one, two])
    else if n == 3 then
      CloxChunk.Chunk([OnLine1(CloxChunk.Constant(0)), OnLine1(CloxChunk.Constant(1)), OnLine1(CloxChunk.Add)], [one, two])
    else if n == 4 then
      CloxChunk.Chunk([OnLine1(CloxChunk.Constant(0)), OnLine1(CloxChunk.Constant(1)), OnLine1(CloxChunk.Add),
                       OnLine1(CloxChunk.Pop)], [one, two])
    else
      CloxChunk.Chunk([OnLine1(CloxChunk.Constant(0)), OnLine1(CloxChunk.Constant(1)), OnLine1(CloxChunk.Add),
                       OnLine1(CloxChunk.Pop), OnLine1(CloxChunk.Return)], [one, two])
  }

  /** The parser of `1 + 2;` with `n` tokens taken and `k` instructions
      written. */
  function SumParser(n: nat, k: nat): Parser
    requires 1 <= n <= 5
  {
    Parser(n, if n == 1 then None else Some(SumToken(n - 2)), Some(SumToken(n - 1)), SumChunk(k), CloxInterner.Empty)
  }

  /** The `i`-th token of `1 + 2;`. */
  function SumToken(i: nat): Token {
    if i == 0 then Token(Number(1.0), 1)
    else if i == 1 then Token(Plus, 1)
    else if i == 2 then Token(Number(2.0), 1)
    else if i == 3 then Token(Semicolon, 1)
    else Token(EOF, 1)
  }

  /** Taking the first number of `1 + 2;` and compiling it as a constant. */
  lemma SumFirstNumber(s: Stream)
    requires s == SumTokens()
    ensures Advance(s, SumParser(1, 0)) == Ok(SumParser(2, 0))
    ensures Apply(s, NumberFn, SumParser(2, 0)) == Ok(SumParser(2, 1))
  {
  }

  /** Taking the second number and compiling it as the next constant. */
  lemma SumSecondNumber(s: Stream)
    requires s == SumTokens()
    ensures Advance(s, SumParser(3, 1)) == Ok(SumParser(4, 1))
    ensures Apply(s, NumberFn, SumParser(4, 1)) == Ok(SumParser(4, 2))
  {
  }

  /** The right operand of `+` is parsed one level up, at `Factor`, and
      stops in front of the semicolon. */
  lemma SumRightOperand(s: Stream)
    requires s == SumTokens()
    ensures ParsePrecedence(s, PFactor, SumParser(3, 1)) == Ok(SumParser(4, 2))
  {
    SumSecondNumber(s);
    assert GetRule(SumParser(4, 1).previous.value.kind) == ParseRule(Some(NumberFn), None, PNone);
    assert GetRule(SumParser(4, 2).current.value.kind) == ParseRule(None, None, PNone);
    assert InfixLoop(s, PFactor, SumParser(4, 2)) == Ok(SumParser(4, 2));
  }

  /** `+` takes the right operand at `Factor` and appends `Add`. */
  lemma SumBinary(s: Stream)
    requires s == SumTokens()
    ensures Binary(s, SumParser(3, 1)) == Ok(SumParser(4, 3))
  {
    SumRightOperand(s);
    SumReady(s, 3, 1);
    assert GetRule(Plus) == ParseRule(None, Some(BinaryFn), PTerm);
    assert AddLevel(PTerm, 1) == PFactor;
    BinaryThen(s, SumParser(3, 1), SumParser(4, 2));
    SumAdd();
  }

  /** Appending `Add` after the right operand. */
  lemma SumAdd()
    ensures EmitAll(SumParser(4, 2), BinaryCode(Plus)) == SumParser(4, 3)
  {
    assert BinaryCode(Plus) == [CloxChunk.Add];
  }

  /** `binary` is the right operand one level up, then the operator's code. */
  lemma BinaryThen(s: Stream, p: Parser, q: Parser)
    requires Ready(s, p)
    requires ParsePrecedence(s, AddLevel(GetRule(p.previous.value.kind).precedence, 1), p) == Ok(q)
    ensures Ready(s, q)
    ensures Binary(s, p) == Ok(EmitAll(q, BinaryCode(p.previous.value.kind)))
  {
  }

  /** The infix loop at `Assignment` folds `+ 2` in, then stops in front of
      the semicolon. */
  lemma SumOperator(s: Stream)
    requires s == SumTokens()
    ensures InfixLoop(s, PAssignment, SumParser(2, 1)) == Ok(SumParser(4, 3))
  {
    SumTakePlus(s);
    SumApplyPlus(s);
    assert Level(GetRule(SumParser(4, 3).current.value.kind).precedence) == 0;
    OneInfixStep(s, PAssignment, SumParser(2, 1), SumParser(3, 1), BinaryFn, SumParser(4, 3));
  }

  /** Taking the `+` of `1 + 2;`. */
  lemma SumTakePlus(s: Stream)
    requires s == SumTokens()
    ensures Ready(s, SumParser(2, 1))
    ensures Level(PAssignment) <= Level(GetRule(SumParser(2, 1).current.value.kind).precedence)
    ensures Advance(s, SumParser(2, 1)) == Ok(SumParser(3, 1))
    ensures GetRule(SumParser(3, 1).previous.value.kind).infix == Some(BinaryFn)
  {
    assert GetRule(Plus) == ParseRule(None, Some(BinaryFn), PTerm);
  }

  /** The parse function of `+` is `binary`. */
  lemma SumApplyPlus(s: Stream)
    requires s == SumTokens()
    ensures Ready(s, SumParser(3, 1)) && Dispatched(SumParser(3, 1), BinaryFn)
    ensures Apply(s, BinaryFn, SumParser(3, 1)) == Ok(SumParser(4, 3))
  {
    SumReady(s, 3, 1);
    assert SumParser(3, 1).previous.value.kind == Plus;
    assert GetRule(Plus).infix == Some(BinaryFn);
    ApplyBinary(s, SumParser(3, 1));
    SumBinary(s);
  }

  /** The parse function `binary` is `Binary`. */
  lemma ApplyBinary(s: Stream, p: Parser)
    requires Ready(s, p) && Dispatched(p, BinaryFn)
    ensures Apply(s, BinaryFn, p) == Binary(s, p)
  {
  }

  /** Advancing over any token of `1 + 2;` but the last. */
  lemma SumAdvance(s: Stream, n: nat, k: nat)
    requires s == SumTokens() && 1 <= n <= 4 && k <= 5
    ensures Ready(s, SumParser(n + 1, k))
    ensures Advance(s, SumParser(n, k)) == Ok(SumParser(n + 1, k))
  {
    SumReady(s, n + 1, k);
    assert CloxChunk.ConstantsInRange(SumChunk(k));
  }

  /** Every intermediate parser of `1 + 2;` is a state past the first step. */
  lemma SumReady(s: Stream, n: nat, k: nat)
    requires s == SumTokens() && 2 <= n <= 5 && k <= 5
    ensures Ready(s, SumParser(n, k))
  {
    assert WellEnded(s) by {
      assert forall i :: 0 <= i < |s.tokens| - 1 ==> s.tokens[i].kind != EOF;
    }
    assert CloxChunk.ConstantsInRange(SumChunk(k));
  }

  /** The whole expression `1 + 2`. */
  lemma SumExpression(s: Stream)
    requires s == SumTokens()
    ensures ParsePrecedence(s, PAssignment, SumParser(1, 0)) == Ok(SumParser(4, 3))
  {
    var p := SumParser(1, 0);
    SumFirstNumber(s);
    assert GetRule(Number(1.0)) == ParseRule(Some(NumberFn), None, PNone);
    PrefixThenInfix(s, PAssignment, p, SumParser(2, 0), NumberFn, SumParser(2, 1));
    SumOperator(s);
  }

  /** The expression statement `1 + 2;`: the semicolon is taken and `Pop`
      appended. */
  lemma SumStatement(s: Stream)
    requires s == SumTokens()
    ensures Statement(s, SumParser(1, 0)) == Ok(SumParser(5, 4))
  {
    SumClosed(s);
    assert !Check(SumParser(1, 0), Print);
  }

  /** The expression, the semicolon, then `Pop`. */
  lemma SumClosed(s: Stream)
    requires s == SumTokens()
    ensures ClosedStatement(s, SumParser(1, 0), "Expect ';' after expression.", CloxChunk.Pop) == Ok(SumParser(5, 4))
  {
    SumExpression(s);
    SumSemicolon(s, "Expect ';' after expression.");
    SumPop();
    assert Expression(s, SumParser(1, 0)) == Ok(SumParser(4, 3));
  }

  /** Taking the semicolon of `1 + 2;`. */
  lemma SumSemicolon(s: Stream, message: string)
    requires s == SumTokens()
    ensures Consume(s, SumParser(4, 3), Semicolon, message) == Ok(SumParser(5, 3))
  {
    SumAdvance(s, 4, 3);
  }

  /** Appending `Pop` after the semicolon. */
  lemma SumPop()
    ensures Emit(SumParser(5, 3), CloxChunk.Pop) == SumParser(5, 4)
  {
  }

  /** The statement is also the whole first declaration. */
  lemma SumDeclaration(s: Stream)
    requires s == SumTokens()
    ensures Declaration(s, SumParser(1, 0)) == Ok(SumParser(5, 4))
  {
    SumStatement(s);
    assert !Check(SumParser(1, 0), Var);
  }

  /** The compiler's test of `1 + 2;`: both constants, then `Add`, `Pop`
      and `Return`. */
  lemma CompileSum(s: Stream)
    requires s == SumTokens()
    ensures Compile(s, CloxInterner.Empty) == Compiled(SumChunk(5), CloxInterner.Empty)
    ensures SumChunk(5) ==
              CloxChunk.Chunk([OnLine1(CloxChunk.Constant(0)), OnLine1(CloxChunk.Constant(1)), OnLine1(CloxChunk.Add),
                               OnLine1(CloxChunk.Pop), OnLine1(CloxChunk.Return)],
                              [CloxValue.Number(1.0), CloxValue.Number(2.0)])
  {
    SumDeclaration(s);
    SumStart(s);
    CompileOneDeclaration(s, CloxInterner.Empty, SumParser(1, 0), SumParser(5, 4));
    SumReturn();
  }

  /** The compiler's first `advance` takes the `1`. */
  lemma SumStart(s: Stream)
    requires s == SumTokens()
    ensures WellEnded(s) && Advance(s, Start(CloxInterner.Empty)) == Ok(SumParser(1, 0))
    ensures SumParser(1, 0).current.value.kind != EOF
  {
    assert WellEnded(s) by {
      assert forall i :: 0 <= i < |s.tokens| - 1 ==> s.tokens[i].kind != EOF;
    }
  }

  /** The closing `Return` completes the test's chunk. */
  lemma SumReturn()
    ensures Emit(SumParser(5, 4), CloxChunk.Return).chunk == SumChunk(5)
  {
  }
}
