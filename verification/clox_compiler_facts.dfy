/** Further properties of the ch21 compiler (ch21/src/lox/compiler.rs),
    stated about the functions of `CloxCompiler` from outside that module:
    the parser's start, `check`, how a string literal reaches the chunk,
    the failure on a token with no prefix rule, and `compile` run on the
    text of the compiler's test. */
module CloxCompilerFacts {
  import opened Util
  import opened CloxScanner
  import opened CloxCompiler
  import CloxChunk
  import CloxValue
  import CloxInterner

  /** `Parser::new` and the first `advance` of `compile`: no previous
      token, the stream's first token current, an empty chunk and the given
      interner. It panics only on a stream that panics before any token. */
  lemma StartAdvance(s: Stream, it: CloxInterner.Interner)
    requires WellEnded(s)
    ensures var a := CloxCompiler.Advance(s, Start(it));
            (a.Panicked? <==> |s.tokens| == 0) &&
            (!a.Panicked? ==> a.p.next == 1 && a.p.previous.None? && a.p.current == Some(s.tokens[0]) &&
                              a.p.chunk == CloxChunk.NewChunk() && a.p.interner == it)
  {
  }

  /** `check` holds for exactly one token type, the current token's own,
      payload included: an identifier checks only against its own name. */
  lemma CheckExactlyOne(p: Parser, k: TokenType)
    requires p.current.Some?
    ensures Check(p, p.current.value.kind)
    ensures Check(p, k) ==> k == p.current.value.kind
    ensures p.current.value.kind.Identifier? && p.current.value.kind.name != "" ==> !Check(p, Identifier(""))
  {
  }

  /** `string`: the literal's text is interned, its symbol stored as a
      `String` constant, and one `Constant` naming that constant emitted on
      the literal's line; any other previous token leaves the parser as it
      is. */
  lemma StringLiteralInterns(p: Parser)
    requires p.previous.Some? && CloxChunk.ConstantsInRange(p.chunk)
    ensures p.previous.value.kind.String? ==>
              var (it, id) := CloxInterner.Intern(p.interner, p.previous.value.kind.text);
              var q := StringLiteral(p);
              q.interner == it && q.chunk.constants == p.chunk.constants + [CloxValue.String(id)] &&
              q.chunk.instructions ==
                p.chunk.instructions + [CloxChunk.Instruction(CloxChunk.Constant(|p.chunk.constants|), p.previous.value.line)]
    ensures !p.previous.value.kind.String? ==> StringLiteral(p) == p
  {
  }

  /** `parse_precedence` on a token without a prefix rule fails with
      "Expect expression." at that token. */
  lemma NoPrefixFails(s: Stream, prec: Precedence, p: Parser)
    requires Scanning(s, p)
    ensures var a := CloxCompiler.Advance(s, p);
            a.Ok? && GetRule(a.p.previous.value.kind).prefix.None? ==>
              ParsePrecedence(s, prec, p) == Failed(ParserError(None, "Expect expression."), a.p)
  {
  }

  /** `compile` on the source text `1 + 2;`, with the ch17 scanner in the
      place of ch21's own: its tokens compile to the test's chunk. */
  lemma CompileSumSource(src: string)
    requires src == "1 + 2;"
    ensures Compile(TokenStream(src), CloxInterner.Empty) == Compiled(SumChunk(5), CloxInterner.Empty)
  {
    SumSource(src);
    CompileSum(SumTokens());
  }
}
