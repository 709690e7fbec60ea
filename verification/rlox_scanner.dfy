/** The tree-walking interpreter's scanner (ch11/scanner.rb): one
    left-to-right pass over the source that turns characters into tokens and
    collects lexical errors without stopping.

    Two behaviours of the code are kept as written:
    - the `when "\l"` branch is Ruby's string "l", so a character `l` that
      starts a token is skipped like a blank;
    - `at_end?` compares with `>`, so the scan loop makes one extra pass at
      position |source| where the current character is `nil` (absorbed by
      `when nil`); an unterminated string consumes that phantom character
      and still emits its STRING token. */
module RloxScanner {
  import opened Util
  import opened RloxToken

  datatype ScanError = ScanError(line: nat, message: string)

  /** The effect of one `scan_token` pass: cursor and line after it, the
      token it appended (if any) and the error it reported (if any). */
  datatype Step = Step(next: nat, line: nat, token: Option<Token>, error: Option<ScanError>)

  datatype ScanResult = ScanResult(tokens: seq<Token>, errors: seq<ScanError>)

  /** A cursor clamped to the source: the phantom position |src|+1 counts as |src|. */
  function Upto(src: string, i: nat): nat {
    if i <= |src| then i else |src|
  }

  predicate IsOperatorStart(c: char) {
    c == '!' || c == '=' || c == '<' || c == '>'
  }

  function OneCharOperator(c: char): TokenType
    requires IsOperatorStart(c)
  {
    match c
    case '!' => Bang
    case '=' => Equal
    case '<' => Less
    case _ => Greater
  }

  function TwoCharOperator(c: char): TokenType
    requires IsOperatorStart(c)
  {
    match c
    case '!' => BangEqual
    case '=' => EqualEqual
    case '<' => LessEqual
    case _ => GreaterEqual
  }

  function SingleCharKind(c: char): Option<TokenType> {
    match c
    case '(' => Some(LeftParen)
    case ')' => Some(RightParen)
    case '\U{7B}' => Some(LeftBrace)
    case '\U{7D}' => Some(RightBrace)
    case ',' => Some(Comma)
    case '.' => Some(Dot)
    case '-' => Some(Minus)
    case '+' => Some(Plus)
    case ';' => Some(Semicolon)
    case '*' => Some(Star)
    case _ => None
  }

  /** Characters the scanner's `case` skips: space, carriage return, tab,
      and the letter l, which is what Ruby makes of the escape meant as a
      line feed. */
  predicate IsSkipped(c: char) {
    c == ' ' || c == 'l' || c == '\r' || c == '\t'
  }

  /** A character no branch of the scanner's `case` takes: it falls to the
      `else` that reports it. */
  predicate Unclaimed(c: char) {
    SingleCharKind(c).None? && !IsOperatorStart(c) && c != '/' && !IsSkipped(c) && c != '\n' &&
    c != '\"' && !IsDigit(c) && !IsAlpha(c)
  }

  /** `add_token` for a token without literal: the lexeme is the source slice. */
  function Emit(src: string, start: nat, next: nat, line: nat, kind: TokenType): Step
    requires start <= next <= |src|
  {
    Step(next, line, Some(Token(kind, src[start..next], NoLiteral, line)), None)
  }

  /** The comment loop: advances from position p until a line feed; stops on the
      newline or at the phantom position |src|+1. */
  function CommentEnd(src: string, p: nat): (q: nat)
    requires p <= |src| + 1
    ensures p <= q <= |src| + 1
    ensures q <= |src| ==> q < |src| && src[q] == '\n'
    ensures forall k :: p <= k < q && k < |src| ==> src[k] != '\n'
    decreases |src| + 1 - p
  {
    if p <= |src| && (p == |src| || src[p] != '\n') then CommentEnd(src, p + 1) else p
  }

  /** The loop of `string`: advances to the closing quote or past the end,
      counting newlines. The position past the end stands for the phantom
      character the loop reads after the last one. */
  function StringEnd(src: string, p: nat, line: nat): (r: (nat, nat))
    requires p <= |src| + 1
    ensures p <= r.0 <= |src| + 1
    ensures r.0 <= |src| ==> r.0 < |src| && src[r.0] == '\"'
    ensures forall k :: p <= k < r.0 && k < |src| ==> src[k] != '\"'
    ensures r.1 == line + Newlines(src[Upto(src, p)..Upto(src, r.0)])
    decreases |src| + 1 - p
  {
    if p <= |src| && (p == |src| || src[p] != '\"') then
      var line2 := if p < |src| && src[p] == '\n' then line + 1 else line;
      var r := StringEnd(src, p + 1, line2);
      assert r.1 == line + Newlines(src[Upto(src, p)..Upto(src, r.0)]) by {
        if p < |src| {
          NewlinesStep(src, p, p);
          NewlinesSplit(src, p, p + 1, Upto(src, r.0));
        }
      }
      r
    else
      (p, line)
  }

  /** `advance while is_alpha_numeric?(peek)` from position p. */
  function WordEnd(src: string, p: nat): (q: nat)
    requires p <= |src|
    ensures p <= q <= |src|
    ensures forall k :: p <= k < q ==> IsAlphaNumeric(src[k])
    ensures q < |src| ==> !IsAlphaNumeric(src[q])
    decreases |src| - p
  {
    if p < |src| && IsAlphaNumeric(src[p]) then WordEnd(src, p + 1) else p
  }

  /** End of a number lexeme starting at `start`: digits, then `.` and more
      digits only when a digit follows the dot. */
  function NumberEnd(src: string, start: nat): (p: nat)
    requires start < |src| && IsDigit(src[start])
    ensures start < p <= |src|
    ensures IsNumberLexeme(src[start..(p)])
    ensures p < |src| ==> !IsDigit(src[p])
    ensures forall k :: start <= k < p ==> IsDigit(src[k]) || src[k] == '.'
    ensures (forall k :: start <= k < p ==> src[k] != '.') ==>
              !(p + 1 < |src| && src[p] == '.' && IsDigit(src[p + 1]))
  {
    var d := DigitsEnd(src, start + 1);
    assert AllDigits(src[start..d]) by {
      assert src[start..d] == [src[start]] + src[start + 1..d];
    }
    DigitsIndexed(src, start, d);
    if d + 1 < |src| && src[d] == '.' && IsDigit(src[d + 1]) then
      var e := DigitsEnd(src, d + 1);
      DigitsIndexed(src, d + 1, e);
      var lex := src[start..e];
      var k := d - start;
      assert lex[..k] == src[start..d];
      assert lex[k + 1..] == src[d + 1..e];
      assert 0 < k < |lex| - 1 && lex[k] == '.';
      assert IsNumberLexeme(lex);
      e
    else
      assert IsNumberLexeme(src[start..d]);
      d
  }

  function StringToken(src: string, start: nat, line: nat): (r: Step)
    requires start < |src| && src[start] == '\"'
    ensures start < r.next <= |src| + 2
    ensures r.line == line + Newlines(src[start..Upto(src, r.next)])
    ensures r.token.Some? && r.token.value.kind == StringTok && r.token.value.line == r.line
    ensures r.token.value.literal == StringLit(r.token.value.lexeme)
    ensures r.error.None? <==> r.next <= |src|
    ensures r.error.Some? ==> r.error == Some(ScanError(r.line, "Unterminated string.")) &&
                              r.token.value.lexeme == src[start + 1..]
    ensures r.error.None? ==> start + 2 <= r.next <= |src| && src[r.next - 1] == '\"' &&
                              r.token.value.lexeme == src[start + 1..(r.next - 1)]
    ensures forall k :: start < k < r.next - 1 && k < |src| ==> src[k] != '\"'
  {
    var (p, line2) := StringEnd(src, start + 1, line);
    var value := if p <= |src| then src[start + 1..p] else src[start + 1..];
    var err := if p > |src| then Some(ScanError(line2, "Unterminated string.")) else None;
    assert line2 == line + Newlines(src[start..Upto(src, p + 1)]) by {
      NewlinesStep(src, start, start);
      if p < |src| {
        NewlinesStep(src, start, p);
        NewlinesSplit(src, start, start + 1, p);
      } else {
        NewlinesSplit(src, start, start + 1, |src|);
      }
    }
    Step(p + 1, line2, Some(Token(StringTok, value, StringLit(value), line2)), err)
  }

  /** `!`, `=`, `<` or `>`, followed by `=` for the two-character form (maximal munch). */
  function OperatorToken(src: string, start: nat, line: nat): (r: Step)
    requires start < |src| && IsOperatorStart(src[start])
    ensures var two := start + 1 < |src| && src[start + 1] == '=';
            r.next == (if two then start + 2 else start + 1) && r.line == line && r.error.None? &&
            r.token == Some(Token(if two then TwoCharOperator(src[start]) else OneCharOperator(src[start]),
                                  src[start..(r.next)], NoLiteral, line))
    ensures Newlines(src[start..(r.next)]) == 0
  {
    if start + 1 < |src| && src[start + 1] == '=' then
      NewlinesStep(src, start, start);
      NewlinesStep(src, start, start + 1);
      Emit(src, start, start + 2, line, TwoCharOperator(src[start]))
    else
      NewlinesStep(src, start, start);
      Emit(src, start, start + 1, line, OneCharOperator(src[start]))
  }

  /** `/`: a `//` comment runs up to (not including) the next newline and
      emits nothing; a lone `/` is Slash. */
  function SlashToken(src: string, start: nat, line: nat): (r: Step)
    requires start < |src| && src[start] == '/'
    ensures start < r.next <= |src| + 1 && r.line == line && r.error.None?
    ensures r.token.None? <==> start + 1 < |src| && src[start + 1] == '/'
    ensures r.token.Some? ==> r.next == start + 1 && r.token == Some(Token(Slash, "/", NoLiteral, line))
    ensures r.token.None? ==> r.next <= |src| ==> r.next < |src| && src[r.next] == '\n'
    ensures forall k :: start <= k < r.next && k < |src| ==> src[k] != '\n'
  {
    if start + 1 < |src| && src[start + 1] == '/' then
      Step(CommentEnd(src, start + 2), line, None, None)
    else
      assert src[start..start + 1] == "/";
      Emit(src, start, start + 1, line, Slash)
  }

  /** `number`: the maximal digits[.digits] lexeme and its exact value. */
  function NumberToken(src: string, start: nat, line: nat): (r: Step)
    requires start < |src| && IsDigit(src[start])
    ensures start < r.next <= |src| && r.line == line && r.error.None?
    ensures r.token == Some(Token(Number, src[start..(r.next)], NumberLit(DecimalValue(src[start..(r.next)])), line))
    ensures IsNumberLexeme(src[start..(r.next)])
    ensures r.next < |src| ==> !IsDigit(src[r.next])
    ensures Newlines(src[start..(r.next)]) == 0
  {
    var p := NumberEnd(src, start);
    var text := src[start..p];
    NewlinesNone(text);
    Step(p, line, Some(Token(Number, text, NumberLit(DecimalValue(text)), line)), None)
  }

  /** `identifier`: the maximal alphanumeric run, looked up in the keyword table. */
  function WordToken(src: string, start: nat, line: nat): (r: Step)
    requires start < |src| && IsAlpha(src[start])
    ensures start < r.next <= |src| && r.line == line && r.error.None?
    ensures r.token == Some(Token(WordKind(src[start..(r.next)]), src[start..(r.next)], NoLiteral, line))
    ensures forall k :: start <= k < r.next ==> IsAlphaNumeric(src[k])
    ensures r.next < |src| ==> !IsAlphaNumeric(src[r.next])
    ensures Newlines(src[start..(r.next)]) == 0
  {
    var p := WordEnd(src, start + 1);
    NewlinesNone(src[start..p]);
    Emit(src, start, p, line, WordKind(src[start..p]))
  }

  /** One pass of `scan_token` starting at `start`; `start == |src|` is the
      extra pass where the current character is `nil`. */
  function ScanToken(src: string, start: nat, line: nat): (r: Step)
    requires start <= |src|
    ensures start < r.next <= |src| + 2
    ensures r.line == line + Newlines(src[start..Upto(src, r.next)])
    ensures r.token.Some? ==> r.token.value.kind != Eof && r.token.value.line == r.line
    ensures r.error.Some? ==> r.error.value.line == r.line
    // the phantom pass at the end does nothing
    ensures start == |src| ==> r == Step(start + 1, line, None, None)
    ensures start < |src| && (IsSkipped(src[start]) || src[start] == '\n') ==>
              r.next == start + 1 && r.token.None? && r.error.None?
    // anything else is reported and skipped
    ensures start < |src| && r.error.Some? && src[start] != '\"' ==>
              r.next == start + 1 && r.token.None? &&
              r.error.value == ScanError(line, "Unexpected character: " + [src[start]])
    // and every character no case takes is reported
    ensures start < |src| && Unclaimed(src[start]) ==>
              r == Step(start + 1, line, None, Some(ScanError(line, "Unexpected character: " + [src[start]])))
    ensures start < |src| && src[start] != '\"' ==> (r.error.Some? <==> Unclaimed(src[start]))
  {
    if start == |src| then Step(start + 1, line, None, None)
    else
      var c := src[start];
      if SingleCharKind(c).Some? then
        NewlinesStep(src, start, start);
        Emit(src, start, start + 1, line, SingleCharKind(c).value)
      else if IsOperatorStart(c) then
        OperatorToken(src, start, line)
      else if c == '/' then
        var r := SlashToken(src, start, line);
        NewlinesNone(src[start..Upto(src, r.next)]);
        r
      else if IsSkipped(c) then
        NewlinesStep(src, start, start);
        Step(start + 1, line, None, None)
      else if c == '\n' then
        NewlinesStep(src, start, start);
        Step(start + 1, line + 1, None, None)
      else if c == '\"' then
        StringToken(src, start, line)
      else if IsDigit(c) then
        NumberToken(src, start, line)
      else if IsAlpha(c) then
        WordToken(src, start, line)
      else
        NewlinesStep(src, start, start);
        Step(start + 1, line, None, Some(ScanError(line, "Unexpected character: " + [c])))
  }

  /** Which sub-scanner a pass dispatches to, by the character under the cursor. */
  lemma ScanTokenDispatch(src: string, start: nat, line: nat)
    requires start < |src|
    ensures IsOperatorStart(src[start]) ==> ScanToken(src, start, line) == OperatorToken(src, start, line)
    ensures src[start] == '/' ==> ScanToken(src, start, line) == SlashToken(src, start, line)
    ensures src[start] == '\"' ==> ScanToken(src, start, line) == StringToken(src, start, line)
    ensures IsDigit(src[start]) ==> ScanToken(src, start, line) == NumberToken(src, start, line)
    // an initial `l` is skipped instead of starting an identifier
    ensures IsAlpha(src[start]) && src[start] != 'l' ==> ScanToken(src, start, line) == WordToken(src, start, line)
  {
    var c := src[start];
    if IsOperatorStart(c) {
      assert SingleCharKind(c).None?;
    } else if c == '/' || c == '\"' {
      assert SingleCharKind(c).None? && !IsSkipped(c);
    } else if IsDigit(c) {
      assert SingleCharKind(c).None? && !IsSkipped(c) && c != '\n';
    } else if IsAlpha(c) && c != 'l' {
      assert SingleCharKind(c).None? && !IsSkipped(c) && !IsDigit(c);
    }
  }

  /** The scan loop `until at_end?` from cursor `current` (which runs while
      current <= |src|): tokens, errors, and the final line counter. */
  function ScanFrom(src: string, current: nat, line: nat): (r: (seq<Token>, seq<ScanError>, nat))
    requires current <= |src| + 2
    ensures r.2 == line + Newlines(src[Upto(src, current)..])
    ensures forall i :: 0 <= i < |r.0| ==> r.0[i].kind != Eof
    ensures forall i :: 0 <= i < |r.0| ==> line <= r.0[i].line <= r.2
    ensures forall i, j :: 0 <= i < j < |r.0| ==> r.0[i].line <= r.0[j].line
    decreases |src| + 2 - current
  {
    if current > |src| then
      ([], [], line)
    else
      var st := ScanToken(src, current, line);
      var rest := ScanFrom(src, st.next, st.line);
      NewlinesSplit(src, current, Upto(src, st.next), |src|);
      assert src[current..|src|] == src[current..] && src[Upto(src, st.next)..|src|] == src[Upto(src, st.next)..];
      assert line <= st.line <= rest.2;
      var head := if st.token.Some? then [st.token.value] else [];
      assert forall i :: 0 <= i < |head| ==> head[i].kind != Eof && head[i].line == st.line;
      var errs := (if st.error.Some? then [st.error.value] else []) + rest.1;
      (head + rest.0, errs, rest.2)
  }

  /** `scan_tokens`: the scan loop followed by exactly one EOF token. */
  function ScanTokens(src: string): (r: ScanResult)
    ensures |r.tokens| > 0
    ensures r.tokens[|r.tokens| - 1] == Token(Eof, "", NoLiteral, 1 + Newlines(src))
    ensures forall i :: 0 <= i < |r.tokens| - 1 ==> r.tokens[i].kind != Eof
    ensures forall i, j :: 0 <= i < j < |r.tokens| ==> 1 <= r.tokens[i].line <= r.tokens[j].line
  {
    var (toks, errs, line) := ScanFrom(src, 0, 1);
    assert src[0..] == src;
    ScanResult(toks + [Token(Eof, "", NoLiteral, line)], errs)
  }
}
