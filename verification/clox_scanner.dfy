/** The bytecode compiler's on-demand scanner (ch17/src/lox/scanner.rs): each
    `scan_token` call skips blanks and comments and returns the next token,
    carrying its payload (identifier text, string contents, number value,
    error message) in the token type.

    Input is taken to be ASCII, so character and byte positions agree.
    Two behaviours of the code are kept as written:
    - `tr` followed by `ue` yields `This`, so `true` scans as `This`;
    - `check_keyword` slices a fixed length out of the source without
      comparing it with the identifier's length: `andy` scans as `And`, and
      a slice that runs past the end of the source panics, as a lone `a`
      at the end of the input does. */
module CloxScanner {
  import opened Util

  datatype TokenType =
    | LeftParen | RightParen | LeftBrace | RightBrace | Comma | Dot
    | Minus | Plus | Semicolon | Slash | Star
    | Bang | BangEqual | Equal | EqualEqual
    | Greater | GreaterEqual | Less | LessEqual
    | Identifier(name: string) | String(text: string) | Number(n: real)
    | And | Class | Else | False | For | Fun | If | Nil | Or
    | Print | Return | Super | This | True | Var | While
    | Error(message: string)
    | EOF

  datatype Token = Token(kind: TokenType, line: nat)

  /** The scanner between calls: the source, the cursor and the line. */
  datatype Scanner = Scanner(source: string, current: nat, line: nat)

  /** The result of one `scan_token` call; `Panic` is an out-of-range slice. */
  datatype Scan = Scanned(token: Token, next: Scanner) | Panic

  predicate ValidScanner(sc: Scanner) {
    sc.current <= |sc.source|
  }

  /** `Scanner::new`. */
  function NewScanner(src: string): (sc: Scanner)
    ensures ValidScanner(sc) && sc.current == 0 && sc.line == 1
  {
    Scanner(src, 0, 1)
  }

  /** A comment's end: the first newline at or after `p`, or the end. */
  function LineEnd(src: string, p: nat): (q: nat)
    requires p <= |src|
    ensures p <= q <= |src|
    ensures q < |src| ==> src[q] == '\n'
    ensures forall k :: p <= k < q ==> src[k] != '\n'
    decreases |src| - p
  {
    if p < |src| && src[p] != '\n' then LineEnd(src, p + 1) else p
  }

  /** Where a token may start: not a blank and not the start of `//`. */
  predicate TokenStart(src: string, p: nat)
    requires p < |src|
  {
    src[p] != ' ' && src[p] != '\r' && src[p] != '\t' && src[p] != '\n' &&
    !(src[p] == '/' && p + 1 < |src| && src[p + 1] == '/')
  }

  /** Position `k` lies inside a `//` comment opened at or after `p`: no
      newline comes between the comment's start and `k`. */
  predicate InComment(src: string, p: nat, k: nat)
    requires k < |src|
  {
    exists j :: p <= j < k && src[j] == '/' && src[j + 1] == '/' && k < LineEnd(src, j)
  }

  /** With no newline in `[p, q)` and a newline (or the end) at `q`, the
      line from `p` ends at `q`. */
  lemma LineEndFrom(src: string, p: nat, q: nat)
    requires p <= q <= |src|
    requires forall k :: p <= k < q ==> src[k] != '\n'
    requires q < |src| ==> src[q] == '\n'
    ensures LineEnd(src, p) == q
  {
  }

  /** Skipping one blank at `p`: what holds of the positions skipped from
      `p + 1` holds from `p`. */
  lemma SkipBlankStep(src: string, p: nat, r: nat)
    requires p + 1 <= r <= |src|
    requires p < |src| && !TokenStart(src, p) && src[p] != '/'
    requires forall k :: p + 1 <= k < r && TokenStart(src, k) ==> InComment(src, p + 1, k)
    requires r < |src| ==> !InComment(src, p + 1, r)
    ensures forall k :: p <= k < r && TokenStart(src, k) ==> InComment(src, p, k)
    ensures r < |src| ==> !InComment(src, p, r)
  {
    assert forall k :: p < k < r && InComment(src, p + 1, k) ==> InComment(src, p, k);
    assert forall k :: p < k < |src| && InComment(src, p, k) ==> InComment(src, p + 1, k);
  }

  /** Skipping a comment that opens at `p` and runs to `q`: every position
      in `[p, q)` is comment text, and a stop at or after `q` outside a
      comment seen from `q` is outside every comment seen from `p`. */
  lemma SkipCommentStep(src: string, p: nat, q: nat, r: nat)
    requires p + 2 <= q <= r <= |src|
    requires src[p] == '/' && src[p + 1] == '/' && q == LineEnd(src, p + 2)
    requires forall k :: q <= k < r && TokenStart(src, k) ==> InComment(src, q, k)
    requires r < |src| ==> !InComment(src, q, r)
    ensures forall k :: p <= k < r && TokenStart(src, k) ==> InComment(src, p, k)
    ensures r < |src| ==> !InComment(src, p, r)
  {
    assert LineEnd(src, p) == q;
    forall k | p <= k < r && TokenStart(src, k)
      ensures InComment(src, p, k)
    {
      if k < q {
        assert src[p] == '/' && src[p + 1] == '/' && k < LineEnd(src, p);
      } else {
        assert InComment(src, q, k);
      }
    }
    forall j | p <= j < r < |src| && src[j] == '/' && src[j + 1] == '/'
      ensures r >= LineEnd(src, j)
    {
      if j < q {
        LineEndFrom(src, j, q);
      }
    }
  }

  /** `skip_whitespace` from position `p` on line `line`: the position of
      the next token (or the end) and the line it is on. Everything skipped
      is blank or comment text, and a comment stops before its newline,
      which the next round counts. */
  function SkipWhitespace(src: string, p: nat, line: nat): (r: (nat, nat))
    requires p <= |src|
    ensures p <= r.0 <= |src|
    ensures r.0 < |src| ==> TokenStart(src, r.0)
    ensures forall k :: p <= k < r.0 && TokenStart(src, k) ==> InComment(src, p, k)
    ensures r.0 < |src| ==> !InComment(src, p, r.0)
    ensures r.1 == line + Newlines(src[p..(r.0)])
    decreases |src| - p
  {
    if p == |src| then (p, line)
    else
      var c := src[p];
      if c == ' ' || c == '\r' || c == '\t' || c == '\n' then
        var r := SkipWhitespace(src, p + 1, if c == '\n' then line + 1 else line);
        NewlinesStep(src, p, p);
        NewlinesSplit(src, p, p + 1, r.0);
        SkipBlankStep(src, p, r.0);
        r
      else if c == '/' && p + 1 < |src| && src[p + 1] == '/' then
        var q := LineEnd(src, p + 2);
        var r := SkipWhitespace(src, q, line);
        NewlinesNone(src[p..q]);
        NewlinesSplit(src, p, q, r.0);
        SkipCommentStep(src, p, q, r.0);
        r
      else
        assert src[p..p] == [];
        (p, line)
  }

  /** The `string` loop from `p`: the closing quote's position (or the end)
      and the line reached, one more for every newline passed. */
  function StringEnd(src: string, p: nat, line: nat): (r: (nat, nat))
    requires p <= |src|
    ensures p <= r.0 <= |src|
    ensures r.0 < |src| ==> src[r.0] == '\"'
    ensures forall k :: p <= k < r.0 ==> src[k] != '\"'
    ensures r.1 == line + Newlines(src[p..(r.0)])
    decreases |src| - p
  {
    if p < |src| && src[p] != '\"' then
      var r := StringEnd(src, p + 1, if src[p] == '\n' then line + 1 else line);
      NewlinesStep(src, p, p);
      NewlinesSplit(src, p, p + 1, r.0);
      r
    else
      assert src[p..p] == [];
      (p, line)
  }

  /** The `identifier` loop: letters, digits and `_` from `p`. */
  function WordEnd(src: string, p: nat): (q: nat)
    requires p <= |src|
    ensures p <= q <= |src|
    ensures forall k :: p <= k < q ==> IsAlphaNumeric(src[k])
    ensures q < |src| ==> !IsAlphaNumeric(src[q])
    decreases |src| - p
  {
    if p < |src| && IsAlphaNumeric(src[p]) then WordEnd(src, p + 1) else p
  }

  /** `check_keyword(offset, length, rest, kind)` for the identifier
      `src[start..end]`: the slice `src[start+offset..start+offset+length]`
      is compared with `rest`, and a slice past the end panics. */
  function CheckKeyword(src: string, start: nat, end: nat, offset: nat, length: nat, rest: string, kind: TokenType): (r: Option<TokenType>)
    requires start <= end <= |src| && !kind.Identifier?
    ensures r.None? <==> start + offset + length > |src|
    ensures r.Some? ==> (r.value == kind <==> src[start + offset..start + offset + length] == rest)
    ensures r.Some? && r.value != kind ==> r.value == Identifier(src[start..end])
  {
    if start + offset + length > |src| then None
    else if src[start + offset..start + offset + length] == rest then Some(kind)
    else Some(Identifier(src[start..end]))
  }

  /** `identifier_type` for the word `src[start..end]`: a trie on the first
      one or two characters, then `check_keyword`. A word that is not taken
      for a keyword is an identifier of the whole word, a first letter that
      starts no keyword always gives one, and `True` is never produced (the
      `tr` branch gives `This`). */
  function IdentifierType(src: string, start: nat, end: nat): (r: Option<TokenType>)
    requires start < end <= |src|
    ensures r.Some? && r.value.Identifier? ==> r.value == Identifier(src[start..end])
    ensures !(src[start] in "acefinoprstvw") ==> r == Some(Identifier(src[start..end]))
    ensures r.Some? ==> r.value != True
  {
    match src[start]
    case 'a' => CheckKeyword(src, start, end, 1, 2, "nd", And)
    case 'c' => CheckKeyword(src, start, end, 1, 4, "lass", Class)
    case 'e' => CheckKeyword(src, start, end, 1, 3, "lse", Else)
    case 'f' =>
      if end - start > 1 then
        match src[start + 1]
        case 'a' => CheckKeyword(src, start, end, 2, 3, "lse", False)
        case 'o' => CheckKeyword(src, start, end, 2, 1, "r", For)
        case 'u' => CheckKeyword(src, start, end, 2, 1, "n", Fun)
        case _ => Some(Identifier(src[start..end]))
      else Some(Identifier(src[start..end]))
    case 'i' => CheckKeyword(src, start, end, 1, 1, "f", If)
    case 'n' => CheckKeyword(src, start, end, 1, 2, "il", Nil)
    case 'o' => CheckKeyword(src, start, end, 1, 1, "r", Or)
    case 'p' => CheckKeyword(src, start, end, 1, 4, "rint", Print)
    case 'r' => CheckKeyword(src, start, end, 1, 5, "eturn", Return)
    case 's' => CheckKeyword(src, start, end, 1, 4, "uper", Super)
    case 't' =>
      if end - start > 1 then
        match src[start + 1]
        case 'h' => CheckKeyword(src, start, end, 2, 2, "is", This)
        case 'r' => CheckKeyword(src, start, end, 2, 2, "ue", This)
        case _ => Some(Identifier(src[start..end]))
      else Some(Identifier(src[start..end]))
    case 'v' => CheckKeyword(src, start, end, 1, 2, "ar", Var)
    case 'w' => CheckKeyword(src, start, end, 1, 4, "hile", While)
    case _ => Some(Identifier(src[start..end]))
  }

  function OperatorKind(c: char, two: bool): TokenType {
    match c
    case '!' => if two then BangEqual else Bang
    case '=' => if two then EqualEqual else Equal
    case '<' => if two then LessEqual else Less
    case _ => if two then GreaterEqual else Greater
  }

  function SingleKind(c: char): Option<TokenType> {
    match c
    case '(' => Some(LeftParen)
    case ')' => Some(RightParen)
    case '\U{7B}' => Some(LeftBrace)
    case '\U{7D}' => Some(RightBrace)
    case ';' => Some(Semicolon)
    case ',' => Some(Comma)
    case '.' => Some(Dot)
    case '-' => Some(Minus)
    case '+' => Some(Plus)
    case '/' => Some(Slash)
    case '*' => Some(Star)
    case _ => None
  }

  /** The end of a number lexeme starting at `start`: digits, then a dot
      and digits only when a digit follows the dot. */
  function NumberEnd(src: string, start: nat): (q: nat)
    requires start < |src| && IsDigit(src[start])
    ensures start < q <= |src| && IsNumberLexeme(src[start..(q)])
    ensures q < |src| ==> !IsDigit(src[q])
    ensures (forall k :: start <= k < q ==> src[k] != '.') ==> !(q + 1 < |src| && src[q] == '.' && IsDigit(src[q + 1]))
  {
    var k := DigitsEnd(src, start);
    if k + 1 < |src| && src[k] == '.' && IsDigit(src[k + 1]) then
      var q := DigitsEnd(src, k + 1);
      var lex := src[start..q];
      assert lex[..k - start] == src[start..k] && lex[k - start + 1..] == src[k + 1..q];
      q
    else
      k
  }

  /** The token that starts with a letter at `p`: an identifier or keyword,
      or a panic from `check_keyword`. */
  function ScanWord(src: string, p: nat, line: nat): (r: Scan)
    requires p < |src| && IsAlpha(src[p])
    ensures r.Scanned? ==> r.next.source == src && p < r.next.current <= |src| && r.token.line == r.next.line == line
    ensures r.Scanned? ==> r.token.kind != EOF && r.next.current == WordEnd(src, p + 1)
  {
    var q := WordEnd(src, p + 1);
    var kind := IdentifierType(src, p, q);
    if kind.None? then Panic
    else
      assert kind.value != EOF;
      Scanned(Token(kind.value, line), Scanner(src, q, line))
  }

  /** The token that starts with a quote at `p`. */
  function ScanString(src: string, p: nat, line: nat): (r: Scan)
    requires p < |src| && src[p] == '\"'
    ensures r.Scanned? && r.next.source == src && p < r.next.current <= |src|
    ensures r.token.line == r.next.line >= line && r.token.kind != EOF
  {
    var (q, line2) := StringEnd(src, p + 1, line);
    if q == |src| then Scanned(Token(Error("Unterminated string."), line2), Scanner(src, q, line2))
    else Scanned(Token(String(src[p + 1..q]), line2), Scanner(src, q + 1, line2))
  }

  /** The token that starts at `p`, a position `TokenStart` allows. */
  function ScanAt(src: string, p: nat, line: nat): (r: Scan)
    requires p < |src|
    ensures r.Scanned? ==> r.next.source == src && p < r.next.current <= |src|
    ensures r.Scanned? ==> r.token.line == r.next.line >= line && r.token.kind != EOF
    ensures r.Panic? ==> IsAlpha(src[p])
  {
    var c := src[p];
    if IsAlpha(c) then ScanWord(src, p, line)
    else if IsDigit(c) then
      var q := NumberEnd(src, p);
      Scanned(Token(Number(DecimalValue(src[p..q])), line), Scanner(src, q, line))
    else if SingleKind(c).Some? then
      Scanned(Token(SingleKind(c).value, line), Scanner(src, p + 1, line))
    else if c == '!' || c == '=' || c == '<' || c == '>' then
      var two := p + 1 < |src| && src[p + 1] == '=';
      Scanned(Token(OperatorKind(c, two), line), Scanner(src, if two then p + 2 else p + 1, line))
    else if c == '\"' then ScanString(src, p, line)
    else
      Scanned(Token(Error("Unexpected character."), line), Scanner(src, p + 1, line))
  }

  /** `scan_token`: skip blanks and comments, then EOF at the end of input
      or the token starting there. */
  function ScanToken(sc: Scanner): (r: Scan)
    requires ValidScanner(sc)
    ensures r.Scanned? ==> ValidScanner(r.next) && r.next.source == sc.source && sc.current <= r.next.current
    ensures r.Scanned? ==> r.token.line == r.next.line >= sc.line
    ensures SkipWhitespace(sc.source, sc.current, sc.line).0 == |sc.source| <==> r.Scanned? && r.token.kind == EOF
    ensures SkipWhitespace(sc.source, sc.current, sc.line).0 == |sc.source| ==> r.next.current == |sc.source|
    ensures r.Scanned? && r.token.kind != EOF ==> SkipWhitespace(sc.source, sc.current, sc.line).0 < r.next.current
  {
    var sw := SkipWhitespace(sc.source, sc.current, sc.line);
    if sw.0 == |sc.source| then Scanned(Token(EOF, sw.1), Scanner(sc.source, sw.0, sw.1))
    else ScanAt(sc.source, sw.0, sw.1)
  }

  // ------------------------------------------------------------ properties

  /** At the end of input the scanner returns EOF and stays where it is, so
      every further call returns the same EOF token. */
  lemma EofRepeats(sc: Scanner)
    requires ValidScanner(sc)
    requires ScanToken(sc).Scanned? && ScanToken(sc).token.kind == EOF
    ensures ScanToken(ScanToken(sc).next) == ScanToken(sc)
  {
    var p := SkipWhitespace(sc.source, sc.current, sc.line).0;
    assert sc.source[p..p] == [];
  }

  /** `!`, `=`, `<` and `>` take a following `=` into a two-character
      token and otherwise stand alone. */
  lemma OperatorMunch(sc: Scanner)
    requires ValidScanner(sc)
    requires var p := SkipWhitespace(sc.source, sc.current, sc.line).0;
             p < |sc.source| && sc.source[p] in {'!', '=', '<', '>'}
    ensures var (p, line) := SkipWhitespace(sc.source, sc.current, sc.line);
            var two := p + 1 < |sc.source| && sc.source[p + 1] == '=';
            ScanToken(sc) == Scanned(Token(OperatorKind(sc.source[p], two), line),
                                     Scanner(sc.source, if two then p + 2 else p + 1, line))
  {
  }

  /** A String token holds exactly the text between its quotes, which
      contains no quote; reaching the end first gives an error token. */
  lemma StringToken(sc: Scanner)
    requires ValidScanner(sc)
    requires var p := SkipWhitespace(sc.source, sc.current, sc.line).0;
             p < |sc.source| && sc.source[p] == '\"'
    ensures var p := SkipWhitespace(sc.source, sc.current, sc.line).0;
            var r := ScanToken(sc);
            r.Scanned? &&
            (r.token.kind.String? ==>
               var q := r.next.current - 1;
               p < q < |sc.source| && sc.source[q] == '\"' && r.token.kind.text == sc.source[p + 1..q] &&
               (forall k :: 0 <= k < |r.token.kind.text| ==> r.token.kind.text[k] != '\"')) &&
            (!r.token.kind.String? ==>
               r.token.kind == Error("Unterminated string.") && r.next.current == |sc.source| &&
               (forall k :: p < k < |sc.source| ==> sc.source[k] != '\"'))
  {
    var (p, line) := SkipWhitespace(sc.source, sc.current, sc.line);
    assert ScanToken(sc) == ScanString(sc.source, p, line);
    ScanStringShape(sc.source, p, line);
  }

  /** `StringToken` at the level of `ScanString`. */
  lemma ScanStringShape(src: string, p: nat, line: nat)
    requires p < |src| && src[p] == '\"'
    ensures var r := ScanString(src, p, line);
            (r.token.kind.String? ==>
               var q := r.next.current - 1;
               p < q < |src| && src[q] == '\"' && r.token.kind.text == src[p + 1..q] &&
               (forall k :: 0 <= k < |r.token.kind.text| ==> r.token.kind.text[k] != '\"')) &&
            (!r.token.kind.String? ==>
               r.token.kind == Error("Unterminated string.") && r.next.current == |src| &&
               (forall k :: p < k < |src| ==> src[k] != '\"'))
  {
    var (q, _) := StringEnd(src, p + 1, line);
    if q < |src| {
      var text := src[p + 1..q];
      assert forall k :: 0 <= k < |text| ==> text[k] == src[p + 1 + k];
    }
  }

  /** A Number token's lexeme is digits, plus a dot and digits only when a
      digit follows the dot, and its value is the lexeme's decimal value. */
  lemma NumberToken(sc: Scanner)
    requires ValidScanner(sc)
    requires var p := SkipWhitespace(sc.source, sc.current, sc.line).0;
             p < |sc.source| && IsDigit(sc.source[p])
    ensures var p := SkipWhitespace(sc.source, sc.current, sc.line).0;
            var r := ScanToken(sc);
            var q := r.next.current;
            r.Scanned? && p < q <= |sc.source| && IsNumberLexeme(sc.source[p..q]) &&
            r.token.kind == Number(DecimalValue(sc.source[p..q])) &&
            (q < |sc.source| ==> !IsDigit(sc.source[q]))
  {
  }

  /** Any other character is an error token that consumes exactly it. */
  lemma UnexpectedCharacter(sc: Scanner)
    requires ValidScanner(sc)
    requires var p := SkipWhitespace(sc.source, sc.current, sc.line).0;
             p < |sc.source| && !IsAlphaNumeric(sc.source[p]) && SingleKind(sc.source[p]).None? &&
             !(sc.source[p] in {'!', '=', '<', '>', '\"'})
    ensures var (p, line) := SkipWhitespace(sc.source, sc.current, sc.line);
            ScanToken(sc) == Scanned(Token(Error("Unexpected character."), line), Scanner(sc.source, p + 1, line))
  {
  }

  /** An identifier runs over letters, digits and `_`; when its type is
      not a keyword, the token carries exactly that text. */
  lemma IdentifierToken(sc: Scanner)
    requires ValidScanner(sc)
    requires var p := SkipWhitespace(sc.source, sc.current, sc.line).0;
             p < |sc.source| && IsAlpha(sc.source[p])
    ensures var p := SkipWhitespace(sc.source, sc.current, sc.line).0;
            var r := ScanToken(sc);
            r.Scanned? ==>
              var q := r.next.current;
              p < q <= |sc.source| && (forall k :: p <= k < q ==> IsAlphaNumeric(sc.source[k])) &&
              (q < |sc.source| ==> !IsAlphaNumeric(sc.source[q])) &&
              (r.token.kind.Identifier? ==> r.token.kind.name == sc.source[p..q])
  {
  }

  /** The first token of a source text. */
  function FirstKind(src: string): Option<TokenType> {
    var r := ScanToken(NewScanner(src));
    if r.Scanned? then Some(r.token.kind) else None
  }

  /** A source that is a single word scans as `identifier_type` of the
      whole word. */
  lemma WordSource(w: string)
    requires |w| > 0 && IsAlpha(w[0]) && forall k :: 0 <= k < |w| ==> IsAlphaNumeric(w[k])
    ensures FirstKind(w) == IdentifierType(w, 0, |w|)
  {
    assert SkipWhitespace(w, 0, 1).0 == 0;
    assert WordEnd(w, 1) == |w|;
  }

  /** The keywords the scanner tests exercise, with their token types. */
  const TestedKeywords: seq<(string, TokenType)> := [
    ("and", And),
    ("class", Class),
    ("else", Else),
    ("false", False),
    ("for", For),
    ("fun", Fun),
    ("if", If),
    ("nil", Nil),
    ("or", Or),
    ("print", Print),
    ("return", Return),
    ("super", Super),
    ("this", This),
    ("var", Var),
    ("while", While)
  ]

  /** Each tested keyword is a word whose `identifier_type` is its
      keyword; with `WordSource`, a source holding just that word scans
      to the keyword token. */
  lemma KeywordScans(i: nat)
    requires i < |TestedKeywords|
    ensures var (w, kind) := TestedKeywords[i];
            |w| > 0 && IsAlpha(w[0]) && (forall k :: 0 <= k < |w| ==> IsAlphaNumeric(w[k])) &&
            IdentifierType(w, 0, |w|) == Some(kind)
  {
    if i == 0 {
      assert "and"[1..3] == "nd";
    } else if i == 1 {
      assert "class"[1..5] == "lass";
    } else if i == 2 {
      assert "else"[1..4] == "lse";
    } else if i == 3 {
      assert "false"[2..5] == "lse";
    } else if i == 4 {
      assert "for"[2..3] == "r";
    } else if i == 5 {
      assert "fun"[2..3] == "n";
    } else if i == 6 {
      assert "if"[1..2] == "f";
    } else if i == 7 {
      assert "nil"[1..3] == "il";
    } else if i == 8 {
      assert "or"[1..2] == "r";
    } else if i == 9 {
      assert "print"[1..5] == "rint";
    } else if i == 10 {
      assert "return"[1..6] == "eturn";
    } else if i == 11 {
      assert "super"[1..5] == "uper";
    } else if i == 12 {
      assert "this"[2..4] == "is";
    } else if i == 13 {
      assert "var"[1..3] == "ar";
    } else if i == 14 {
      assert "while"[1..5] == "hile";
    }
  }

  /** The quirks of the keyword trie: `true` is `This`, `andy` is `And`,
      a one-letter `a` at the end of the input slices out of range, and a
      word that only shares a first letter stays an identifier. */
  lemma KeywordQuirks()
    ensures IdentifierType("true", 0, 4) == Some(This)
    ensures IdentifierType("andy", 0, 4) == Some(And)
    ensures IdentifierType("a", 0, 1) == None
    ensures IdentifierType("foo_bar", 0, 7) == Some(Identifier("foo_bar"))
  {
    assert "true"[2..4] == "ue";
    assert "andy"[1..3] == "nd";
    assert "foo_bar"[2..3] == "o";
    assert "foo_bar"[0..7] == "foo_bar";
  }

  /** A lone `a` as the whole source makes the first `scan_token` panic. */
  lemma LoneLetterPanics()
    ensures FirstKind("a") == None
  {
    WordSource("a");
  }

  // ------------------------------------------------------------ token stream

  /** The tokens successive `scan_token` calls return, up to and including
      the first EOF, and whether a call panicked before an EOF came. */
  datatype Stream = Stream(tokens: seq<Token>, panics: bool)

  predicate WellEnded(s: Stream) {
    (forall i :: 0 <= i < |s.tokens| - 1 ==> s.tokens[i].kind != EOF) &&
    (!s.panics ==> |s.tokens| > 0 && s.tokens[|s.tokens| - 1].kind == EOF) &&
    (s.panics ==> forall i :: 0 <= i < |s.tokens| ==> s.tokens[i].kind != EOF)
  }

  function StreamFrom(sc: Scanner): (s: Stream)
    requires ValidScanner(sc)
    ensures WellEnded(s)
    decreases |sc.source| - sc.current
  {
    var r := ScanToken(sc);
    if r.Panic? then Stream([], true)
    else if r.token.kind == EOF then Stream([r.token], false)
    else
      var rest := StreamFrom(r.next);
      var toks := [r.token] + rest.tokens;
      assert forall i :: 0 < i < |toks| ==> toks[i] == rest.tokens[i - 1];
      Stream(toks, rest.panics)
  }

  /** Every token of a source text in scanning order, ending at its EOF
      unless a keyword check panics first. */
  function TokenStream(src: string): (s: Stream)
    ensures WellEnded(s)
  {
    StreamFrom(NewScanner(src))
  }

  /** One step of the stream: the first `scan_token` result, then the
      stream from where it left the scanner. */
  lemma StreamStep(sc: Scanner)
    requires ValidScanner(sc)
    ensures var r := ScanToken(sc);
            var s := StreamFrom(sc);
            (r.Panic? ==> s == Stream([], true)) &&
            (r.Scanned? && r.token.kind == EOF ==> s == Stream([r.token], false)) &&
            (r.Scanned? && r.token.kind != EOF ==>
               ValidScanner(r.next) && |r.next.source| - r.next.current < |sc.source| - sc.current &&
               s.tokens == [r.token] + StreamFrom(r.next).tokens)
  {
  }

  /** A non-EOF token heads the stream scanned from `sc`. */
  lemma StreamCons(sc: Scanner, tok: Token, next: Scanner)
    requires ValidScanner(sc) && ScanToken(sc) == Scanned(tok, next) && tok.kind != EOF
    ensures ValidScanner(next) && StreamFrom(sc) == Stream([tok] + StreamFrom(next).tokens, StreamFrom(next).panics)
  {
  }

  /** An EOF token ends it. */
  lemma StreamLast(sc: Scanner, tok: Token, next: Scanner)
    requires ValidScanner(sc) && ScanToken(sc) == Scanned(tok, next) && tok.kind == EOF
    ensures StreamFrom(sc) == Stream([tok], false)
  {
  }

  /** The `scan_token` calls on the source `1 + 2;`, one per token. */
  lemma SumScanOne(src: string)
    requires src == "1 + 2;"
    ensures ScanToken(Scanner(src, 0, 1)) == Scanned(Token(Number(1.0), 1), Scanner(src, 1, 1))
  {
    assert src[0..1] == "1";
    DecimalValueOfDigits("1");
    assert SkipWhitespace(src, 0, 1) == (0, 1) by { assert src[0..0] == []; }
    assert DigitsEnd(src, 1) == 1 && DigitsEnd(src, 0) == 1;
  }

  lemma SumScanPlus(src: string)
    requires src == "1 + 2;"
    ensures ScanToken(Scanner(src, 1, 1)) == Scanned(Token(Plus, 1), Scanner(src, 3, 1))
  {
    assert SkipWhitespace(src, 2, 1) == (2, 1) by { assert src[2..2] == []; }
    assert SkipWhitespace(src, 1, 1) == (2, 1);
  }

  lemma SumScanTwo(src: string)
    requires src == "1 + 2;"
    ensures ScanToken(Scanner(src, 3, 1)) == Scanned(Token(Number(2.0), 1), Scanner(src, 5, 1))
  {
    assert src[4..5] == "2";
    DecimalValueOfDigits("2");
    assert SkipWhitespace(src, 4, 1) == (4, 1) by { assert src[4..4] == []; }
    assert SkipWhitespace(src, 3, 1) == (4, 1);
    assert DigitsEnd(src, 5) == 5 && DigitsEnd(src, 4) == 5;
  }

  lemma SumScanSemicolon(src: string)
    requires src == "1 + 2;"
    ensures ScanToken(Scanner(src, 5, 1)) == Scanned(Token(Semicolon, 1), Scanner(src, 6, 1))
  {
    assert SkipWhitespace(src, 5, 1) == (5, 1) by { assert src[5..5] == []; }
  }

  lemma SumScanEnd(src: string)
    requires src == "1 + 2;"
    ensures ScanToken(Scanner(src, 6, 1)) == Scanned(Token(EOF, 1), Scanner(src, 6, 1))
  {
    assert SkipWhitespace(src, 6, 1) == (6, 1) by { assert src[6..6] == []; }
  }

  /** The stream of `1 + 2;` from its `;`, then from the `2` and from the `+`. */
  lemma SumStreamSemicolon(src: string)
    requires src == "1 + 2;"
    ensures StreamFrom(Scanner(src, 5, 1)) == Stream([Token(Semicolon, 1), Token(EOF, 1)], false)
  {
    SumScanEnd(src);
    StreamLast(Scanner(src, 6, 1), Token(EOF, 1), Scanner(src, 6, 1));
    SumScanSemicolon(src);
    StreamCons(Scanner(src, 5, 1), Token(Semicolon, 1), Scanner(src, 6, 1));
  }

  lemma SumStreamTwo(src: string)
    requires src == "1 + 2;"
    ensures StreamFrom(Scanner(src, 3, 1)) == Stream([Token(Number(2.0), 1), Token(Semicolon, 1), Token(EOF, 1)], false)
  {
    SumStreamSemicolon(src);
    SumScanTwo(src);
    StreamCons(Scanner(src, 3, 1), Token(Number(2.0), 1), Scanner(src, 5, 1));
  }

  lemma SumStreamPlus(src: string)
    requires src == "1 + 2;"
    ensures StreamFrom(Scanner(src, 1, 1)) ==
              Stream([Token(Plus, 1), Token(Number(2.0), 1), Token(Semicolon, 1), Token(EOF, 1)], false)
  {
    SumStreamTwo(src);
    SumScanPlus(src);
    StreamCons(Scanner(src, 1, 1), Token(Plus, 1), Scanner(src, 3, 1));
  }

  /** The ch17 scanner turns `1 + 2;` into the five tokens of the ch21
      compiler's test, all on line 1. */
  lemma SumSource(src: string)
    requires src == "1 + 2;"
    ensures TokenStream(src) ==
              Stream([Token(Number(1.0), 1), Token(Plus, 1), Token(Number(2.0), 1), Token(Semicolon, 1), Token(EOF, 1)], false)
  {
    SumStreamPlus(src);
    SumScanOne(src);
    StreamCons(Scanner(src, 0, 1), Token(Number(1.0), 1), Scanner(src, 1, 1));
  }

  /** A token no earlier than `line0` and no later than every line of
      an ordered rest keeps the list ordered and no earlier than `line0`. */
  lemma LinesCons(line0: nat, tok: Token, line1: nat, rest: seq<Token>)
    requires line0 <= tok.line <= line1
    requires forall i :: 0 <= i < |rest| ==> line1 <= rest[i].line
    requires forall i, j :: 0 <= i < j < |rest| ==> rest[i].line <= rest[j].line
    ensures forall i :: 0 <= i < |[tok] + rest| ==> line0 <= ([tok] + rest)[i].line
    ensures forall i, j :: 0 <= i < j < |[tok] + rest| ==> ([tok] + rest)[i].line <= ([tok] + rest)[j].line
  {
    var s := [tok] + rest;
    forall i, j | 0 <= i < j < |s| ensures s[i].line <= s[j].line {
      assert s[j] == rest[j - 1];
      if i > 0 { assert s[i] == rest[i - 1]; }
    }
  }

  /** Lines never go down along the stream. */
  lemma {:induction false} StreamLines(sc: Scanner)
    requires ValidScanner(sc)
    ensures forall i :: 0 <= i < |StreamFrom(sc).tokens| ==> sc.line <= StreamFrom(sc).tokens[i].line
    ensures forall i, j :: 0 <= i < j < |StreamFrom(sc).tokens| ==> StreamFrom(sc).tokens[i].line <= StreamFrom(sc).tokens[j].line
    decreases |sc.source| - sc.current
  {
    var r := ScanToken(sc);
    var s := StreamFrom(sc).tokens;
    StreamStep(sc);
    if r.Scanned? && r.token.kind != EOF {
      StreamLines(r.next);
      LinesCons(sc.line, r.token, r.next.line, StreamFrom(r.next).tokens);
    }
  }
}
