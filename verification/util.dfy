/** Small helpers shared by both Lox implementations: optional values,
    character classes, decimal text of naturals and the exact value of a
    decimal number lexeme. */
module Util {

  datatype Option<+T> = None | Some(value: T)

  /** Text for a value, computed by code outside the model (number
      formatting, token debug output). */
  type Render<-V> = V -> string

  predicate IsDigit(c: char) {
    '0' <= c <= '9'
  }

  /** Letters and underscore: both scanners use this class to start an identifier. */
  predicate IsAlpha(c: char) {
    ('a' <= c <= 'z') || ('A' <= c <= 'Z') || c == '_'
  }

  predicate IsAlphaNumeric(c: char) {
    IsAlpha(c) || IsDigit(c)
  }

  predicate AllDigits(s: string) {
    forall i :: 0 <= i < |s| ==> IsDigit(s[i])
  }

  function DigitValue(c: char): nat
    requires IsDigit(c)
  {
    c as int - '0' as int
  }

  function DigitChar(d: nat): (c: char)
    requires d < 10
    ensures IsDigit(c) && DigitValue(c) == d
  {
    ('0' as int + d) as char
  }

  /** The natural number spelled by a string of decimal digits, most significant first. */
  function DigitsValue(s: string): nat
    requires AllDigits(s)
  {
    if |s| == 0 then 0 else DigitsValue(s[..|s| - 1]) * 10 + DigitValue(s[|s| - 1])
  }

  function Pow10(n: nat): (r: nat)
    ensures r >= 1
  {
    if n == 0 then 1 else 10 * Pow10(n - 1)
  }

  /** Decimal text of a natural number, without leading zeros. */
  function NatToString(n: nat): (r: string)
    ensures |r| > 0 && AllDigits(r)
    ensures DigitsValue(r) == n
    ensures |r| > 1 ==> r[0] != '0'
  {
    if n < 10 then [DigitChar(n)]
    else
      var prefix := NatToString(n / 10);
      var r := prefix + [DigitChar(n % 10)];
      assert r[..|r| - 1] == prefix;
      r
  }

  /** Pads `s` on the left with `c` up to `width` characters (Rust's right-aligned and zero-padded width formats). */
  function PadLeft(s: string, width: nat, c: char): (r: string)
    ensures |r| == if |s| >= width then |s| else width
    ensures r[|r| - |s|..] == s
    ensures forall i :: 0 <= i < |r| - |s| ==> r[i] == c
  {
    if |s| >= width then s else seq(width - |s|, _ => c) + s
  }

  /** Pads `s` on the right with spaces up to `width` characters (Rust's left-aligned width format). */
  function PadRight(s: string, width: nat): (r: string)
    ensures |r| == if |s| >= width then |s| else width
    ensures r[..|s|] == s
    ensures forall i :: |s| <= i < |r| ==> r[i] == ' '
  {
    if |s| >= width then s else s + seq(width - |s|, _ => ' ')
  }

  /** Index of the first character at or after `from` that is not a digit (or |s|). */
  function DigitsEnd(s: string, from: nat): (p: nat)
    requires from <= |s|
    ensures from <= p <= |s|
    ensures AllDigits(s[from..(p)])
    ensures p < |s| ==> !IsDigit(s[p])
    decreases |s| - from
  {
    if from < |s| && IsDigit(s[from]) then DigitsEnd(s, from + 1) else from
  }

  /** A digit run `s[i..j]`, restated index by index in `s` itself. */
  lemma DigitsIndexed(s: string, i: nat, j: nat)
    requires i <= j <= |s| && AllDigits(s[i..j])
    ensures forall k :: i <= k < j ==> IsDigit(s[k])
  {
    forall k | i <= k < j
      ensures IsDigit(s[k])
    {
      assert s[i..j][k - i] == s[k];
    }
  }

  /** A number lexeme as both scanners accept it: digits, then optionally a dot and digits. */
  predicate IsNumberLexeme(s: string) {
    || (|s| > 0 && AllDigits(s))
    || (exists k :: 0 < k < |s| - 1 && s[k] == '.' && AllDigits(s[..k]) && AllDigits(s[k + 1..]))
  }

  /** The exact decimal value of a number lexeme: "12.34" is 1234/100.
      Rounding to a binary floating-point value is not modelled. */
  function DecimalValue(s: string): real
  {
    var k := DigitsEnd(s, 0);
    if k + 1 < |s| && s[k] == '.' && AllDigits(s[k + 1..]) then
      var frac := s[k + 1..];
      (DigitsValue(s[..k]) as real) + (DigitsValue(frac) as real) / (Pow10(|frac|) as real)
    else
      DigitsValue(s[..k]) as real
  }

  lemma DigitsPrefix(s: string)
    requires AllDigits(s)
    ensures DigitsEnd(s, 0) == |s|
  {
  }

  lemma {:induction false} NatToStringInjective(a: nat, b: nat)
    requires NatToString(a) == NatToString(b)
    ensures a == b
  {
    assert DigitsValue(NatToString(a)) == a;
  }

  /** `DecimalValue` of an integer lexeme is its natural value: "1234" is 1234.0. */
  lemma {:induction false} DecimalValueOfDigits(s: string)
    requires |s| > 0 && AllDigits(s)
    ensures DecimalValue(s) == DigitsValue(s) as real
  {
    DigitsPrefix(s);
    assert s[..|s|] == s;
  }

  /** Number of newline characters in `s`. */
  function Newlines(s: string): nat
  {
    if |s| == 0 then 0 else Newlines(s[..|s| - 1]) + (if s[|s| - 1] == '\n' then 1 else 0)
  }

  lemma {:induction false} NewlinesAppend(a: string, b: string)
    ensures Newlines(a + b) == Newlines(a) + Newlines(b)
    decreases |b|
  {
    if |b| == 0 {
      assert a + b == a;
    } else {
      var b2 := b[..|b| - 1];
      assert (a + b)[..|a + b| - 1] == a + b2;
      NewlinesAppend(a, b2);
    }
  }

  lemma NewlinesSplit(s: string, i: nat, j: nat, k: nat)
    requires i <= j <= k <= |s|
    ensures Newlines(s[i..k]) == Newlines(s[i..j]) + Newlines(s[j..k])
  {
    assert s[i..k] == s[i..j] + s[j..k];
    NewlinesAppend(s[i..j], s[j..k]);
  }

  lemma NewlinesStep(s: string, i: nat, j: nat)
    requires i <= j < |s|
    ensures Newlines(s[i..j + 1]) == Newlines(s[i..j]) + (if s[j] == '\n' then 1 else 0)
  {
    assert s[i..j + 1][..j - i] == s[i..j];
  }

  lemma NewlinesNone(s: string)
    requires forall k :: 0 <= k < |s| ==> s[k] != '\n'
    ensures Newlines(s) == 0
  {
    if |s| > 0 {
      NewlinesNone(s[..|s| - 1]);
    }
  }
}
