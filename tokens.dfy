/** Tokens, the character classes the tokenizer tests, and number literals with their values. */
module Tokens {
  import opened Outcomes

  /** A typed token. Number and operator tokens keep their literal text. */
  datatype Token = Number(text: string) | Operator(symbol: string) | LeftParen | RightParen

  /** Numbers and operators are the tokens that belong in postfix form. */
  predicate Emitted(x: Token)
  {
    x.Number? || x.Operator?
  }

  /** A token sequence with no parenthesis in it. */
  predicate NoParens(s: seq<Token>)
  {
    forall k :: 0 <= k < |s| ==> Emitted(s[k])
  }

  lemma NoParensFirst(s: seq<Token>)
    requires |s| > 0
    ensures NoParens(s) <==> Emitted(s[0]) && NoParens(s[1..])
  {
    if Emitted(s[0]) && NoParens(s[1..]) {
      forall k | 0 <= k < |s| ensures Emitted(s[k]) {
        if k > 0 { assert s[k] == s[1..][k - 1]; }
      }
    }
  }

  /** A token's literal text, as the engine shows it. */
  function Text(t: Token): string
  {
    match t
    case Number(s) => s
    case Operator(s) => s
    case LeftParen => "("
    case RightParen => ")"
  }

  /** A decimal digit. */
  predicate IsDigit(c: char)
  {
    '0' <= c <= '9'
  }

  /**
   * Java's Character.isWhitespace: the space, line and paragraph separators except the
   * non-breaking ones (U+00A0, U+2007, U+202F), plus tab, line feed, U+000B, form feed,
   * carriage return and U+001C..U+001F.
   */
  predicate IsWhitespace(c: char)
  {
    c == ' ' || c == '\t' || c == '\n' || c == '\U{B}' || c == '\U{C}' || c == '\r'
    || ('\U{1C}' <= c <= '\U{1F}')
    || c == '\U{1680}' || ('\U{2000}' <= c <= '\U{2006}') || ('\U{2008}' <= c <= '\U{200A}')
    || c == '\U{2028}' || c == '\U{2029}' || c == '\U{205F}' || c == '\U{3000}'
  }

  predicate AllDigits(s: string)
  {
    forall k :: 0 <= k < |s| ==> IsDigit(s[k])
  }

  /** The value of a run of decimal digits, most significant first. */
  function DigitsValue(s: string): nat
    requires AllDigits(s)
  {
    if |s| == 0 then 0
    else 10 * DigitsValue(s[..|s| - 1]) + (s[|s| - 1] as int - '0' as int)
  }

  /** The literals the tokenizer produces: an optional leading minus followed by one or more digits. */
  predicate IsNumeral(s: string)
  {
    (|s| > 0 && AllDigits(s)) || (|s| > 1 && s[0] == '-' && AllDigits(s[1..]))
  }

  /** Parsing a number literal into its value (Double.parseDouble, on the literals modelled here). */
  function ParseNumeral(s: string): (r: Option<int>)
    ensures r.Some? <==> IsNumeral(s)
    ensures r.Some? && s[0] != '-' ==> r.value >= 0
    ensures r.Some? && s[0] == '-' ==> r.value <= 0
  {
    if |s| > 1 && s[0] == '-' && AllDigits(s[1..]) then Some(-(DigitsValue(s[1..]) as int))
    else if |s| > 0 && AllDigits(s) then Some(DigitsValue(s))
    else None
  }

  /** Decimal rendering of a natural number, without leading zeros. */
  function NatToString(n: nat): (s: string)
    ensures |s| > 0 && AllDigits(s)
    ensures |s| > 1 ==> s[0] != '0'
  {
    var d := ['0' + (n % 10) as char];
    if n < 10 then d else NatToString(n / 10) + d
  }

  /** Decimal rendering of an integer, as the engine prints a whole-number value. */
  function IntToString(n: int): string
  {
    if n < 0 then "-" + NatToString(-n) else NatToString(n)
  }

  lemma {:induction false} NatToStringValue(n: nat)
    ensures DigitsValue(NatToString(n)) == n
  {
    var d := ['0' + (n % 10) as char];
    if n >= 10 {
      var s := NatToString(n);
      NatToStringValue(n / 10);
      assert s[..|s| - 1] == NatToString(n / 10);
    }
  }

  /** Rendering a value and parsing the text back gives the value again. */
  lemma IntToStringRoundTrip(n: int)
    ensures ParseNumeral(IntToString(n)) == Some(n)
  {
    if n < 0 {
      NatToStringValue(-n);
      assert IntToString(n)[1..] == NatToString(-n);
    } else {
      NatToStringValue(n);
    }
  }
}
