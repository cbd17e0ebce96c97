/** The tokenizer: one left-to-right scan of the trimmed input into typed tokens. */
module Tokenizer {
  import opened Outcomes
  import opened Tokens
  import opened Operators

  /** Every character is one that String.trim drops: at or below U+0020. */
  predicate Trimmable(u: string)
  {
    forall k :: 0 <= k < |u| ==> u[k] <= ' '
  }

  /** Java's String.trim: drops every leading and trailing character at or below U+0020. */
  function TrimStart(s: string): (r: string)
    ensures |r| <= |s| && r == s[|s| - |r|..]
    ensures Trimmable(s[..|s| - |r|])
    ensures |r| == 0 || r[0] > ' '
    decreases |s|
  {
    if |s| > 0 && s[0] <= ' ' then
      var r := TrimStart(s[1..]);
      assert s[..|s| - |r|] == [s[0]] + s[1..][..|s| - 1 - |r|];
      r
    else s
  }

  function TrimEnd(s: string): (r: string)
    ensures |r| <= |s| && r == s[..|r|]
    ensures Trimmable(s[|r|..])
    ensures |r| == 0 || r[|r| - 1] > ' '
    decreases |s|
  {
    if |s| > 0 && s[|s| - 1] <= ' ' then
      var r := TrimEnd(s[..|s| - 1]);
      assert s[|r|..] == s[..|s| - 1][|r|..] + [s[|s| - 1]];
      r
    else s
  }

  /** `r` is `s[a..b]`, and everything outside that slice is at or below U+0020. */
  predicate TrimmedSlice(s: string, r: string, a: nat, b: nat)
  {
    a <= b <= |s| && r == s[a..b] && Trimmable(s[..a]) && Trimmable(s[b..])
  }

  function Trim(s: string): (r: string)
    ensures |r| == 0 || (r[0] > ' ' && r[|r| - 1] > ' ')
  {
    TrimEnd(TrimStart(s))
  }

  /** The trimmed string is a slice of the input, and only characters at or below U+0020 lie outside it. */
  lemma TrimSlice(s: string)
    ensures exists a, b :: TrimmedSlice(s, Trim(s), a, b)
  {
    var front := TrimStart(s);
    var a: nat := |s| - |front|;
    var r := Trim(s);
    assert r == TrimEnd(front);
    assert front == s[a..] && r == front[..|r|];
    assert r == s[a..a + |r|];
    assert s[a + |r|..] == front[|r|..];
    assert TrimmedSlice(s, r, a, a + |r|);
  }

  /** A minus sign may start a negative literal after no token, an operator or a left parenthesis. */
  predicate Fusible(last: Option<Token>)
  {
    last.None? || last.value.Operator? || last.value.LeftParen?
  }

  /** Position `i` starts a number literal: a digit, or a fusible minus immediately followed by a digit. */
  predicate StartsNumber(t: string, i: nat, last: Option<Token>)
    requires i < |t|
  {
    IsDigit(t[i]) || (t[i] == '-' && Fusible(last) && i + 1 < |t| && IsDigit(t[i + 1]))
  }

  /** The end of the maximal run of digits that starts at `j`. */
  function DigitRunEnd(t: string, j: nat): (k: nat)
    requires j <= |t|
    ensures j <= k <= |t| && AllDigits(t[j..k])
    ensures k < |t| ==> !IsDigit(t[k])
    ensures j < |t| && IsDigit(t[j]) ==> k > j
    decreases |t| - j
  {
    if j < |t| && IsDigit(t[j]) then DigitRunEnd(t, j + 1) else j
  }

  /** The tokens the scan produces: well-formed literals and registered one-character operators. */
  predicate WellFormedToken(reg: Registry, tok: Token)
  {
    match tok
    case Number(s) => IsNumeral(s)
    case Operator(sym) => |sym| == 1 && sym in reg
    case _ => true
  }

  /**
   * The token that starts at the non-whitespace position `i`, with the position just after it,
   * or None when no branch accepts the character there. The token's text is exactly the slice
   * of the input it consumed.
   */
  function NextToken(reg: Registry, t: string, i: nat, last: Option<Token>): (r: Option<(Token, nat)>)
    requires i < |t|
    ensures r.Some? ==> i < r.value.1 <= |t| && Text(r.value.0) == t[i..r.value.1]
    ensures r.Some? ==> WellFormedToken(reg, r.value.0)
    ensures r.Some? ==> (r.value.0.Number? <==> StartsNumber(t, i, last))
    ensures r.Some? && r.value.0.Number? ==> r.value.1 == |t| || !IsDigit(t[r.value.1])
    ensures r.None? <==> !StartsNumber(t, i, last) && t[i] != '(' && t[i] != ')' && [t[i]] !in reg
  {
    var c := t[i];
    if c == '(' then Some((LeftParen, i + 1))
    else if c == ')' then Some((RightParen, i + 1))
    else if StartsNumber(t, i, last) then
      var j0 := if c == '-' then i + 1 else i;
      var j := DigitRunEnd(t, j0);
      assert AllDigits(t[j0..j]);
      assert c == '-' ==> t[i..j][1..] == t[j0..j];
      assert c != '-' ==> t[i..j] == t[j0..j];
      Some((Number(t[i..j]), j))
    else if [c] in reg then Some((Operator([c]), i + 1))
    else None
  }

  /**
   * The tokens of `t` from position `i` on, given the previously emitted token `last`. Whitespace
   * is skipped; an unrecognised character stops the scan with its position.
   */
  function Scan(reg: Registry, t: string, i: nat, last: Option<Token>): (r: Result<seq<Token>>)
    requires i <= |t|
    ensures r.Ok? ==> |r.value| <= |t| - i
    decreases |t| - i
  {
    if i == |t| then Ok([])
    else if IsWhitespace(t[i]) then Scan(reg, t, i + 1, last)
    else match NextToken(reg, t, i, last)
      case None => Err(UnknownToken(i, t[i]))
      case Some((tok, j)) => Then([tok], Scan(reg, t, j, Some(tok)))
  }

  /** The tokens of an input string. */
  function TokensOf(reg: Registry, s: string): (r: Result<seq<Token>>)
    ensures r.Ok? ==> |r.value| <= |s|
  {
    Scan(reg, Trim(s), 0, None)
  }

  /** A scan at a non-whitespace position is the token found there followed by the scan after it. */
  lemma ScanAt(reg: Registry, t: string, i: nat, last: Option<Token>, tok: Token, j: nat)
    requires i < |t| && !IsWhitespace(t[i]) && NextToken(reg, t, i, last) == Some((tok, j))
    ensures Scan(reg, t, i, last) == Then([tok], Scan(reg, t, j, Some(tok)))
  {
  }

  /** Advances over the digits starting at `j`. */
  method SkipDigits(t: string, j: nat) returns (k: nat)
    requires j <= |t|
    ensures k == DigitRunEnd(t, j)
  {
    k := j;
    while k < |t| && IsDigit(t[k])
      invariant j <= k <= |t|
      invariant DigitRunEnd(t, k) == DigitRunEnd(t, j)
    {
      k := k + 1;
    }
  }

  /** The branches of the scan loop that read one token at a non-whitespace position. */
  method ReadToken(reg: Registry, input: string, i: nat, last: Option<Token>) returns (r: Option<(Token, nat)>)
    requires i < |input| && !IsWhitespace(input[i])
    ensures r == NextToken(reg, input, i, last)
  {
    var c := input[i];
    if c == '(' {
      return Some((LeftParen, i + 1));
    }
    if c == ')' {
      return Some((RightParen, i + 1));
    }
    // a number, or a minus fused into a negative number
    if IsDigit(c) || (c == '-' && (last.None? || last.value.Operator? || last.value.LeftParen?) && i + 1 < |input| && IsDigit(input[i + 1])) {
      var j := i;
      if input[j] == '-' {
        j := j + 1;
      }
      j := SkipDigits(input, j);
      return Some((Number(input[i..j]), j));
    }
    // a single-character registered operator
    if [c] in reg {
      return Some((Operator([c]), i + 1));
    }
    return None;
  }

  method Tokenize(reg: Registry, s: string) returns (r: Result<seq<Token>>)
    ensures r == TokensOf(reg, s)
  {
    var input := Trim(s);
    r := ScanTokens(reg, input);
  }

  /** The scan loop of the tokenizer, over the already trimmed input. */
  method ScanTokens(reg: Registry, input: string) returns (r: Result<seq<Token>>)
    ensures r == Scan(reg, input, 0, None)
  {
    var out: seq<Token> := [];
    var i := 0;
    var last: Option<Token> := None;
    ThenThen([], [], Scan(reg, input, 0, None));
    while i < |input|
      invariant 0 <= i <= |input|
      invariant Scan(reg, input, 0, None) == Then(out, Scan(reg, input, i, last))
    {
      var c := input[i];
      if IsWhitespace(c) {
        assert Scan(reg, input, i, last) == Scan(reg, input, i + 1, last);
        i := i + 1;
        continue;
      }
      var next := ReadToken(reg, input, i, last);
      if next.None? {
        return Err(UnknownToken(i, c));
      }
      var (tok, j) := next.value;
      ScanAt(reg, input, i, last, tok, j);
      ThenThen(out, [tok], Scan(reg, input, j, Some(tok)));
      out := out + [tok];
      last := Some(out[|out| - 1]);
      i := j;
    }
    assert out + [] == out;
    return Ok(out);
  }
}
