/** What the tokenizer promises: where it fails, what it keeps, and when a minus joins a number. */
module TokenizerProperties {
  import opened Outcomes
  import opened Tokens
  import opened Operators
  import opened Tokenizer

  /** A character that no branch of the scan accepts. */
  predicate Rejected(reg: Registry, c: char)
  {
    !IsWhitespace(c) && c != '(' && c != ')' && !IsDigit(c) && [c] !in reg
  }

  /** The token emitted just before the k-th one (`last` for the first). */
  function Before(last: Option<Token>, ts: seq<Token>, k: nat): Option<Token>
    requires k <= |ts|
  {
    if k == 0 then last else Some(ts[k - 1])
  }

  predicate NoWhitespaceFrom(t: string, i: nat)
  {
    forall k :: i <= k < |t| ==> !IsWhitespace(t[k])
  }

  /** The input with every whitespace character removed. */
  function RemoveWhitespace(s: string): string
  {
    if |s| == 0 then "" else (if IsWhitespace(s[0]) then "" else [s[0]]) + RemoveWhitespace(s[1..])
  }

  /** The tokens' texts, one after the other. */
  function Spelling(ts: seq<Token>): string
  {
    if |ts| == 0 then "" else Text(ts[0]) + Spelling(ts[1..])
  }

  /** A successful scan at a non-whitespace position is the next token followed by the rest. */
  lemma ScanCons(reg: Registry, t: string, i: nat, last: Option<Token>)
    requires i < |t| && !IsWhitespace(t[i])
    requires Scan(reg, t, i, last).Ok?
    ensures NextToken(reg, t, i, last).Some?
    ensures var (tok, j) := NextToken(reg, t, i, last).value;
      Scan(reg, t, j, Some(tok)).Ok? && Scan(reg, t, i, last).value == [tok] + Scan(reg, t, j, Some(tok)).value
  {
  }

  /** The only failure of the scan is an unknown character, reported with its own position. */
  lemma {:induction false} ScanError(reg: Registry, t: string, i: nat, last: Option<Token>)
    requires i <= |t|
    ensures var r := Scan(reg, t, i, last);
      r.Err? ==> r.error.UnknownToken? && i <= r.error.position < |t|
                 && r.error.ch == t[r.error.position] && Rejected(reg, r.error.ch)
    decreases |t| - i
  {
    if i < |t| {
      if IsWhitespace(t[i]) {
        ScanError(reg, t, i + 1, last);
      } else if NextToken(reg, t, i, last).Some? {
        var (tok, j) := NextToken(reg, t, i, last).value;
        ScanError(reg, t, j, Some(tok));
      }
    }
  }

  /** Cutting the input at a position that holds no digit leaves every digit run before it as it was. */
  lemma {:induction false} DigitRunEndPrefix(t: string, p: nat, j: nat)
    requires j <= p <= |t| && (p == |t| || !IsDigit(t[p]))
    ensures DigitRunEnd(t[..p], j) == DigitRunEnd(t, j)
    decreases p - j
  {
    if j < p {
      assert t[..p][j] == t[j];
      DigitRunEndPrefix(t, p, j + 1);
    }
  }

  /** Before a position that holds no digit, the input cut there reads the same token as the whole input. */
  lemma NextTokenPrefix(reg: Registry, t: string, p: nat, i: nat, last: Option<Token>)
    requires i < p <= |t| && (p == |t| || !IsDigit(t[p]))
    ensures NextToken(reg, t[..p], i, last) == NextToken(reg, t, i, last)
  {
    var u := t[..p];
    assert u[i] == t[i];
    if i + 1 < p {
      assert u[i + 1] == t[i + 1];
    }
    assert StartsNumber(u, i, last) == StartsNumber(t, i, last);
    if t[i] != '(' && t[i] != ')' && StartsNumber(t, i, last) {
      var j0 := if t[i] == '-' then i + 1 else i;
      DigitRunEndPrefix(t, p, j0);
      var j := DigitRunEnd(u, j0);
      assert j == DigitRunEnd(t, j0) && j <= p;
      assert u[i..j] == t[i..j];
      assert NextToken(reg, u, i, last) == Some((Number(u[i..j]), j));
      assert NextToken(reg, t, i, last) == Some((Number(t[i..j]), j));
    }
  }

  /**
   * The scan stops at the first character it rejects: the input cut just before the reported
   * position scans without error.
   */
  lemma {:induction false} ScanErrorFirst(reg: Registry, t: string, i: nat, last: Option<Token>)
    requires i <= |t|
    ensures var r := Scan(reg, t, i, last);
      r.Err? ==> r.error.UnknownToken? && i <= r.error.position < |t| && Scan(reg, t[..r.error.position], i, last).Ok?
    decreases |t| - i
  {
    var r := Scan(reg, t, i, last);
    if i < |t| && r.Err? {
      ScanError(reg, t, i, last);
      var p := r.error.position;
      var u := t[..p];
      if IsWhitespace(t[i]) {
        assert r == Scan(reg, t, i + 1, last);
        ScanErrorFirst(reg, t, i + 1, last);
        assert u[i] == t[i];
        assert Scan(reg, u, i, last) == Scan(reg, u, i + 1, last);
      } else if NextToken(reg, t, i, last).Some? {
        var (tok, j) := NextToken(reg, t, i, last).value;
        assert r == Then([tok], Scan(reg, t, j, Some(tok)));
        ScanErrorFirst(reg, t, j, Some(tok));
        NextTokenPrefix(reg, t, p, i, last);
        assert u[i] == t[i];
        assert Scan(reg, u, i, last) == Then([tok], Scan(reg, u, j, Some(tok)));
      }
    }
  }

  /** An input made only of whitespace, parentheses, digits and registered operators always tokenizes. */
  lemma ScanAccepts(reg: Registry, t: string, i: nat, last: Option<Token>)
    requires i <= |t|
    requires forall k :: i <= k < |t| ==> !Rejected(reg, t[k])
    ensures Scan(reg, t, i, last).Ok?
  {
    ScanError(reg, t, i, last);
  }

  lemma {:induction false} RemoveWhitespaceChunk(t: string, i: nat, j: nat)
    requires i <= j <= |t|
    requires forall k :: i <= k < j ==> !IsWhitespace(t[k])
    ensures RemoveWhitespace(t[i..]) == t[i..j] + RemoveWhitespace(t[j..])
    decreases j - i
  {
    if i < j {
      assert t[i..][1..] == t[i + 1..];
      RemoveWhitespaceChunk(t, i + 1, j);
      assert t[i..j] == [t[i]] + t[i + 1..j];
    }
  }

  lemma SpellingCons(tok: Token, ts: seq<Token>)
    ensures Spelling([tok] + ts) == Text(tok) + Spelling(ts)
  {
    assert ([tok] + ts)[1..] == ts;
  }

  /** Every non-whitespace character ends up, in order, in exactly one token's text. */
  lemma {:induction false} ScanSpelling(reg: Registry, t: string, i: nat, last: Option<Token>)
    requires i <= |t|
    ensures var r := Scan(reg, t, i, last);
      r.Ok? ==> Spelling(r.value) == RemoveWhitespace(t[i..])
    decreases |t| - i
  {
    if i < |t| && Scan(reg, t, i, last).Ok? {
      if IsWhitespace(t[i]) {
        assert Scan(reg, t, i, last) == Scan(reg, t, i + 1, last);
        ScanSpelling(reg, t, i + 1, last);
        assert t[i..][1..] == t[i + 1..];
      } else {
        ScanCons(reg, t, i, last);
        var (tok, j) := NextToken(reg, t, i, last).value;
        ScanSpelling(reg, t, j, Some(tok));
        SpellingCons(tok, Scan(reg, t, j, Some(tok)).value);
        TokenChunk(reg, t, i, j, tok);
      }
    }
  }

  /** A token's text, taken from the input, holds no whitespace. */
  lemma TokenChunk(reg: Registry, t: string, i: nat, j: nat, tok: Token)
    requires i < j <= |t| && Text(tok) == t[i..j] && WellFormedToken(reg, tok) && !IsWhitespace(t[i])
    ensures RemoveWhitespace(t[i..]) == Text(tok) + RemoveWhitespace(t[j..])
  {
    if tok.Number? {
      NumeralNoWhitespace(tok.text);
      assert forall k :: i <= k < j ==> t[k] == Text(tok)[k - i];
    } else {
      assert j == i + 1;
    }
    RemoveWhitespaceChunk(t, i, j);
  }

  lemma NumeralNoWhitespace(s: string)
    requires IsNumeral(s)
    ensures forall k :: 0 <= k < |s| ==> !IsWhitespace(s[k])
  {
    forall k | 0 <= k < |s| ensures IsDigit(s[k]) || s[k] == '-' {
      if k > 0 && !AllDigits(s) {
        assert s[1..][k - 1] == s[k];
      }
    }
  }

  predicate AllWellFormed(reg: Registry, ts: seq<Token>)
  {
    forall k :: 0 <= k < |ts| ==> WellFormedToken(reg, ts[k])
  }

  /** Every number token is a well-formed literal; every operator token a registered single character. */
  lemma {:induction false} ScanWellFormed(reg: Registry, t: string, i: nat, last: Option<Token>)
    requires i <= |t|
    ensures var r := Scan(reg, t, i, last);
      r.Ok? ==> AllWellFormed(reg, r.value)
    decreases |t| - i
  {
    if i < |t| && Scan(reg, t, i, last).Ok? {
      if IsWhitespace(t[i]) {
        assert Scan(reg, t, i, last) == Scan(reg, t, i + 1, last);
        ScanWellFormed(reg, t, i + 1, last);
      } else {
        ScanCons(reg, t, i, last);
        var (tok, j) := NextToken(reg, t, i, last).value;
        var rest := Scan(reg, t, j, Some(tok)).value;
        ScanWellFormed(reg, t, j, Some(tok));
        assert Scan(reg, t, i, last).value == [tok] + rest;
        assert forall k :: 0 < k <= |rest| ==> ([tok] + rest)[k] == rest[k - 1];
      }
    }
  }

  /**
   * The first token of a scan that starts at a non-whitespace character begins with that
   * character, and it is a number exactly when that position starts a number literal.
   */
  lemma FirstToken(reg: Registry, t: string, i: nat, last: Option<Token>)
    requires i <= |t|
    requires i < |t| ==> !IsWhitespace(t[i])
    requires Scan(reg, t, i, last).Ok? && |Scan(reg, t, i, last).value| > 0
    ensures i < |t|
    ensures var tok := Scan(reg, t, i, last).value[0];
      |Text(tok)| > 0 && Text(tok)[0] == t[i] && (tok.Number? <==> StartsNumber(t, i, last))
  {
    ScanCons(reg, t, i, last);
  }

  /** A minus is fused into a number only after no token, an operator or a left parenthesis. */
  lemma {:induction false} NegativeLiteralContext(reg: Registry, t: string, i: nat, last: Option<Token>)
    requires i <= |t|
    ensures var r := Scan(reg, t, i, last);
      r.Ok? ==> forall k :: 0 <= k < |r.value| && r.value[k].Number? && |r.value[k].text| > 0 && r.value[k].text[0] == '-'
                  ==> Fusible(Before(last, r.value, k))
    decreases |t| - i
  {
    if i < |t| && Scan(reg, t, i, last).Ok? {
      if IsWhitespace(t[i]) {
        NegativeLiteralContext(reg, t, i + 1, last);
      } else {
        ScanCons(reg, t, i, last);
        var (tok, j) := NextToken(reg, t, i, last).value;
        NegativeLiteralContext(reg, t, j, Some(tok));
        var ts, rest := Scan(reg, t, i, last).value, Scan(reg, t, j, Some(tok)).value;
        forall k | 0 < k < |ts|
          ensures Before(last, ts, k) == Before(Some(tok), rest, k - 1) && ts[k] == rest[k - 1]
        {
        }
      }
    }
  }

  /**
   * In whitespace-free input two number tokens are never adjacent: a literal takes the whole
   * digit run, and no minus fuses right after it.
   */
  lemma {:induction false} NoAdjacentNumbers(reg: Registry, t: string, i: nat, last: Option<Token>)
    requires i <= |t|
    requires NoWhitespaceFrom(t, i)
    ensures var r := Scan(reg, t, i, last);
      r.Ok? ==> forall k :: 0 <= k < |r.value| - 1 ==> !(r.value[k].Number? && r.value[k + 1].Number?)
    decreases |t| - i
  {
    if i < |t| && Scan(reg, t, i, last).Ok? {
      ScanCons(reg, t, i, last);
      var (tok, j) := NextToken(reg, t, i, last).value;
      NoAdjacentNumbers(reg, t, j, Some(tok));
      var ts, rest := Scan(reg, t, i, last).value, Scan(reg, t, j, Some(tok)).value;
      if tok.Number? && |rest| > 0 {
        FirstToken(reg, t, j, Some(tok));
      }
      forall k | 0 < k < |ts| ensures ts[k] == rest[k - 1] {
      }
    }
  }

  /**
   * In whitespace-free input a minus operator directly followed by a digit literal was not in a
   * fusible position: had it been, the scan would have read the minus and the digits as one number.
   */
  lemma {:induction false} MinusOperatorContext(reg: Registry, t: string, i: nat, last: Option<Token>)
    requires i <= |t|
    requires NoWhitespaceFrom(t, i)
    ensures var r := Scan(reg, t, i, last);
      r.Ok? ==> forall k :: 0 <= k < |r.value| - 1 && r.value[k] == Operator("-") && r.value[k + 1].Number?
                  && |r.value[k + 1].text| > 0 && IsDigit(r.value[k + 1].text[0])
                  ==> !Fusible(Before(last, r.value, k))
    decreases |t| - i
  {
    if i < |t| && Scan(reg, t, i, last).Ok? {
      ScanCons(reg, t, i, last);
      var (tok, j) := NextToken(reg, t, i, last).value;
      MinusOperatorContext(reg, t, j, Some(tok));
      var ts, rest := Scan(reg, t, i, last).value, Scan(reg, t, j, Some(tok)).value;
      if tok == Operator("-") && |rest| > 0 {
        FirstToken(reg, t, j, Some(tok));
      }
      forall k | 0 < k < |ts|
        ensures Before(last, ts, k) == Before(Some(tok), rest, k - 1) && ts[k] == rest[k - 1]
      {
      }
    }
  }
}
