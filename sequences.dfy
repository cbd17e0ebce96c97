/** Reversal of sequences, the order in which a stack hands out its entries. */
module Sequences {

  /** The elements of `s` in the opposite order. */
  function Reversed<T>(s: seq<T>): (r: seq<T>)
    ensures |r| == |s|
    ensures forall k :: 0 <= k < |s| ==> r[k] == s[|s| - 1 - k]
  {
    if |s| == 0 then [] else Reversed(s[1..]) + [s[0]]
  }

  /** Taking the last element first: the reversal starts with it and goes on with the reversal of the rest. */
  lemma {:induction false} ReversedLast<T>(s: seq<T>)
    requires |s| > 0
    ensures Reversed(s) == [s[|s| - 1]] + Reversed(s[..|s| - 1])
    decreases |s|
  {
    if |s| > 1 {
      var t := s[1..];
      ReversedLast(t);
      assert t[|t| - 1] == s[|s| - 1];
      assert t[..|t| - 1] == s[..|s| - 1][1..];
      assert s[..|s| - 1][0] == s[0];
    }
  }

  /** Dropping the last element of `s` before taking the suffix from `m`: its reversal loses its first element. */
  lemma ReversedSuffixLast<T>(s: seq<T>, m: nat)
    requires m < |s|
    ensures Reversed(s[m..]) == [s[|s| - 1]] + Reversed(s[..|s| - 1][m..])
  {
    ReversedLast(s[m..]);
    assert s[m..][..|s| - m - 1] == s[..|s| - 1][m..];
  }
}
