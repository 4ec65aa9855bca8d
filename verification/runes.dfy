/**
 * Text as the relay pipeline sees it once `[]rune(input)` has decoded a Go
 * string, and the rune-reversal helper of internal/eda/utils.go.
 */
module Runes {

  /** One Go `rune`: a Unicode code point. */
  type Rune = int

  /** A decoded Go string. */
  type Text = seq<Rune>

  /** Reference definition of reversal: the first element moves to the back. */
  function Reverse<T>(s: seq<T>): (r: seq<T>)
    ensures |r| == |s|
  {
    if |s| == 0 then [] else Reverse(s[1..]) + [s[0]]
  }

  /** Position i of the reversal holds position |s|-1-i of the original. */
  lemma {:induction false} ReverseAt<T>(s: seq<T>)
    ensures forall i :: 0 <= i < |s| ==> Reverse(s)[i] == s[|s| - 1 - i]
  {
    if |s| > 0 {
      ReverseAt(s[1..]);
      forall i | 0 <= i < |s|
        ensures Reverse(s)[i] == s[|s| - 1 - i]
      {
        if i < |s| - 1 {
          assert Reverse(s)[i] == Reverse(s[1..])[i];
        }
      }
    }
  }

  /** Reversing twice gives back the original sequence. */
  lemma {:induction false} ReverseInvolution<T>(s: seq<T>)
    ensures Reverse(Reverse(s)) == s
  {
    ReverseAt(s);
    ReverseAt(Reverse(s));
  }

  /**
   * ReverseString: decode into a rune buffer, swap the two ends inward
   * while `i < j`, and re-encode the buffer.
   */
  method ReverseString(input: Text) returns (output: Text)
    ensures |output| == |input|
    ensures forall i :: 0 <= i < |input| ==> output[i] == input[|input| - 1 - i]
    ensures |input| <= 1 ==> output == input
    ensures output == Reverse(input)
  {
    var runes := new Rune[|input|](k requires 0 <= k < |input| => input[k]);
    var n := runes.Length;
    var i, j := 0, n - 1;
    while i < j
      invariant 0 <= i && j == n - 1 - i && i <= j + 1
      invariant forall k :: 0 <= k < i ==> runes[k] == input[n - 1 - k]
      invariant forall k :: j < k < n ==> runes[k] == input[n - 1 - k]
      invariant forall k :: i <= k <= j ==> runes[k] == input[k]
    {
      runes[i], runes[j] := runes[j], runes[i];
      i, j := i + 1, j - 1;
    }
    output := runes[..];
    ReverseAt(input);
  }
}
