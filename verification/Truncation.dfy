/** Truncation of text at a byte limit: headBytes of plugin/memory.go seen on characters, and
    what it can do to text that neutralize has made safe. */
module Truncation {
  import B = Bytes

  function HeadLen(s: string, max: nat): (n: nat)
    ensures n <= |s|
  {
    if s == "" || |B.EncodeChar(s[0])| > max then 0 else 1 + HeadLen(s[1..], max - |B.EncodeChar(s[0])|)
  }

  function HeadText(s: string, max: nat): string { s[..HeadLen(s, max)] }

  lemma {:induction false} HeadLenFits(s: string, max: nat)
    ensures |B.Encode(HeadText(s, max))| <= max
    ensures HeadLen(s, max) < |s| ==> |B.Encode(s[..HeadLen(s, max) + 1])| > max
  {
    if s != "" {
      B.EncodeCharShape(s[0]);
      if |B.EncodeChar(s[0])| <= max {
        HeadLenFits(s[1..], max - |B.EncodeChar(s[0])|);
        var n := HeadLen(s, max);
        assert s[..n][1..] == s[1..][..n - 1];
        if n < |s| { assert s[..n + 1][1..] == s[1..][..n]; }
      } else {
        assert s[..1] == [s[0]];
        B.EncodeOne(s[0]);
      }
    }
  }

  lemma LongerEncodesLonger(s: string, j: nat, k: nat)
    requires j <= k <= |s|
    ensures |B.Encode(s[..j])| <= |B.Encode(s[..k])|
  {
    B.EncodeSplit(s[..k], j);
    assert s[..k][..j] == s[..j];
  }

  /** Cutting the bytes of a text is cutting the text: headBytes keeps whole runes. */
  lemma HeadTextIsHeadBytes(s: string, max: nat)
    ensures B.Encode(HeadText(s, max)) == B.Head(B.Encode(s), max)
  {
    var k := B.HeadKeepsWholeRunes(s, max);
    var n := HeadLen(s, max);
    HeadLenFits(s, max);
    if k < n { LongerEncodesLonger(s, k + 1, n); }
    if n < k { LongerEncodesLonger(s, n + 1, k); }
  }
}
