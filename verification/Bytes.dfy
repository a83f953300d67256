/** Byte truncation that respects UTF-8 (section 3 of RFC 3629): headBytes of
    plugin/memory.go and tailBytes of plugin/bus.go. */
module Bytes {

  newtype byte = x: int | 0 <= x < 256

  const NEWLINE: byte := 10

  /** A byte that does not continue a multi-byte rune. */
  predicate RuneStart(b: byte) { b < 0x80 || b >= 0xC0 }

  function EncodeChar(c: char): seq<byte> {
    var n := c as int;
    if n < 0x80 then [n as byte]
    else if n < 0x800 then [(0xC0 + n / 0x40) as byte, Continuation(n)]
    else if n < 0x1_0000 then [(0xE0 + n / 0x1000) as byte, Continuation(n / 0x40), Continuation(n)]
    else [(0xF0 + n / 0x4_0000) as byte, Continuation(n / 0x1000), Continuation(n / 0x40), Continuation(n)]
  }

  function Continuation(n: int): byte { (0x80 + n % 0x40) as byte }

  function Encode(s: string): seq<byte> {
    if s == "" then [] else EncodeChar(s[0]) + Encode(s[1..])
  }

  ghost predicate IsUtf8(b: seq<byte>) { exists s: string :: Encode(s) == b }

  lemma EncodeCharShape(c: char)
    ensures 1 <= |EncodeChar(c)| <= 4 && RuneStart(EncodeChar(c)[0])
    ensures forall i :: 1 <= i < |EncodeChar(c)| ==> !RuneStart(EncodeChar(c)[i])
    ensures EncodeChar(c)[0] < 0x80 ==> |EncodeChar(c)| == 1
  {
  }

  /** A place where an encoding may be cut: its end, or the start of a rune. */
  predicate Boundary(b: seq<byte>, i: nat) {
    i == |b| || (i < |b| && RuneStart(b[i]))
  }

  lemma BoundaryInRest(first: seq<byte>, rest: seq<byte>, i: nat)
    requires first != [] && forall k :: 1 <= k < |first| ==> !RuneStart(first[k])
    requires i > 0 && Boundary(first + rest, i)
    ensures i >= |first| && Boundary(rest, i - |first|)
    ensures (first + rest)[..i] == first + rest[..i - |first|] && (first + rest)[i..] == rest[i - |first|..]
  {
    assert forall k :: 0 <= k < |first| ==> (first + rest)[k] == first[k];
  }

  /** Cutting an encoding at a boundary cuts the text between two runes. */
  lemma {:induction false} CutAtBoundary(s: string, i: nat) returns (k: nat)
    requires Boundary(Encode(s), i)
    ensures k <= |s| && Encode(s)[..i] == Encode(s[..k]) && Encode(s)[i..] == Encode(s[k..])
  {
    if i == 0 {
      k := 0;
    } else {
      EncodeCharShape(s[0]);
      BoundaryInRest(EncodeChar(s[0]), Encode(s[1..]), i);
      var j := CutAtBoundary(s[1..], i - |EncodeChar(s[0])|);
      k := j + 1;
      assert s[..k][0] == s[0] && s[..k][1..] == s[1..][..j] && s[k..] == s[1..][j..];
    }
  }

  lemma Utf8Pieces(b: seq<byte>, i: nat)
    requires IsUtf8(b) && Boundary(b, i)
    ensures IsUtf8(b[..i]) && IsUtf8(b[i..])
  {
    var s :| Encode(s) == b;
    var k := CutAtBoundary(s, i);
  }

  /** After an ASCII byte comes a boundary. */
  lemma {:induction false} AfterAscii(s: string, i: nat)
    requires i < |Encode(s)| && Encode(s)[i] < 0x80
    ensures Boundary(Encode(s), i + 1)
  {
    var first, rest := EncodeChar(s[0]), Encode(s[1..]);
    EncodeCharShape(s[0]);
    assert Encode(s) == first + rest;
    if i >= |first| {
      AfterAscii(s[1..], i - |first|);
    } else {
      assert i == 0 && |first| == 1;
      if rest != [] { EncodeCharShape(s[1]); }
    }
  }

  lemma AfterAsciiByte(b: seq<byte>, i: nat)
    requires IsUtf8(b) && i < |b| && b[i] < 0x80
    ensures Boundary(b, i + 1)
  {
    var s :| Encode(s) == b;
    AfterAscii(s, i);
  }

  // headBytes

  function HeadCut(b: seq<byte>, cut: nat): (r: nat)
    requires cut < |b|
    ensures r <= cut
  {
    if cut > 0 && !RuneStart(b[cut]) then HeadCut(b, cut - 1) else cut
  }

  function Head(b: seq<byte>, max: nat): seq<byte> {
    if |b| <= max then b else b[..HeadCut(b, max)]
  }

  method HeadBytes(b: seq<byte>, max: nat) returns (r: seq<byte>)
    ensures r == Head(b, max)
  {
    if |b| <= max { return b; }
    var cut := max;
    while cut > 0 && !RuneStart(b[cut])
      invariant 0 <= cut <= max && HeadCut(b, cut) == HeadCut(b, max)
    {
      cut := cut - 1;
    }
    r := b[..cut];
  }

  lemma {:induction false} HeadCutIsLast(b: seq<byte>, cut: nat)
    requires cut < |b|
    ensures HeadCut(b, cut) <= cut && (HeadCut(b, cut) == 0 || Boundary(b, HeadCut(b, cut)))
    ensures forall i :: HeadCut(b, cut) < i <= cut ==> !RuneStart(b[i])
  {
    if cut > 0 && !RuneStart(b[cut]) { HeadCutIsLast(b, cut - 1); }
  }

  /** For valid text, headBytes keeps the longest prefix of whole runes that fits. */
  lemma HeadKeepsWholeRunes(s: string, max: nat) returns (k: nat)
    ensures k <= |s| && Head(Encode(s), max) == Encode(s[..k]) && |Encode(s[..k])| <= max
    ensures k < |s| ==> |Encode(s[..k + 1])| > max
  {
    var b := Encode(s);
    if |b| <= max {
      k := |s|;
      assert s[..k] == s;
    } else {
      var cut := HeadCut(b, max);
      HeadCutIsLast(b, max);
      if cut == 0 { EncodeCharShape(s[0]); }
      k := CutAtBoundary(s, cut);
      if k < |s| {
        EncodeNext(s, k);
        NextBoundary(s, k);
        assert |Encode(s[..k])| == cut;
      }
    }
  }

  lemma EncodeNext(s: string, k: nat)
    requires k < |s|
    ensures Encode(s[..k + 1]) == Encode(s[..k]) + EncodeChar(s[k]) && EncodeChar(s[k]) != []
    ensures |Encode(s[..k + 1])| <= |Encode(s)|
  {
    EncodeSplit(s, k + 1);
    EncodeSplit(s[..k + 1], k);
    assert s[..k + 1][..k] == s[..k] && s[..k + 1][k..] == [s[k]];
    EncodeOne(s[k]);
  }

  lemma EncodeOne(c: char)
    ensures Encode([c]) == EncodeChar(c)
  {
    assert [c][1..] == "";
  }

  lemma {:induction false} EncodeSplit(s: string, k: nat)
    requires k <= |s|
    ensures Encode(s) == Encode(s[..k]) + Encode(s[k..])
  {
    if k > 0 {
      EncodeSplit(s[1..], k - 1);
      assert s[..k][1..] == s[1..][..k - 1] && s[k..] == s[1..][k - 1..];
    } else {
      assert s[0..] == s;
    }
  }

  lemma NextBoundary(s: string, k: nat)
    requires k < |s|
    ensures Boundary(Encode(s), |Encode(s[..k])| + |EncodeChar(s[k])|)
  {
    EncodeSplit(s, k);
    assert s[k..][0] == s[k] && s[k..][1..] == s[k + 1..];
    if k + 1 < |s| { EncodeCharShape(s[k + 1]); }
  }

  // tailBytes

  function TailCut(b: seq<byte>, cut: nat): nat
    requires cut <= |b|
    decreases |b| - cut
  {
    if cut < |b| && !RuneStart(b[cut]) then TailCut(b, cut + 1) else cut
  }

  /** The index of the first newline, or -1. */
  function NewlineIndex(b: seq<byte>): int {
    if b == [] then -1
    else if b[0] == NEWLINE then 0
    else
      var i := NewlineIndex(b[1..]);
      if i < 0 then -1 else i + 1
  }

  function TailStart(b: seq<byte>, max: nat): nat
    requires |b| > max
  {
    var cut := TailCut(b, |b| - max);
    TailCutIsFirst(b, |b| - max);
    NewlineIndexFinds(b[cut..]);
    var nl := NewlineIndex(b[cut..]);
    if nl > 0 then cut + nl + 1 else cut
  }

  function Tail(b: seq<byte>, max: nat): seq<byte> {
    if |b| <= max then b else
      TailStartInRange(b, max);
      b[TailStart(b, max)..]
  }

  method TailBytes(b: seq<byte>, max: nat) returns (r: seq<byte>)
    ensures r == Tail(b, max)
  {
    if |b| <= max { return b; }
    var cut := |b| - max;
    while cut < |b| && !RuneStart(b[cut])
      invariant |b| - max <= cut <= |b| && TailCut(b, cut) == TailCut(b, |b| - max)
    {
      cut := cut + 1;
    }
    NewlineIndexFinds(b[cut..]);
    var nl := NewlineIndex(b[cut..]);
    if nl > 0 { cut := cut + nl + 1; }
    r := b[cut..];
  }

  lemma {:induction false} TailCutIsFirst(b: seq<byte>, cut: nat)
    requires cut <= |b|
    ensures cut <= TailCut(b, cut) <= |b| && Boundary(b, TailCut(b, cut))
    ensures forall i :: cut <= i < TailCut(b, cut) ==> !RuneStart(b[i])
    decreases |b| - cut
  {
    if cut < |b| && !RuneStart(b[cut]) { TailCutIsFirst(b, cut + 1); }
  }

  lemma {:induction false} NewlineIndexFinds(b: seq<byte>)
    ensures var i := NewlineIndex(b); -1 <= i < |b|
    ensures var i := NewlineIndex(b);
      if i < 0 then NEWLINE !in b else b[i] == NEWLINE && NEWLINE !in b[..i]
  {
    if b != [] && b[0] != NEWLINE {
      NewlineIndexFinds(b[1..]);
      var i := NewlineIndex(b[1..]);
      if i >= 0 { assert b[..i + 1] == [b[0]] + b[1..][..i]; } else { assert b == [b[0]] + b[1..]; }
    }
  }

  lemma TailStartInRange(b: seq<byte>, max: nat)
    requires |b| > max
    ensures |b| - max <= TailStart(b, max) <= |b|
  {
    TailCutIsFirst(b, |b| - max);
    NewlineIndexFinds(b[TailCut(b, |b| - max)..]);
  }

  ghost predicate IsSuffix(t: seq<byte>, b: seq<byte>) {
    |t| <= |b| && t == b[|b| - |t|..]
  }

  /** Where the tail starts: at a boundary, and at a line start if a line ends in it. */
  lemma TailStartBoundary(b: seq<byte>, max: nat)
    requires |b| > max && IsUtf8(b)
    ensures TailStart(b, max) <= |b| && Boundary(b, TailStart(b, max))
  {
    TailStartInRange(b, max);
    var cut := TailCut(b, |b| - max);
    TailCutIsFirst(b, |b| - max);
    NewlineIndexFinds(b[cut..]);
    var nl := NewlineIndex(b[cut..]);
    if nl > 0 {
      assert b[cut + nl] == NEWLINE;
      AfterAsciiByte(b, cut + nl);
    }
  }

  lemma TailStartsLine(b: seq<byte>, max: nat)
    requires |b| > max
    ensures var t := Tail(b, max);
      |t| < |b| && (NEWLINE !in t || t[0] == NEWLINE || b[|b| - |t| - 1] == NEWLINE)
  {
    TailStartInRange(b, max);
    var cut := TailCut(b, |b| - max);
    TailCutIsFirst(b, |b| - max);
    NewlineIndexFinds(b[cut..]);
    var nl := NewlineIndex(b[cut..]);
    if nl > 0 { assert b[cut + nl] == b[cut..][nl] == NEWLINE; }
  }

  /** tailBytes returns a suffix that fits, the whole if that fits; of valid text it is valid text. */
  lemma TailIsCleanSuffix(b: seq<byte>, max: nat)
    ensures IsSuffix(Tail(b, max), b) && |Tail(b, max)| <= max
    ensures |b| <= max ==> Tail(b, max) == b
    ensures IsUtf8(b) ==> IsUtf8(Tail(b, max))
  {
    if |b| > max {
      TailStartInRange(b, max);
      if IsUtf8(b) {
        TailStartBoundary(b, max);
        Utf8Pieces(b, TailStart(b, max));
      }
    }
  }

  /** In valid text a rune begins, or the text ends, within any four bytes. */
  lemma {:induction false} RuneWithinFour(s: string, i: nat) returns (j: nat)
    requires i <= |Encode(s)|
    ensures i <= j <= i + 3 && Boundary(Encode(s), j)
  {
    if s == "" || i == 0 {
      if s != "" { EncodeCharShape(s[0]); }
      j := i;
    } else {
      var first, rest := EncodeChar(s[0]), Encode(s[1..]);
      EncodeCharShape(s[0]);
      if i < |first| {
        j := |first|;
        if s[1..] != "" { EncodeCharShape(s[1]); }
      } else {
        var k := RuneWithinFour(s[1..], i - |first|);
        j := k + |first|;
      }
    }
  }

  /** How much is kept: the longest tail that fits and begins at a rune, at most three bytes less
      than fit; of that, if a line ends in it after its first byte, what comes after the first
      line, and otherwise all. */
  lemma TailIsLongest(b: seq<byte>, max: nat) returns (cut: nat, nl: nat)
    requires |b| > max
    ensures |b| - max <= cut <= |b| && Boundary(b, cut)
    ensures forall i :: |b| - max <= i < cut ==> !Boundary(b, i)
    ensures IsUtf8(b) ==> cut <= |b| - max + 3
    ensures nl <= |b| - cut && NEWLINE !in b[cut..cut + nl]
    ensures if 0 < nl < |b| - cut then b[cut + nl] == NEWLINE && Tail(b, max) == b[cut + nl + 1..]
      else Tail(b, max) == b[cut..] && (nl == 0 < |b| - cut ==> b[cut] == NEWLINE)
  {
    cut := TailCut(b, |b| - max);
    TailCutIsFirst(b, |b| - max);
    nl := FirstLine(b, cut);
    TailStartInRange(b, max);
    if IsUtf8(b) { RuneIsNear(b, |b| - max, cut); }
  }

  lemma RuneIsNear(b: seq<byte>, i: nat, cut: nat)
    requires IsUtf8(b) && i <= |b| && forall j :: i <= j < cut ==> !Boundary(b, j)
    ensures cut <= i + 3
  {
    var s :| Encode(s) == b;
    var near := RuneWithinFour(s, i);
  }

  lemma FirstLine(b: seq<byte>, cut: nat) returns (nl: nat)
    requires cut <= |b|
    ensures nl <= |b| - cut && NEWLINE !in b[cut..cut + nl] && (nl < |b| - cut ==> b[cut + nl] == NEWLINE)
    ensures NewlineIndex(b[cut..]) == if nl < |b| - cut then nl else -1
  {
    NewlineIndexFinds(b[cut..]);
    var i := NewlineIndex(b[cut..]);
    nl := if i < 0 then |b| - cut else i;
    assert b[cut..cut + nl] == b[cut..][..nl];
  }
}
