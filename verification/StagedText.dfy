/** What the interrupt bus keeps of the texts staged for a scope, seen as text again. */
module StagedText {
  import opened Bus
  import opened Bytes
  import opened Lines

  // Encoding is injective

  /** How many bytes a rune takes, as its first byte tells. */
  function Width(b: byte): nat {
    if b < 0x80 then 1 else if b < 0xE0 then 2 else if b < 0xF0 then 3 else 4
  }

  lemma FirstTellsWidth(c: char)
    ensures |EncodeChar(c)| == Width(EncodeChar(c)[0])
  {
  }

  /** The number a rune's bytes stand for. */
  function Value(b: seq<byte>): int {
    if |b| == 1 then b[0] as int
    else if |b| == 2 then (b[0] as int - 0xC0) * 0x40 + (b[1] as int - 0x80)
    else if |b| == 3 then (b[0] as int - 0xE0) * 0x1000 + (b[1] as int - 0x80) * 0x40 + (b[2] as int - 0x80)
    else if |b| == 4 then
      (b[0] as int - 0xF0) * 0x4_0000 + (b[1] as int - 0x80) * 0x1000
      + (b[2] as int - 0x80) * 0x40 + (b[3] as int - 0x80)
    else 0
  }

  lemma ThreeDigits(n: int)
    requires n >= 0
    ensures n / 0x1000 * 0x1000 + n / 0x40 % 0x40 * 0x40 + n % 0x40 == n
  {
    assert n / 0x40 / 0x40 == n / 0x1000;
  }

  lemma FourDigits(n: int)
    requires n >= 0
    ensures n / 0x4_0000 * 0x4_0000 + n / 0x1000 % 0x40 * 0x1000 + n / 0x40 % 0x40 * 0x40 + n % 0x40 == n
  {
    ThreeDigits(n);
    assert n / 0x1000 / 0x40 == n / 0x4_0000;
  }

  lemma ValueOfRune(c: char)
    ensures Value(EncodeChar(c)) == c as int
  {
    ThreeDigits(c as int);
    FourDigits(c as int);
  }

  lemma {:induction false} EncodeInjective(s: string, t: string)
    requires Encode(s) == Encode(t)
    ensures s == t
  {
    if s == "" {
      if t != "" { EncodeCharShape(t[0]); }
    } else {
      EncodeCharShape(s[0]);
      assert t != "";
      EncodeCharShape(t[0]);
      FirstRunesAgree(EncodeChar(s[0]), Encode(s[1..]), EncodeChar(t[0]), Encode(t[1..]), s[0], t[0]);
      EncodeInjective(s[1..], t[1..]);
      assert s == [s[0]] + s[1..] && t == [t[0]] + t[1..];
    }
  }

  lemma FirstRunesAgree(a: seq<byte>, x: seq<byte>, b: seq<byte>, y: seq<byte>, c: char, d: char)
    requires a == EncodeChar(c) && b == EncodeChar(d) && a != [] && b != [] && a + x == b + y
    ensures c == d && x == y
  {
    assert a[0] == (a + x)[0] == (b + y)[0] == b[0];
    FirstTellsWidth(c);
    FirstTellsWidth(d);
    assert a == (a + x)[..|a|] == (b + y)[..|b|] == b;
    assert x == (a + x)[|a|..] == (b + y)[|b|..] == y;
    ValueOfRune(c);
    ValueOfRune(d);
  }

  // The bus keeps the end of the text

  lemma SuffixAtRune(s: string, part: seq<byte>) returns (k: nat)
    requires IsSuffix(part, Encode(s)) && IsUtf8(part)
    ensures k <= |s| && part == Encode(s[k..])
  {
    var b, i := Encode(s), |Encode(s)| - |part|;
    var t :| Encode(t) == part;
    if part != [] {
      EncodeCharShape(t[0]);
      assert b[i] == part[0];
    }
    k := CutAtBoundary(s, i);
  }

  lemma EncodedIsUtf8(s: string)
    ensures IsUtf8(Encode(s))
  {
  }

  /** What the bus keeps of a text is the text from some character on. */
  lemma KeptIsTail(s: string, t: string)
    requires Keeps(Encode(t), Encode(s))
    ensures exists k :: 0 <= k <= |s| && t == s[k..]
  {
    EncodedIsUtf8(s);
    var k := SuffixAtRune(s, Encode(t));
    EncodeInjective(t, s[k..]);
  }

  /** The bytes of blocks staged one after another, joined as the bus joins them. */
  function StagedBytes(blocks: seq<string>): seq<byte>
    requires blocks != []
  {
    var n := |blocks| - 1;
    if n == 0 then Encode(blocks[0]) else StagedBytes(blocks[..n]) + [NEWLINE] + Encode(blocks[n])
  }

  lemma EncodeConcat(a: string, b: string)
    ensures Encode(a + b) == Encode(a) + Encode(b)
  {
    EncodeSplit(a + b, |a|);
    assert (a + b)[..|a|] == a && (a + b)[|a|..] == b;
  }

  lemma EncodeLines(a: string, b: string)
    ensures Encode(a + "\n" + b) == Encode(a) + [NEWLINE] + Encode(b)
  {
    EncodeConcat(a + "\n", b);
    EncodeConcat(a, "\n");
    EncodeOne('\n');
  }

  lemma {:induction false} JoinAppend(lines: seq<string>, last: string)
    requires lines != []
    ensures Join(lines + [last]) == Join(lines) + "\n" + last
  {
    if |lines| > 1 {
      assert (lines + [last])[1..] == lines[1..] + [last];
      JoinAppend(lines[1..], last);
      assert lines[0] + "\n" + (Join(lines[1..]) + "\n" + last) == lines[0] + "\n" + Join(lines[1..]) + "\n" + last;
    } else {
      assert (lines + [last])[1..] == [last];
    }
  }

  lemma {:induction false} StagedBytesAreJoin(blocks: seq<string>)
    requires blocks != []
    ensures StagedBytes(blocks) == Encode(Join(blocks))
  {
    var n := |blocks| - 1;
    if n > 0 {
      StagedBytesAreJoin(blocks[..n]);
      JoinAppend(blocks[..n], blocks[n]);
      assert blocks[..n] + [blocks[n]] == blocks;
      EncodeLines(Join(blocks[..n]), blocks[n]);
    }
  }
}
