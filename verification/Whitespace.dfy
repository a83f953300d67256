/** Whitespace handling shared by the text pipeline: strings.TrimSpace, the `[ \t]{2,}`
    collapse, and flattenWS of plugin/memory.go, with what it means for dedupe hashes. */
module Whitespace {

  /** unicode.IsSpace. */
  predicate IsSpace(c: char) {
    || c == ' ' || '\t' <= c <= '\r'
    || c == '\U{0085}' || c == '\U{00A0}' || c == '\U{1680}'
    || '\U{2000}' <= c <= '\U{200a}'
    || c == '\U{2028}' || c == '\U{2029}' || c == '\U{202f}' || c == '\U{205f}' || c == '\U{3000}'
  }

  predicate IsBlank(c: char) { c == ' ' || c == '\t' }

  function TrimLeft(s: string): string {
    if s != "" && IsSpace(s[0]) then TrimLeft(s[1..]) else s
  }

  function TrimRight(s: string): string {
    if s != "" && IsSpace(s[|s| - 1]) then TrimRight(s[..|s| - 1]) else s
  }

  function TrimSpace(s: string): string { TrimRight(TrimLeft(s)) }

  predicate EdgeSpace(s: string) {
    s != "" && (IsSpace(s[0]) || IsSpace(s[|s| - 1]))
  }

  /** `s` with its leading blanks dropped. */
  function SkipBlanks(s: string): string {
    if s != "" && IsBlank(s[0]) then SkipBlanks(s[1..]) else s
  }

  /** Runs of two or more blanks become one space. */
  function Collapse(s: string): string
    decreases |s|
  {
    if s == "" then ""
    else if |s| >= 2 && IsBlank(s[0]) && IsBlank(s[1]) then
      SkipShortens(s);
      " " + Collapse(SkipBlanks(s))
    else [s[0]] + Collapse(s[1..])
  }

  function ToSpaces(s: string): string {
    if s == "" then "" else [if IsSpace(s[0]) then ' ' else s[0]] + ToSpaces(s[1..])
  }

  function FlattenWS(s: string): string { Collapse(ToSpaces(s)) }

  lemma {:induction false} SkipShortens(s: string)
    ensures |SkipBlanks(s)| <= |s|
    ensures s != "" && IsBlank(s[0]) ==> |SkipBlanks(s)| < |s|
    ensures SkipBlanks(s) != "" ==> !IsBlank(SkipBlanks(s)[0])
    ensures forall c :: c in SkipBlanks(s) ==> c in s
  {
    if s != "" && IsBlank(s[0]) { SkipShortens(s[1..]); }
  }

  lemma {:induction false} TrimLeftDrops(s: string)
    ensures |TrimLeft(s)| <= |s| && TrimLeft(s) == s[|s| - |TrimLeft(s)|..]
    ensures forall i :: 0 <= i < |s| - |TrimLeft(s)| ==> IsSpace(s[i])
    ensures TrimLeft(s) != "" ==> !IsSpace(TrimLeft(s)[0])
  {
    if s != "" && IsSpace(s[0]) {
      TrimLeftDrops(s[1..]);
      assert s == [s[0]] + s[1..] && TrimLeft(s) == TrimLeft(s[1..]);
    }
  }

  lemma {:induction false} TrimRightDrops(s: string)
    ensures |TrimRight(s)| <= |s| && TrimRight(s) == s[..|TrimRight(s)|]
    ensures forall i :: |TrimRight(s)| <= i < |s| ==> IsSpace(s[i])
    ensures TrimRight(s) != "" ==> !IsSpace(TrimRight(s)[|TrimRight(s)| - 1])
  {
    if s != "" && IsSpace(s[|s| - 1]) { TrimRightDrops(s[..|s| - 1]); }
  }

  lemma TrimLeftCuts(s: string) returns (left: string)
    ensures s == left + TrimLeft(s) && AllSpaces(left) && (TrimLeft(s) != "" ==> !IsSpace(TrimLeft(s)[0]))
  {
    TrimLeftDrops(s);
    left := s[..|s| - |TrimLeft(s)|];
  }

  lemma TrimRightCuts(s: string) returns (right: string)
    ensures s == TrimRight(s) + right && AllSpaces(right)
    ensures TrimRight(s) != "" ==> !IsSpace(TrimRight(s)[|TrimRight(s)| - 1])
  {
    TrimRightDrops(s);
    right := s[|TrimRight(s)|..];
  }

  /** TrimSpace cuts exactly the whitespace at both ends. */
  lemma TrimSpaceCuts(s: string) returns (left: string, right: string)
    ensures s == left + TrimSpace(s) + right && AllSpaces(left) && AllSpaces(right)
    ensures !EdgeSpace(TrimSpace(s))
  {
    var t := TrimLeft(s);
    left := TrimLeftCuts(s);
    right := TrimRightCuts(t);
    if TrimRight(t) != "" { assert TrimRight(t)[0] == t[0]; }
  }

  lemma TrimSpaceFixed(s: string)
    ensures TrimSpace(s) == s <==> !EdgeSpace(s)
  {
    var left, right := TrimSpaceCuts(s);
    if left != "" { assert left[0] in left && s[0] == left[0]; }
    if right != "" { assert right[|right| - 1] in right && s[|s| - 1] == right[|right| - 1]; }
    if left == "" && right == "" { assert s == TrimSpace(s); }
  }

  /** Whitespace in front of a text that begins with none is all that is cut in front. */
  lemma {:induction false} TrimLeftOf(left: string, s: string)
    requires AllSpaces(left) && (s == "" || !IsSpace(s[0]))
    ensures TrimLeft(left + s) == s
  {
    if left == "" {
      assert left + s == s;
    } else {
      assert left[0] in left && (left + s)[1..] == left[1..] + s;
      TrimLeftOf(left[1..], s);
    }
  }

  lemma {:induction false} TrimRightOf(s: string, right: string)
    requires AllSpaces(right) && (s == "" || !IsSpace(s[|s| - 1]))
    ensures TrimRight(s + right) == s
  {
    if right == "" {
      assert s + right == s;
    } else {
      assert right[|right| - 1] in right && (s + right)[..|s + right| - 1] == s + right[..|right| - 1];
      TrimRightOf(s, right[..|right| - 1]);
    }
  }

  lemma TrimSpaceOf(left: string, s: string, right: string)
    requires AllSpaces(left) && AllSpaces(right) && s != "" && !EdgeSpace(s)
    ensures TrimSpace(left + s + right) == s
  {
    assert left + s + right == left + (s + right) && (s + right)[0] == s[0];
    TrimLeftOf(left, s + right);
    TrimRightOf(s, right);
  }

  predicate AllSpaces(s: string) { forall c :: c in s ==> IsSpace(c) }

  // Collapse

  /** No two blanks in a row. */
  predicate Single(s: string) {
    forall i :: 0 <= i < |s| - 1 ==> !(IsBlank(s[i]) && IsBlank(s[i + 1]))
  }

  lemma {:induction false} CollapseIsSingle(s: string)
    ensures Single(Collapse(s))
    ensures (s == "" <==> Collapse(s) == "")
    ensures s != "" ==> (IsBlank(Collapse(s)[0]) <==> IsBlank(s[0]))
    ensures forall c :: c in Collapse(s) ==> c in s || (c == ' ' && exists b :: b in s && IsBlank(b))
    decreases |s|
  {
    if s == "" {
    } else if |s| >= 2 && IsBlank(s[0]) && IsBlank(s[1]) {
      SkipShortens(s);
      var rest := SkipBlanks(s);
      CollapseIsSingle(rest);
      assert s[0] in s;
      assert Collapse(s) == " " + Collapse(rest);
      assert forall i :: 1 <= i < |Collapse(s)| ==> Collapse(s)[i] == Collapse(rest)[i - 1];
    } else {
      CollapseIsSingle(s[1..]);
      assert Collapse(s) == [s[0]] + Collapse(s[1..]);
      assert forall i :: 1 <= i < |Collapse(s)| ==> Collapse(s)[i] == Collapse(s[1..])[i - 1];
      assert forall c :: c in s[1..] ==> c in s;
    }
  }

  lemma {:induction false} SingleStays(s: string)
    requires Single(s)
    ensures Collapse(s) == s
  {
    if s != "" {
      assert Single(s[1..]) by { assert forall i :: 0 <= i < |s| - 1 ==> s[1..][i] == s[i + 1]; }
      SingleStays(s[1..]);
      assert !(|s| >= 2 && IsBlank(s[0]) && IsBlank(s[0 + 1]));
    }
  }

  lemma {:induction false} ToSpacesAt(s: string)
    ensures |ToSpaces(s)| == |s|
    ensures forall i :: 0 <= i < |s| ==> ToSpaces(s)[i] == if IsSpace(s[i]) then ' ' else s[i]
  {
    if s != "" { ToSpacesAt(s[1..]); }
  }

  lemma ToSpacesStays(s: string)
    requires forall c :: c in s ==> IsSpace(c) ==> c == ' '
    ensures ToSpaces(s) == s
  {
    ToSpacesAt(s);
  }

  /** Flattening twice is flattening once, so a hash taken of flattened text does not change. */
  lemma FlattenIdempotent(s: string)
    ensures FlattenWS(FlattenWS(s)) == FlattenWS(s)
  {
    var t := ToSpaces(s);
    ToSpacesAt(s);
    CollapseIsSingle(t);
    forall c | c in Collapse(t) ensures IsSpace(c) ==> c == ' ' {
      if c in t { var i :| 0 <= i < |t| && t[i] == c; }
    }
    ToSpacesStays(Collapse(t));
    SingleStays(Collapse(t));
  }

  lemma {:induction false} CollapseLast(s: string)
    requires s != ""
    ensures Collapse(s) != "" && (IsBlank(Collapse(s)[|Collapse(s)| - 1]) <==> IsBlank(s[|s| - 1]))
    decreases |s|
  {
    if |s| >= 2 && IsBlank(s[0]) && IsBlank(s[1]) {
      SkipShortens(s);
      SkipIsSuffix(s);
      if SkipBlanks(s) != "" { CollapseLast(SkipBlanks(s)); }
    } else if |s| >= 2 {
      CollapseLast(s[1..]);
    } else {
      assert s[1..] == "";
    }
  }

  lemma {:induction false} SkipIsSuffix(s: string)
    ensures |SkipBlanks(s)| <= |s| && SkipBlanks(s) == s[|s| - |SkipBlanks(s)|..]
    ensures forall i :: 0 <= i < |s| - |SkipBlanks(s)| ==> IsBlank(s[i])
  {
    if s != "" && IsBlank(s[0]) { SkipIsSuffix(s[1..]); }
  }

  /** Flattened text begins and ends with a space exactly when the text has edge whitespace. */
  lemma FlattenEdges(s: string)
    ensures s == "" <==> FlattenWS(s) == ""
    ensures EdgeSpace(FlattenWS(s)) <==> EdgeSpace(s)
  {
    var t := ToSpaces(s);
    ToSpacesAt(s);
    CollapseIsSingle(t);
    if s != "" { CollapseLast(t); }
    forall c | c in Collapse(t) ensures IsSpace(c) <==> IsBlank(c) {
      if c in t { var i :| 0 <= i < |t| && t[i] == c; }
    }
  }

  /** The hash text of a message as streamed and as resubmitted agree exactly when the
      message has no edge whitespace. */
  lemma FlattenAgreesWithTrimmed(s: string)
    ensures FlattenWS(s) == FlattenWS(TrimSpace(s)) <==> !EdgeSpace(s)
  {
    var left, right := TrimSpaceCuts(s);
    TrimSpaceFixed(s);
    FlattenEdges(s);
    FlattenEdges(TrimSpace(s));
  }

  // Words

  /** The length of the word a text begins with. */
  function WordLen(s: string): (n: nat)
    ensures n <= |s|
  {
    if s == "" || IsSpace(s[0]) then 0 else 1 + WordLen(s[1..])
  }

  /** The words of a text: what is between whitespace. */
  function Words(s: string): seq<string>
    decreases |s|
  {
    if s == "" then []
    else if IsSpace(s[0]) then Words(s[1..])
    else [s[..WordLen(s)]] + Words(s[WordLen(s)..])
  }

  /** Two texts that agree but for what kind of whitespace is where it is. */
  lemma {:induction false} SameWords(s: string, t: string)
    requires |s| == |t| && forall i :: 0 <= i < |s| ==> s[i] == t[i] || (IsSpace(s[i]) && IsSpace(t[i]))
    ensures WordLen(s) == WordLen(t) && s[..WordLen(s)] == t[..WordLen(s)] && Words(s) == Words(t)
    decreases |s|
  {
    if s != "" {
      SameWords(s[1..], t[1..]);
      if !IsSpace(s[0]) {
        var n := WordLen(s);
        assert s[..n] == [s[0]] + s[1..][..n - 1] && t[..n] == [t[0]] + t[1..][..n - 1];
        SameWords(s[n..], t[n..]);
      }
    }
  }

  lemma {:induction false} SkippedWords(s: string)
    ensures Words(SkipBlanks(s)) == Words(s)
  {
    if s != "" && IsBlank(s[0]) { SkippedWords(s[1..]); }
  }

  lemma {:induction false} CollapsedWord(s: string)
    ensures var n := WordLen(s);
      && WordLen(Collapse(s)) == n && n <= |Collapse(s)|
      && Collapse(s)[..n] == s[..n] && Collapse(s)[n..] == Collapse(s[n..])
    decreases |s|
  {
    var c := Collapse(s);
    if s == "" || IsSpace(s[0]) {
      CollapseIsSingle(s);
      assert s[0..] == s && c[0..] == c;
      if s != "" && !IsBlank(s[0]) { assert c[0] == s[0]; }
    } else {
      var n := WordLen(s);
      CollapsedWord(s[1..]);
      var t := Collapse(s[1..]);
      assert c == [s[0]] + t && c[1..] == t && s[1..][n - 1..] == s[n..];
      assert s[..n] == [s[0]] + s[1..][..n - 1] && c[..n] == [s[0]] + t[..n - 1] && c[n..] == t[n - 1..];
    }
  }

  /** Collapsing blanks keeps the words. */
  lemma {:induction false} CollapseKeepsWords(s: string)
    ensures Words(Collapse(s)) == Words(s)
    decreases |s|
  {
    if s == "" {
    } else if |s| >= 2 && IsBlank(s[0]) && IsBlank(s[1]) {
      SkipShortens(s);
      SkippedWords(s);
      CollapseKeepsWords(SkipBlanks(s));
      assert Collapse(s)[1..] == Collapse(SkipBlanks(s));
    } else if IsSpace(s[0]) {
      CollapseKeepsWords(s[1..]);
      assert Collapse(s)[1..] == Collapse(s[1..]);
    } else {
      CollapsedWord(s);
      CollapseKeepsWords(s[WordLen(s)..]);
    }
  }

  /** Flattened text has the words of the text, with nothing between them but one space each. */
  lemma FlattenKeepsWords(s: string)
    ensures Words(FlattenWS(s)) == Words(s) && Single(FlattenWS(s))
    ensures forall c :: c in FlattenWS(s) && IsSpace(c) ==> c == ' '
  {
    var t := ToSpaces(s);
    ToSpacesAt(s);
    SameWords(s, t);
    CollapseKeepsWords(t);
    CollapseIsSingle(t);
    forall c | c in Collapse(t) && IsSpace(c) ensures c == ' ' {
      if c in t { var i :| 0 <= i < |t| && t[i] == c; }
    }
  }
}
