/** Lines of text: strings.Split and strings.Join on a line break, and the duplicate-dropping
    that formatMemories and dedupeLines of plugin/memory.go share. */
module Lines {
  import opened Whitespace

  predicate OneLine(s: string) { '\n' !in s }

  function Join(lines: seq<string>): string {
    if lines == [] then ""
    else if |lines| == 1 then lines[0]
    else lines[0] + "\n" + Join(lines[1..])
  }

  /** The text before the first line break, and how long it is. */
  function LineLen(s: string): (n: nat)
    ensures n <= |s| && OneLine(s[..n]) && (n < |s| ==> s[n] == '\n')
  {
    if s == "" || s[0] == '\n' then 0
    else
      var n := LineLen(s[1..]);
      assert s[..n + 1] == [s[0]] + s[1..][..n];
      n + 1
  }

  function Split(s: string): seq<string>
    decreases |s|
  {
    var n := LineLen(s);
    if n == |s| then [s] else [s[..n]] + Split(s[n + 1..])
  }

  lemma {:induction false} LineLenOf(a: string, rest: string)
    requires OneLine(a)
    ensures LineLen(a) == |a| && LineLen(a + "\n" + rest) == |a|
  {
    if a != "" {
      assert a[0] in a;
      LineLenOf(a[1..], rest);
      assert (a + "\n" + rest)[1..] == a[1..] + "\n" + rest;
    }
  }

  /** Splitting undoes joining. */
  lemma {:induction false} SplitJoin(lines: seq<string>)
    requires lines != [] && forall l :: l in lines ==> OneLine(l)
    ensures Split(Join(lines)) == lines
  {
    LineLenOf(lines[0], Join(lines[1..]));
    if |lines| > 1 {
      SplitJoin(lines[1..]);
      var s := Join(lines);
      assert s == lines[0] + "\n" + Join(lines[1..]);
      assert s[..|lines[0]|] == lines[0] && s[|lines[0]| + 1..] == Join(lines[1..]);
      assert lines == [lines[0]] + lines[1..];
    } else {
      assert lines == [lines[0]];
    }
  }

  lemma JoinCons(line: string, lines: seq<string>)
    requires lines != []
    ensures Join([line] + lines) == line + "\n" + Join(lines)
  {
    assert ([line] + lines)[1..] == lines;
  }

  /** Joining undoes splitting. */
  lemma {:induction false} JoinSplit(s: string)
    ensures Split(s) != [] && Join(Split(s)) == s && forall l :: l in Split(s) ==> OneLine(l)
    decreases |s|
  {
    var n := LineLen(s);
    if n < |s| {
      var first, rest := s[..n], s[n + 1..];
      JoinSplit(rest);
      JoinCons(first, Split(rest));
      assert s == first + "\n" + rest;
    }
  }

  /** A line break between two texts is a split between their lines. */
  lemma {:induction false} SplitAppend(a: string, b: string)
    ensures Split(a + "\n" + b) == Split(a) + Split(b)
    decreases |a|
  {
    var s, n := a + "\n" + b, LineLen(a);
    if n == |a| {
      LineLenOf(a, b);
      assert s[..n] == a && s[n + 1..] == b;
    } else {
      var first, rest := a[..n], a[n + 1..];
      assert a == first + "\n" + rest;
      assert s == first + "\n" + (rest + "\n" + b);
      LineLenOf(first, rest + "\n" + b);
      assert s[..n] == first && s[n + 1..] == rest + "\n" + b;
      SplitAppend(rest, b);
    }
  }

  // Dropping duplicates

  function Keys(lower: string -> string, texts: seq<string>): set<string> {
    if texts == [] then {} else Keys(lower, texts[..|texts| - 1]) + {lower(texts[|texts| - 1])}
  }

  lemma {:induction false} KeysAre(lower: string -> string, texts: seq<string>, key: string)
    ensures key in Keys(lower, texts) <==> exists i :: 0 <= i < |texts| && lower(texts[i]) == key
  {
    if texts != [] {
      var before := texts[..|texts| - 1];
      KeysAre(lower, before, key);
      if lower(texts[|texts| - 1]) == key {
      } else if key in Keys(lower, before) {
        var i :| 0 <= i < |before| && lower(before[i]) == key;
        assert lower(texts[i]) == key;
      } else {
        forall i | 0 <= i < |texts| ensures lower(texts[i]) != key {
          assert i < |before| ==> before[i] == texts[i];
        }
      }
    }
  }

  lemma KeysAppend(lower: string -> string, texts: seq<string>, text: string)
    ensures Keys(lower, texts + [text]) == Keys(lower, texts) + {lower(text)}
  {
    assert (texts + [text])[..|texts|] == texts;
  }

  /** No two texts agree when lower-cased. */
  ghost predicate Distinct(lower: string -> string, texts: seq<string>) {
    forall i, j :: 0 <= i < j < |texts| ==> lower(texts[i]) != lower(texts[j])
  }

  lemma DistinctAppend(lower: string -> string, texts: seq<string>, text: string)
    requires Distinct(lower, texts) && lower(text) !in Keys(lower, texts)
    ensures Distinct(lower, texts + [text])
  {
    KeysAre(lower, texts, lower(text));
  }

  // dedupeLines

  /** What of the first `n` lines is kept. */
  function KeptLines(lower: string -> string, lines: seq<string>, n: nat): seq<string>
    requires n <= |lines|
  {
    if n == 0 then []
    else
      var before, t := KeptLines(lower, lines, n - 1), TrimSpace(lines[n - 1]);
      if t == "" || lower(t) in Keys(lower, before) then before else before + [t]
  }

  function Deduped(lower: string -> string, s: string): string {
    Join(KeptLines(lower, Split(s), |Split(s)|))
  }

  method DedupeLines(lower: string -> string, s: string) returns (r: string)
    ensures r == Deduped(lower, s)
  {
    var seen: set<string>, out: seq<string> := {}, [];
    var lines := Split(s);
    for i := 0 to |lines|
      invariant out == KeptLines(lower, lines, i) && seen == Keys(lower, out)
    {
      var t := TrimSpace(lines[i]);
      if t == "" { continue; }
      var key := lower(t);
      if key in seen { continue; }
      seen := seen + {key};
      KeysAppend(lower, out, t);
      out := out + [t];
    }
    r := Join(out);
  }

  lemma TrimmedOneLine(s: string)
    requires OneLine(s)
    ensures OneLine(TrimSpace(s)) && TrimSpace(TrimSpace(s)) == TrimSpace(s)
  {
    var left, right := TrimSpaceCuts(s);
    TrimSpaceFixed(TrimSpace(s));
    forall c | c in TrimSpace(s) ensures c in s { }
  }

  /** A line as dedupeLines keeps it. */
  predicate Trimmed(t: string) { t != "" && OneLine(t) && TrimSpace(t) == t }

  lemma {:induction false} KeptAreDistinct(lower: string -> string, lines: seq<string>, n: nat)
    requires n <= |lines| && forall l :: l in lines ==> OneLine(l)
    ensures var k := KeptLines(lower, lines, n);
      Distinct(lower, k) && forall t :: t in k ==> Trimmed(t)
  {
    if n > 0 {
      KeptAreDistinct(lower, lines, n - 1);
      var before, t := KeptLines(lower, lines, n - 1), TrimSpace(lines[n - 1]);
      TrimmedOneLine(lines[n - 1]);
      if t != "" && lower(t) !in Keys(lower, before) { DistinctAppend(lower, before, t); }
    }
  }

  /** Every line is still there: its text, up to case and edge whitespace, is kept. */
  lemma EveryLineKept(lower: string -> string, lines: seq<string>, n: nat, i: nat)
    requires i < n <= |lines| && TrimSpace(lines[i]) != ""
    ensures var k := KeptLines(lower, lines, n);
      exists j :: 0 <= j < |k| && lower(k[j]) == lower(TrimSpace(lines[i]))
  {
    var k, t := KeptLines(lower, lines, n), TrimSpace(lines[i]);
    KeysAre(lower, k, lower(t));
    KeptKeys(lower, lines, n, i);
  }

  lemma KeysGrow(lower: string -> string, lines: seq<string>, n: nat)
    requires 0 < n <= |lines|
    ensures var before, t := Keys(lower, KeptLines(lower, lines, n - 1)), TrimSpace(lines[n - 1]);
      Keys(lower, KeptLines(lower, lines, n)) == before + if t == "" then {} else {lower(t)}
  {
    KeysAppend(lower, KeptLines(lower, lines, n - 1), TrimSpace(lines[n - 1]));
  }

  lemma {:induction false} KeptKeys(lower: string -> string, lines: seq<string>, n: nat, i: nat)
    requires i < n <= |lines| && TrimSpace(lines[i]) != ""
    ensures lower(TrimSpace(lines[i])) in Keys(lower, KeptLines(lower, lines, n))
  {
    KeysGrow(lower, lines, n);
    if i < n - 1 { KeptKeys(lower, lines, n - 1, i); }
  }

  /** Line `i` is the first of those alike. */
  ghost predicate FirstOf(lower: string -> string, lines: seq<string>, i: nat, t: string)
    requires i < |lines|
  {
    && t == TrimSpace(lines[i]) && t != ""
    && forall h :: 0 <= h < i && TrimSpace(lines[h]) != "" ==> lower(TrimSpace(lines[h])) != lower(t)
  }

  ghost predicate FirstAmong(lower: string -> string, lines: seq<string>, n: nat, t: string)
    requires n <= |lines|
  {
    exists i :: 0 <= i < n && FirstOf(lower, lines, i, t)
  }

  lemma KeysOfLines(lower: string -> string, lines: seq<string>, n: nat, key: string)
    requires n <= |lines|
    requires forall t :: t in KeptLines(lower, lines, n) ==> FirstAmong(lower, lines, n, t)
    ensures key in Keys(lower, KeptLines(lower, lines, n)) <==>
      exists h :: 0 <= h < n && TrimSpace(lines[h]) != "" && lower(TrimSpace(lines[h])) == key
  {
    var k := KeptLines(lower, lines, n);
    KeysAre(lower, k, key);
    if key in Keys(lower, k) {
      var j :| 0 <= j < |k| && lower(k[j]) == key;
      assert k[j] in k;
      var i :| 0 <= i < n && FirstOf(lower, lines, i, k[j]);
    }
    if h :| 0 <= h < n && TrimSpace(lines[h]) != "" && lower(TrimSpace(lines[h])) == key {
      KeptKeys(lower, lines, n, h);
    }
  }

  lemma OneLineMore(lower: string -> string, lines: seq<string>, n: nat, t: string)
    requires 0 < n <= |lines|
    ensures FirstAmong(lower, lines, n, t) <==> FirstAmong(lower, lines, n - 1, t) || FirstOf(lower, lines, n - 1, t)
  {
  }

  /** A line is kept exactly if it is the first of those alike up to case and edge whitespace, and
      the kept ones stay in their order. */
  lemma {:induction false} KeptExactly(lower: string -> string, lines: seq<string>, n: nat)
    requires n <= |lines|
    ensures forall t :: t in KeptLines(lower, lines, n) <==> FirstAmong(lower, lines, n, t)
    ensures n > 0 ==> KeptLines(lower, lines, n - 1) <= KeptLines(lower, lines, n)
  {
    if n > 0 {
      KeptExactly(lower, lines, n - 1);
      var before, u := KeptLines(lower, lines, n - 1), TrimSpace(lines[n - 1]);
      KeysOfLines(lower, lines, n - 1, lower(u));
      forall t ensures t in KeptLines(lower, lines, n) <==> FirstAmong(lower, lines, n, t) {
        OneLineMore(lower, lines, n, t);
        assert t in KeptLines(lower, lines, n) <==> t in before || FirstOf(lower, lines, n - 1, t);
      }
    }
  }

  lemma {:induction false} NothingToDrop(lower: string -> string, lines: seq<string>, n: nat)
    requires n <= |lines| && Distinct(lower, lines) && forall t :: t in lines ==> Trimmed(t)
    ensures KeptLines(lower, lines, n) == lines[..n]
  {
    if n > 0 {
      NothingToDrop(lower, lines, n - 1);
      KeysAre(lower, lines[..n - 1], lower(lines[n - 1]));
      assert lines[n - 1] in lines;
      assert lines[..n - 1] + [lines[n - 1]] == lines[..n];
    }
  }

  /** dedupeLines is a projection: what it returns has nothing left to drop. */
  lemma DedupeIdempotent(lower: string -> string, s: string)
    ensures Deduped(lower, Deduped(lower, s)) == Deduped(lower, s)
  {
    JoinSplit(s);
    var k := KeptLines(lower, Split(s), |Split(s)|);
    KeptAreDistinct(lower, Split(s), |Split(s)|);
    if k == [] {
      assert Split("") == [""];
      assert TrimSpace("") == "";
      assert KeptLines(lower, [""], 0) == [];
    } else {
      SplitJoin(k);
      NothingToDrop(lower, k, |k|);
      assert k[..|k|] == k;
    }
  }
}
