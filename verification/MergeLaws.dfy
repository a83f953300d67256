/** Injecting a memory block again replaces the one injected before: exactly when, and
    what stripMemoryBlock removes. */
module MergeLaws {
  import opened Whitespace
  import opened MemoryBlock

  ghost predicate NoMarker(f: Fence, s: string, from: nat, to: nat) {
    forall i :: from <= i < to ==> !Marker(f, s, i)
  }

  lemma MarkerParts(f: Fence, s: string, i: nat)
    ensures Marker(f, s, i) <==> Occurs(s, f.open, i) && Occurs(s, f.header, i + |f.open|)
  {
    var m := f.open + f.header;
    if i + |m| <= |s| {
      assert s[i..i + |m|] == s[i..i + |f.open|] + s[i + |f.open|..i + |f.open| + |f.header|];
      assert m[..|f.open|] == f.open && m[|f.open|..] == f.header;
    }
  }

  /** Nothing begins an opening tag between two positions: the scan may start at either. */
  lemma SameScan(f: Fence, s: string, a: nat, b: nat)
    requires FenceOk(f) && a <= b && forall i :: a <= i < b ==> !Occurs(s, f.open, i)
    ensures StripFrom(f, s, a) == StripFrom(f, s, b)
  {
    FindIsFirst(s, f.open, a);
    FindIsFirst(s, f.open, b);
    var i := Find(s, f.open, a);
    assert i == Find(s, f.open, b);
    if i < 0 {
      NoOpening(f, s, a);
      NoOpening(f, s, b);
    } else if !Occurs(s, f.header, i + |f.open|) {
      ForeignTag(f, s, a);
      ForeignTag(f, s, b);
    } else {
      OwnBlock(f, s, a, i);
      OwnBlock(f, s, b, i);
    }
  }

  lemma NoTagInside(s: string, tag: string, i: nat)
    requires TagLike(tag) && Occurs(s, tag, i)
    ensures forall j :: i < j < i + |tag| ==> !Occurs(s, tag, j)
  {
    forall j | i < j < i + |tag| ensures !Occurs(s, tag, j) {
      OccursAt(s, tag, i, j - i);
      assert j + |tag| <= |s| ==> s[j..j + |tag|][0] == s[j];
    }
  }

  /** One opening tag that is not a marker is passed over. */
  lemma PassOver(f: Fence, s: string, search: nat, i: nat)
    requires FenceOk(f) && i == Find(s, f.open, search) && search <= i && !Marker(f, s, i)
    ensures StripFrom(f, s, search) == StripFrom(f, s, i + |f.open|)
  {
    FindIsFirst(s, f.open, search);
    MarkerParts(f, s, i);
    ForeignTag(f, s, search);
  }

  /** The scan passes over every opening tag that is not a marker. */
  lemma {:induction false} ScanTo(f: Fence, s: string, search: nat, start: nat)
    requires FenceOk(f) && search <= start && NoMarker(f, s, search, start)
    ensures StripFrom(f, s, search) == StripFrom(f, s, start)
    decreases start - search
  {
    var i := Find(s, f.open, search);
    FindIsFirst(s, f.open, search);
    if i < 0 || i >= start {
      SameScan(f, s, search, start);
    } else {
      PassOver(f, s, search, i);
      var next := i + |f.open|;
      if next <= start {
        ScanTo(f, s, next, start);
      } else {
        NoTagInside(s, f.open, i);
        SameScan(f, s, start, next);
      }
    }
  }

  lemma ScanEnds(f: Fence, s: string)
    requires FenceOk(f)
    ensures StripFrom(f, s, |s|) == s
  {
    FindIsFirst(s, f.open, |s|);
  }

  /** Text without a marker is left untouched, closed tags of the user's own included. */
  lemma NoMarkerUntouched(f: Fence, s: string)
    requires FenceOk(f) && NoMarker(f, s, 0, |s|)
    ensures Strip(f, s) == s
  {
    ScanTo(f, s, 0, |s|);
    ScanEnds(f, s);
  }

  /** At the first marker the text up to the next closing tag is cut out, if there is one. */
  lemma CutAtMarker(f: Fence, s: string, search: nat, start: nat)
    requires FenceOk(f) && search <= start && NoMarker(f, s, search, start) && Marker(f, s, start)
    requires Find(s, f.close, start) >= 0
    ensures start <= Find(s, f.close, start) && Find(s, f.close, start) + |f.close| <= |s|
    ensures StripFrom(f, s, search) == StripFrom(f, s[..start] + s[Find(s, f.close, start) + |f.close|..], start)
  {
    ScanTo(f, s, search, start);
    MarkerParts(f, s, start);
    assert Find(s, f.open, start) == start;
    OwnBlock(f, s, start, start);
  }

  // A text, a separator, and a block

  function Injected(f: Fence, p: string, body: string): string { p + SEP + Block(f, body) }

  lemma MarkerNotAcross(f: Fence, p: string, rest: string, i: nat)
    requires FenceOk(f) && i <= |p| + 1 && Marker(f, p + SEP + rest, i)
    ensures i < |p| && Marker(f, p, i)
  {
    var s, m := p + SEP + rest, f.open + f.header;
    OccursAt(s, m, i, 0);
    assert s[|p|] == '\n' && s[|p| + 1] == '\n';
    if i + |m| > |p| {
      OccursAt(s, m, i, |p| - i);
      assert |p| - i == |f.open|;
      OccursAt(s, m, i, |p| - i + 1);
    } else {
      assert s[i..i + |m|] == p[i..i + |m|];
    }
  }

  lemma NoMarkerCarries(f: Fence, p: string, rest: string, from: nat, to: nat)
    requires FenceOk(f) && to <= |p| + 2 && NoMarker(f, p, from, if to <= |p| then to else |p|)
    ensures NoMarker(f, p + SEP + rest, from, to)
  {
    forall i | from <= i < to ensures !Marker(f, p + SEP + rest, i) {
      if Marker(f, p + SEP + rest, i) { MarkerNotAcross(f, p, rest, i); }
    }
  }

  lemma MarkerInside(f: Fence, p: string, rest: string, i: nat)
    requires Marker(f, p, i)
    ensures Marker(f, p + rest, i)
  {
    var m := f.open + f.header;
    assert (p + rest)[i..i + |m|] == p[i..i + |m|];
  }

  lemma BlockIsMarked(f: Fence, p: string, body: string)
    requires FenceOk(f)
    ensures Marker(f, p + Block(f, body), |p|)
  {
    var s := p + Block(f, body);
    assert s[|p|..|p| + |f.open|] == f.open;
    assert s[|p| + |f.open|..|p| + |f.open| + |f.header|] == f.intro[..|f.header|];
    MarkerParts(f, s, |p|);
  }

  /** Where closing tags can be: in the text itself, or at the very end. */
  lemma ClosePlaces(f: Fence, p: string, body: string, c: nat)
    requires FenceOk(f) && FenceFree(f, body) && Occurs(Injected(f, p, body), f.close, c)
    ensures Occurs(p, f.close, c) || c == |Injected(f, p, body)| - |f.close|
  {
    var b := Block(f, body);
    assert Injected(f, p, body) == p + (SEP + b);
    if c <= |p| { TagBeforeBreak(p, SEP + b, f.close, c); } else { CloseInBlock(f, p + SEP, body, c); }
  }

  lemma CloseInBlock(f: Fence, q: string, body: string, c: nat)
    requires FenceOk(f) && FenceFree(f, body) && Occurs(q + Block(f, body), f.close, c)
    requires c + 1 >= |q| >= 1 && q[|q| - 1] == '\n'
    ensures c == |q + Block(f, body)| - |f.close|
  {
    var s := q + Block(f, body);
    OccursAt(s, f.close, c, 0);
    assert c >= |q|;
    assert s[c..c + |f.close|] == Block(f, body)[c - |q|..c - |q| + |f.close|];
    OneFenceEach(f, body, c - |q|);
  }

  lemma CloseAtEnd(f: Fence, p: string, body: string)
    ensures Occurs(p + Block(f, body), f.close, |p + Block(f, body)| - |f.close|)
  {
    var s := p + Block(f, body);
    assert s == (p + (f.open + (f.intro + (body + "\n")))) + f.close;
  }

  lemma TrimAppendBreaks(p: string)
    ensures TrimSpace(p + SEP) == TrimSpace(p) && |TrimSpace(p)| <= |p|
  {
    var left, right := TrimSpaceCuts(p);
    var left', right' := TrimSpaceCuts(p + SEP);
    CutsAgree(p + SEP, left, TrimSpace(p), right + SEP, left', TrimSpace(p + SEP), right');
  }

  /** There is one way to cut the whitespace off both ends. */
  lemma CutsAgree(s: string, l1: string, m1: string, r1: string, l2: string, m2: string, r2: string)
    requires s == l1 + m1 + r1 == l2 + m2 + r2
    requires AllSpaces(l1) && AllSpaces(r1) && AllSpaces(l2) && AllSpaces(r2) && !EdgeSpace(m1) && !EdgeSpace(m2)
    ensures m1 == m2
  {
    if m1 == "" {
      AllSpaceNoMiddle(s, l1, r1, l2, m2, r2);
    } else if m2 == "" {
      AllSpaceNoMiddle(s, l2, r2, l1, m1, r1);
    } else {
      EdgesAgree(s, l1, m1, r1, l2, m2, r2);
      EdgesAgree(s, l2, m2, r2, l1, m1, r1);
      assert m1 == s[|l1|..|l1| + |m1|] && m2 == s[|l2|..|l2| + |m2|];
    }
  }

  /** Outside the middle part every character is whitespace. */
  lemma SpacesOutside(s: string, l: string, m: string, r: string)
    requires s == l + m + r && AllSpaces(l) && AllSpaces(r)
    ensures forall k :: 0 <= k < |l| ==> IsSpace(s[k])
    ensures forall k :: |l| + |m| <= k < |s| ==> IsSpace(s[k])
  {
    forall k | 0 <= k < |l| ensures IsSpace(s[k]) { assert s[k] == l[k] && l[k] in l; }
    forall k | |l| + |m| <= k < |s| ensures IsSpace(s[k]) {
      var j := k - |l| - |m|;
      assert s[k] == r[j] && r[j] in r;
    }
  }

  lemma AllSpaceNoMiddle(s: string, l1: string, r1: string, l2: string, m2: string, r2: string)
    requires s == l1 + "" + r1 == l2 + m2 + r2 && AllSpaces(l1) && AllSpaces(r1) && !EdgeSpace(m2)
    ensures m2 == ""
  {
    SpacesOutside(s, l1, "", r1);
    assert s[|l2|..|l2| + |m2|] == m2;
  }

  lemma EdgesAgree(s: string, l1: string, m1: string, r1: string, l2: string, m2: string, r2: string)
    requires s == l1 + m1 + r1 == l2 + m2 + r2 && m1 != "" && m2 != ""
    requires AllSpaces(l1) && AllSpaces(r1) && !EdgeSpace(m2)
    ensures |l1| <= |l2| && |l2| + |m2| <= |l1| + |m1|
  {
    SpacesOutside(s, l1, m1, r1);
    assert s[|l2|] == m2[0] && s[|l2| + |m2| - 1] == m2[|m2| - 1];
  }

  /** Stripping a text with a block after it: with no marker in the text, just the block
      goes; otherwise some of the text goes too. */
  lemma {:induction false} StripInjected(f: Fence, p: string, body: string, search: nat)
    requires FenceOk(f) && FenceFree(f, body) && search <= |p|
    ensures var r := StripFrom(f, Injected(f, p, body), search);
      && |TrimSpace(r)| <= |p|
      && (NoMarker(f, p, search, |p|) ==> r == p + SEP)
      && (!NoMarker(f, p, search, |p|) ==> |TrimSpace(r)| < |p|)
    decreases |p|
  {
    if NoMarker(f, p, search, |p|) {
      StripJustBlock(f, p, body, search);
      TrimAppendBreaks(p);
    } else {
      var start := FirstMarker(f, p, search);
      StripIntoText(f, p, body, search, start);
    }
  }

  lemma FirstMarker(f: Fence, p: string, search: nat) returns (start: nat)
    requires !NoMarker(f, p, search, |p|)
    ensures search <= start < |p| && Marker(f, p, start) && NoMarker(f, p, search, start)
  {
    start := search;
    while !Marker(f, p, start)
      invariant search <= start <= |p| && NoMarker(f, p, search, start)
      decreases |p| - start
    {
      start := start + 1;
    }
  }

  /** The only closing tag after the text is the block's. */
  lemma BlockCloses(f: Fence, p: string, body: string)
    requires FenceOk(f) && FenceFree(f, body)
    ensures var s := Injected(f, p, body); Find(s, f.close, |p| + 2) == |s| - |f.close|
  {
    var s := Injected(f, p, body);
    CloseAtEnd(f, p + SEP, body);
    FindIsFirst(s, f.close, |p| + 2);
    CloseInBlock(f, p + SEP, body, Find(s, f.close, |p| + 2));
  }

  lemma StripJustBlock(f: Fence, p: string, body: string, search: nat)
    requires FenceOk(f) && FenceFree(f, body) && search <= |p| && NoMarker(f, p, search, |p|)
    ensures StripFrom(f, Injected(f, p, body), search) == p + SEP
  {
    NoMarkerCarries(f, p, Block(f, body), search, |p| + 2);
    BlockIsMarked(f, p + SEP, body);
    BlockCloses(f, p, body);
    CutAtMarker(f, Injected(f, p, body), search, |p| + 2);
    CutToEnd(p + SEP, Block(f, body));
    ScanEnds(f, p + SEP);
  }

  lemma CutToEnd(a: string, b: string)
    ensures (a + b)[..|a|] + (a + b)[|a + b|..] == a
  {
  }

  /** The cut at the first marker ends at a closing tag of the text, or at the block's. */
  lemma FirstCut(f: Fence, p: string, body: string, search: nat, start: nat) returns (at: nat)
    requires FenceOk(f) && FenceFree(f, body)
    requires search <= start < |p| && Marker(f, p, start) && NoMarker(f, p, search, start)
    ensures var s := Injected(f, p, body);
      && start <= at && at + |f.close| <= |s| && (Occurs(p, f.close, at) || at + |f.close| == |s|)
      && StripFrom(f, s, search) == StripFrom(f, s[..start] + s[at + |f.close|..], start)
  {
    var s := Injected(f, p, body);
    NoMarkerCarries(f, p, Block(f, body), search, start);
    assert s == p + (SEP + Block(f, body));
    MarkerInside(f, p, SEP + Block(f, body), start);
    CloseAtEnd(f, p + SEP, body);
    FindIsFirst(s, f.close, start);
    CutAtMarker(f, s, search, start);
    at := Find(s, f.close, start);
    ClosePlaces(f, p, body, at);
  }

  lemma Splice(f: Fence, p: string, body: string, start: nat, end: nat)
    requires start <= end <= |p|
    ensures Injected(f, p, body)[..start] + Injected(f, p, body)[end..] == Injected(f, p[..start] + p[end..], body)
  {
    assert Injected(f, p, body) == p + (SEP + Block(f, body));
  }

  lemma Truncate(f: Fence, p: string, body: string, start: nat)
    requires start <= |p|
    ensures Injected(f, p, body)[..start] + Injected(f, p, body)[|Injected(f, p, body)|..] == p[..start]
  {
    assert Injected(f, p, body) == p + (SEP + Block(f, body));
  }

  lemma StripIntoText(f: Fence, p: string, body: string, search: nat, start: nat)
    requires FenceOk(f) && FenceFree(f, body)
    requires search <= start < |p| && Marker(f, p, start) && NoMarker(f, p, search, start)
    ensures |TrimSpace(StripFrom(f, Injected(f, p, body), search))| < |p|
    decreases |p|, 0
  {
    var s := Injected(f, p, body);
    var at := FirstCut(f, p, body, search, start);
    if Occurs(p, f.close, at) {
      Splice(f, p, body, start, at + |f.close|);
      StripInjected(f, p[..start] + p[at + |f.close|..], body, start);
    } else {
      Truncate(f, p, body, start);
      ScanEnds(f, p[..start]);
      TrimAppendBreaks(p[..start]);
    }
  }

  lemma LoneClose(f: Fence, body: string)
    requires FenceOk(f) && FenceFree(f, body)
    ensures Find(Block(f, body), f.close, 0) == |Block(f, body)| - |f.close|
  {
    var b := Block(f, body);
    CloseAtEnd(f, "", body);
    assert "" + b == b;
    FindIsFirst(b, f.close, 0);
    OneFenceEach(f, body, Find(b, f.close, 0));
  }

  lemma CutAll(b: string)
    ensures b[..0] + b[|b|..] == ""
  {
  }

  lemma StripLoneBlock(f: Fence, body: string)
    requires FenceOk(f) && FenceFree(f, body)
    ensures Strip(f, Block(f, body)) == ""
  {
    var b := Block(f, body);
    assert "" + b == b;
    BlockIsMarked(f, "", body);
    LoneClose(f, body);
    CutAtMarker(f, b, 0, 0);
    CutAll(b);
    ScanEnds(f, "");
  }

  /** Merging a second block replaces the first, exactly when what is left of the existing
      text holds no opening tag directly followed by the plugin's header line. */
  lemma MergeReplacesExactly(f: Fence, e: string, body1: string, body2: string)
    requires FenceOk(f) && FenceFree(f, body1)
    ensures var x := TrimSpace(Strip(f, e)); var b1, b2 := Block(f, body1), Block(f, body2);
      Merge(f, Merge(f, e, b1), b2) == Merge(f, e, b2) <==> NoMarker(f, x, 0, |x|)
  {
    var x, b1, b2 := TrimSpace(Strip(f, e)), Block(f, body1), Block(f, body2);
    if x == "" {
      StripLoneBlock(f, body1);
    } else {
      assert Merge(f, e, b1) == Injected(f, x, body1);
      StripInjected(f, x, body1, 0);
      var y := TrimSpace(Strip(f, Injected(f, x, body1)));
      if NoMarker(f, x, 0, |x|) {
        TrimAppendBreaks(x);
        var left, right := TrimSpaceCuts(Strip(f, e));
        TrimSpaceFixed(x);
      } else {
        assert |Merge(f, Merge(f, e, b1), b2)| < |Merge(f, e, b2)|;
      }
    }
  }

  /** For existing text with no such tag, merging is idempotent and the old block leaves no
      trace: what comes back out is the existing text, trimmed. */
  lemma MergeReplaces(f: Fence, e: string, body1: string, body2: string)
    requires FenceOk(f) && FenceFree(f, body1) && NoMarker(f, e, 0, |e|)
    ensures Strip(f, e) == e
    ensures Merge(f, Merge(f, e, Block(f, body1)), Block(f, body2)) == Merge(f, e, Block(f, body2))
    ensures TrimSpace(Strip(f, Merge(f, e, Block(f, body1)))) == TrimSpace(e)
  {
    NoMarkerUntouched(f, e);
    var left, right := TrimSpaceCuts(e);
    var x := TrimSpace(e);
    forall i | 0 <= i < |x| ensures !Marker(f, x, i) {
      if Marker(f, x, i) { MarkerWithin(f, left, x, right, i); }
    }
    MergeReplacesExactly(f, e, body1, body2);
    if x == "" {
      StripLoneBlock(f, body1);
    } else {
      StripInjected(f, x, body1, 0);
      TrimAppendBreaks(x);
      TrimSpaceFixed(x);
    }
  }

  lemma MarkerWithin(f: Fence, left: string, x: string, right: string, i: nat)
    requires Marker(f, x, i)
    ensures Marker(f, left + x + right, |left| + i)
  {
    var m := f.open + f.header;
    assert (left + x + right)[|left| + i..|left| + i + |m|] == x[i..i + |m|];
  }

  /** Text of the user's own that looks like the plugin's, left unclosed, is not left
      untouched: once a block has been injected after it, the next injection swallows it
      and everything up to that block. */
  lemma UnclosedMarkerIsSwallowed(f: Fence, e: string, start: nat, body: string)
    requires FenceOk(f) && FenceFree(f, body) && start < |e|
    requires Marker(f, e, start) && NoMarker(f, e, 0, start) && forall c :: !Occurs(e, f.close, c)
    ensures Strip(f, Injected(f, e, body)) == e[..start]
  {
    var at := FirstCut(f, e, body, 0, start);
    Truncate(f, e, body, start);
    ScanEnds(f, e[..start]);
  }
}
