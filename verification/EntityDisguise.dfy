/** What neutralize can leave of a disguise: a bracket spelled as an HTML entity.  Entities are
    decoded once, before the passes, so one that a deletion puts together stays. */
module EntityDisguise {
  import opened Whitespace
  import opened Neutralize
  import opened TruncatedTags

  /** The characters of an entity: none is a bracket, a blank or a control character. */
  predicate InEntity(c: char) { c == '&' || c == 'l' || c == 'g' || c == 't' || c == ';' }

  /** The first four characters, as far as an entity cares. */
  lemma SameFour(s: string, t: string)
    requires |s| == |t| && forall i :: 0 <= i < |s| ==> s[i] == t[i] || (!InEntity(s[i]) && !InEntity(t[i]))
    ensures IsEntity(s) <==> IsEntity(t)
  {
  }

  /** Replacing characters that no entity has by others that none has. */
  lemma {:induction false} SameEntities(s: string, t: string)
    requires |s| == |t| && forall i :: 0 <= i < |s| ==> s[i] == t[i] || (!InEntity(s[i]) && !InEntity(t[i]))
    ensures HasEntity(s) <==> HasEntity(t)
  {
    if s != "" {
      SameFour(s, t);
      SameEntities(s[1..], t[1..]);
    }
  }

  lemma {:induction false} ControlsAt(s: string)
    ensures |DropControls(s)| == |s|
    ensures forall i :: 0 <= i < |s| ==> DropControls(s)[i] == if IsControl(s[i]) then ' ' else s[i]
  {
    if s != "" { ControlsAt(s[1..]); }
  }

  lemma {:induction false} BracketsAt(s: string)
    ensures |DropBrackets(s)| == |s|
    ensures forall i :: 0 <= i < |s| ==> DropBrackets(s)[i] == if s[i] == '<' || s[i] == '>' then ' ' else s[i]
  {
    if s != "" { BracketsAt(s[1..]); }
  }

  /** Decoding leaves none: an entity in its result would have been one in the text. */
  lemma {:induction false} DecodingLeavesNone(s: string)
    ensures !HasEntity(Entities(s)) && |Entities(s)| <= |s| && (HasEntity(s) ==> |Entities(s)| < |s|)
    decreases |s|
  {
    if s != "" {
      EntityDecodes(s);
      if IsEntity(s) {
        DecodingLeavesNone(s[4..]);
        assert Entities(s)[1..] == Entities(s[4..]);
      } else {
        DecodingLeavesNone(s[1..]);
        assert Entities(s)[1..] == Entities(s[1..]);
        if IsEntity(Entities(s)) { DecodedHead(s, 3); }
      }
    }
  }

  /** Text that decoding begins with characters of entities begins with these itself. */
  lemma {:induction false} DecodedHead(s: string, n: nat)
    requires n < |Entities(s)| && forall i :: 0 <= i <= n ==> InEntity(Entities(s)[i])
    ensures n < |s| && s[..n + 1] == Entities(s)[..n + 1]
    decreases n
  {
    if s != "" {
      EntityDecodes(s);
      assert !IsEntity(s) by { assert InEntity(Entities(s)[0]); }
      if n > 0 {
        assert Entities(s)[1..] == Entities(s[1..]);
        assert forall i :: 0 <= i <= n - 1 ==> Entities(s[1..])[i] == Entities(s)[i + 1];
        DecodedHead(s[1..], n - 1);
        assert s[..n + 1] == [s[0]] + s[1..][..n];
      }
    }
  }

  // The collapse and the trim

  lemma {:induction false} SuffixEntity(s: string, i: nat)
    requires i <= |s| && HasEntity(s[i..])
    ensures HasEntity(s)
  {
    if i > 0 {
      assert s[1..][i - 1..] == s[i..];
      SuffixEntity(s[1..], i - 1);
    } else {
      assert s[0..] == s;
    }
  }

  lemma {:induction false} SkippedEntity(s: string)
    ensures HasEntity(SkipBlanks(s)) <==> HasEntity(s)
  {
    if s != "" && IsBlank(s[0]) { SkippedEntity(s[1..]); }
  }

  lemma PrefixCons(w: string, s: string)
    requires w != ""
    ensures w <= s <==> s != "" && w[0] == s[0] && w[1..] <= s[1..]
  {
    if s != "" && w[0] == s[0] && w[1..] <= s[1..] {
      assert forall i :: 1 <= i < |w| ==> w[i] == w[1..][i - 1] && s[i] == s[1..][i - 1];
    }
  }

  /** Collapsed text begins with a word exactly if the text does. */
  lemma {:induction false} CollapsedPrefix(w: string, s: string)
    requires NoBlanks(w)
    ensures w <= Collapse(s) <==> w <= s
  {
    if w != "" {
      PrefixCons(w, s);
      PrefixCons(w, Collapse(s));
      CollapseIsSingle(s);
      if s != "" && !IsBlank(s[0]) {
        assert Collapse(s)[1..] == Collapse(s[1..]);
        CollapsedPrefix(w[1..], s[1..]);
      }
    }
  }

  function EntityOf(c: char): string { ['&', c, 't', ';'] }

  lemma EntityIsPrefix(s: string)
    ensures IsEntity(s) <==> EntityOf('l') <= s || EntityOf('g') <= s
  {
  }

  lemma CollapsedEntityHere(s: string)
    ensures IsEntity(Collapse(s)) <==> IsEntity(s)
  {
    EntityIsPrefix(s);
    EntityIsPrefix(Collapse(s));
    CollapsedPrefix(EntityOf('l'), s);
    CollapsedPrefix(EntityOf('g'), s);
  }

  lemma {:induction false} CollapseKeepsEntities(s: string)
    ensures HasEntity(Collapse(s)) <==> HasEntity(s)
    decreases |s|
  {
    if s != "" {
      CollapsedEntityHere(s);
      if |s| >= 2 && IsBlank(s[0]) && IsBlank(s[1]) {
        SkipShortens(s);
        SkippedEntity(s);
        CollapseKeepsEntities(SkipBlanks(s));
        assert Collapse(s)[1..] == Collapse(SkipBlanks(s));
      } else {
        CollapseKeepsEntities(s[1..]);
        assert Collapse(s)[1..] == Collapse(s[1..]);
      }
    }
  }

  lemma {:induction false} SpaceAfter(s: string, c: char)
    requires !InEntity(c)
    ensures HasEntity(s + [c]) <==> HasEntity(s)
  {
    if s == "" {
      assert (s + [c])[1..] == "";
    } else {
      assert (s + [c])[1..] == s[1..] + [c];
      SpaceAfter(s[1..], c);
    }
  }

  lemma {:induction false} TrimRightKeepsEntities(s: string)
    ensures HasEntity(TrimRight(s)) <==> HasEntity(s)
    decreases |s|
  {
    if s != "" && IsSpace(s[|s| - 1]) {
      TrimRightKeepsEntities(s[..|s| - 1]);
      SpaceAfter(s[..|s| - 1], s[|s| - 1]);
      assert s[..|s| - 1] + [s[|s| - 1]] == s;
    }
  }

  lemma {:induction false} TrimLeftKeepsEntities(s: string)
    ensures HasEntity(TrimLeft(s)) <==> HasEntity(s)
  {
    if s != "" && IsSpace(s[0]) { TrimLeftKeepsEntities(s[1..]); }
  }

  /** What the passes work on. */
  function Decoded(text: string): string { DropControls(Entities(Undisguise(text))) }

  lemma DecodedHasNone(text: string)
    ensures !HasEntity(Decoded(text))
  {
    DecodingLeavesNone(Undisguise(text));
    ControlsAt(Entities(Undisguise(text)));
    SameEntities(Entities(Undisguise(text)), Decoded(text));
  }

  /** The text neutralize passes to the model has an entity exactly if the passes put one
      together: what comes before them leaves none, and what comes after adds and removes none. */
  lemma EntityLeftExactly(other: OtherPasses, text: string)
    ensures HasEntity(Neutralized(other, text)) <==> HasEntity(Passes(other, Decoded(text), MAX_PASSES))
    ensures !HasEntity(Decoded(text))
  {
    var s := Passes(other, Decoded(text), MAX_PASSES);
    var b := Backstop(other, s);
    DecodedHasNone(text);
    BracketsAt(s);
    SameEntities(s, DropBrackets(s));
    CollapseKeepsEntities(b);
    TrimLeftKeepsEntities(Collapse(b));
    TrimRightKeepsEntities(TrimLeft(Collapse(b)));
  }

  lemma {:induction false} UndisguiseAmpersand(s: string)
    ensures '&' in Undisguise(s) ==> '&' in s
  {
    if s != "" {
      UndisguiseAmpersand(s[1..]);
      assert s == [s[0]] + s[1..];
    }
  }

  lemma {:induction false} EntitiesAmpersand(s: string)
    ensures '&' in Entities(s) ==> '&' in s
    decreases |s|
  {
    if s != "" {
      EntityDecodes(s);
      if IsEntity(s) { assert s[0] in s; } else { EntitiesAmpersand(s[1..]); }
    }
  }

  /** None is left of a text without an ampersand, nor if the passes find nothing to delete. */
  lemma NoEntityLeft(other: OtherPasses, text: string)
    requires Deletes(other.strip)
    requires '&' !in text || Pass(other, Decoded(text)) == Decoded(text)
    ensures !HasEntity(Neutralized(other, text))
  {
    EntityLeftExactly(other, text);
    if '&' !in text {
      UndisguiseAmpersand(text);
      EntitiesAmpersand(Undisguise(text));
      ControlsAt(Entities(Undisguise(text)));
      PassesDelete(other, Decoded(text), MAX_PASSES);
      NoAmpersandNoEntity(Passes(other, Decoded(text), MAX_PASSES));
    }
  }

  // It does happen

  lemma {:induction false} StripClosedBefore(p: string, s: string)
    requires '<' !in p
    ensures StripClosed(p + s) == p + StripClosed(s)
  {
    if p == "" {
      assert p + s == s;
    } else {
      assert (p + s)[1..] == p[1..] + s && (p + s)[0] == p[0] && p[0] in p;
      StripClosedBefore(p[1..], s);
      assert p + StripClosed(s) == [p[0]] + (p[1..] + StripClosed(s));
    }
  }

  lemma {:induction false} NamedThen(name: string, r: string)
    requires (forall c :: c in name ==> Lower(c) == c) && (r == "" || !IsWord(r[0]))
    ensures NamesWord(name + r, name)
  {
    if name == "" {
      assert name + r == r;
    } else {
      assert name[0] in name;
      assert (name + r)[1..] == name[1..] + r;
      NamedThen(name[1..], r);
    }
  }

  /** A tag right at the beginning, and what comes after its name. */
  lemma TagThen(name: string, r: string)
    requires name == FENCE_NAME && (r == "" || !IsWord(r[0]))
    ensures Bare("<" + (name + r)) && AfterBare("<" + (name + r)) == r
  {
    NameIsLower();
    var t := name + r;
    assert t[0] == name[0];
    assert ("<" + t)[1..] == t;
    assert SkipSlash(SkipWs(t)) == t;
    NamedThen(name, r);
    assert t[|name|..] == r;
  }

  lemma StripsTag(name: string, p: string, q: string)
    requires name == FENCE_NAME && '<' !in p && '<' !in q
    ensures StripBare(StripClosed(p + ("<" + (name + (">" + q))))) == p + q
  {
    var r := ">" + q;
    TagThen(name, r);
    StripClosedBefore(p, "<" + (name + r));
    assert r[0] == '>' && AfterClose(r) == q;
    assert Closed("<" + (name + r));
    NoBracketNoFence(q);
    StripsKeep(q);
    NoBracketNoFence(p + q);
    StripsKeep(p + q);
  }

  /** An entity does not reach past a character that none has. */
  lemma EntityEnds(p: string, c: char, q: string)
    requires p != "" && !InEntity(c) && IsEntity(p + ([c] + q))
    ensures IsEntity(p)
  {
    var s := p + ([c] + q);
    assert s[|p|] == c;
    assert forall i :: 0 <= i < |p| ==> s[i] == p[i];
    assert forall i :: 0 <= i < 4 ==> InEntity(s[i]);
  }

  lemma {:induction false} EntityBefore(p: string, c: char, q: string)
    requires !HasEntity(p) && !InEntity(c) && !HasEntity(q)
    ensures !HasEntity(p + ([c] + q))
  {
    var s := p + ([c] + q);
    if p == "" {
      assert s == [c] + q && s[1..] == q && s[0] == c;
    } else {
      assert s[1..] == p[1..] + ([c] + q);
      EntityBefore(p[1..], c, q);
      if IsEntity(s) { EntityEnds(p, c, q); }
    }
  }

  lemma NameIsWord()
    ensures forall c :: c in FENCE_NAME ==> c == '_' || 'a' <= c <= 'z'
  {
  }

  /** Two texts that neutralize would leave alone, each by itself and put together. */
  ghost predicate Halves(other: OtherPasses, p: string, q: string) {
    && (forall c :: c in p + q ==> Clean(c) && c != '<')
    && !HasEntity(p) && !HasEntity(q) && Single(p + q) && !EdgeSpace(p + q)
    && (other.strip)(p + q) == p + q && !(other.matches)(p + q)
  }

  lemma TaggedDecoded(other: OtherPasses, name: string, p: string, q: string)
    requires name == FENCE_NAME && Halves(other, p, q)
    ensures Decoded(p + ("<" + (name + (">" + q)))) == p + ("<" + (name + (">" + q)))
  {
    var r := name + (">" + q);
    var s := p + ("<" + r);
    NameIsWord();
    forall c | c in s ensures Clean(c) {
      assert c in p + q || c == '<' || c == '>' || c in name;
    }
    NoAmpersandNoEntity(name);
    EntityBefore(name, '>', q);
    EntityBefore(p, '<', r);
    UndisguiseKeeps(s);
    EntitiesKeep(s);
  }

  /** A tag between two texts is cut out, and that is all: whatever they form together stays. */
  lemma TagCutOut(other: OtherPasses, name: string, p: string, q: string)
    requires name == FENCE_NAME && Halves(other, p, q)
    ensures Neutralized(other, p + ("<" + (name + (">" + q)))) == p + q
  {
    var s := p + ("<" + (name + (">" + q)));
    TaggedDecoded(other, name, p, q);
    assert forall c :: c in p ==> c in p + q;
    assert forall c :: c in q ==> c in p + q;
    StripsTag(name, p, q);
    NoBracketNoFence(p + q);
    StripsKeep(p + q);
    assert Pass(other, s) == p + q == Pass(other, p + q);
    assert |s| > |p + q|;
    assert Passes(other, s, MAX_PASSES) == p + q;
    SingleStays(p + q);
    TrimSpaceFixed(p + q);
  }

  // Neutralizing twice

  lemma {:induction false} UndisguiseShortens(s: string)
    ensures |Undisguise(s)| <= |s|
  {
    if s != "" { UndisguiseShortens(s[1..]); }
  }

  lemma {:induction false} PassesShorten(other: OtherPasses, s: string, n: nat)
    requires Deletes(other.strip)
    ensures |Passes(other, s, n)| <= |s|
    decreases n
  {
    if n > 0 {
      PassDeletes(other, s);
      PassesShorten(other, Pass(other, s), n - 1);
    }
  }

  lemma {:induction false} CollapseShortens(s: string)
    ensures |Collapse(s)| <= |s|
    decreases |s|
  {
    if |s| >= 2 && IsBlank(s[0]) && IsBlank(s[1]) {
      SkipShortens(s);
      CollapseShortens(SkipBlanks(s));
    } else if s != "" {
      CollapseShortens(s[1..]);
    }
  }

  /** The result is never longer than the decoded text. */
  lemma NeutralizedShortens(other: OtherPasses, text: string)
    requires Deletes(other.strip)
    ensures |Neutralized(other, text)| <= |Decoded(text)|
  {
    var s := Passes(other, Decoded(text), MAX_PASSES);
    PassesShorten(other, Decoded(text), MAX_PASSES);
    BracketsAt(s);
    CollapseShortens(Backstop(other, s));
    var left, right := TrimSpaceCuts(Collapse(Backstop(other, s)));
  }

  /** Neutralizing twice is neutralizing once exactly if no entity was left, for every text
      whose result has nothing for the other passes to find. */
  lemma IdempotentExactly(other: OtherPasses, text: string)
    requires Deletes(other.strip)
    requires var r := Neutralized(other, text); (other.strip)(r) == r && !(other.matches)(r)
    ensures var r := Neutralized(other, text); Neutralized(other, r) == r <==> !HasEntity(r)
  {
    var r := Neutralized(other, text);
    NeutralizedIsSafe(other, text);
    if HasEntity(r) {
      UndisguiseKeeps(r);
      DecodingLeavesNone(r);
      ControlsAt(Entities(r));
      NeutralizedShortens(other, r);
    } else {
      NeutralizeKeepsOrdinary(other, r);
    }
  }

  const HALF := "&l"
  const OTHER_HALF := "t;/cortext_memory"

  predicate InHalf(c: char) { c == ';' || c == '/' || c == '_' || 'a' <= c <= 'z' }

  lemma HalvesAre()
    ensures |HALF| == 2 && HALF[0] == '&' && HALF[1] == 'l'
    ensures |OTHER_HALF| > 2 && OTHER_HALF[0] == 't' && OTHER_HALF[1] == ';'
    ensures forall c :: c in OTHER_HALF ==> InHalf(c)
  {
  }

  lemma HalvesMakeEntity(other: OtherPasses, p: string, q: string)
    requires |p| == 2 && p[0] == '&' && p[1] == 'l'
    requires |q| > 2 && q[0] == 't' && q[1] == ';' && forall c :: c in q ==> InHalf(c)
    requires (other.strip)(p + q) == p + q && !(other.matches)(p + q)
    ensures Halves(other, p, q) && HasEntity(p + q)
  {
    NoAmpersandNoEntity(q);
    NoAmpersandNoEntity(p[1..]);
    assert p[1..] == [p[1]];
    var s := p + q;
    forall c | c in s ensures Clean(c) && c != '<' && !IsSpace(c) { assert c in q || c == p[0] || c == p[1]; }
    assert forall i :: 0 <= i < |s| ==> s[i] in s;
  }

  /** A tag inside an entity: the result of neutralize is again a fence tag once its entity is
      decoded, and a second round would change it. */
  lemma EntityReassembled(other: OtherPasses)
    requires Deletes(other.strip)
    requires (other.strip)(HALF + OTHER_HALF) == HALF + OTHER_HALF && !(other.matches)(HALF + OTHER_HALF)
    ensures var r := Neutralized(other, HALF + ("<" + (FENCE_NAME + (">" + OTHER_HALF))));
      r == HALF + OTHER_HALF && HasEntity(r) && HasFence(Entities(r)) && Neutralized(other, r) != r
  {
    HalvesAre();
    HalvesMakeEntity(other, HALF, OTHER_HALF);
    TagCutOut(other, FENCE_NAME, HALF, OTHER_HALF);
    IdempotentExactly(other, HALF + ("<" + (FENCE_NAME + (">" + OTHER_HALF))));
    DecodedIsTag(HALF + OTHER_HALF, FENCE_NAME) by { HalvesJoined(); }
  }

  lemma HalvesJoined()
    ensures var r := HALF + OTHER_HALF; IsEntity(r) && r[1] == 'l' && r[4..] == "/" + FENCE_NAME
  {
  }

  lemma DecodedIsTag(r: string, name: string)
    requires name == FENCE_NAME && IsEntity(r) && r[1] == 'l' && r[4..] == "/" + name
    ensures HasFence(Entities(r))
  {
    var t := "/" + name;
    EntityDecodes(r);
    NameIsWord();
    assert forall c :: c in t ==> c == '/' || c in name;
    NoAmpersandNoEntity(t);
    EntitiesKeep(t);
    ClosingTag(name);
  }

  lemma ClosingTag(name: string)
    requires name == FENCE_NAME
    ensures HasFence("<" + ("/" + name))
  {
    NameIsLower();
    var t := "/" + name;
    assert ("<" + t)[1..] == t && t[1..] == name && name[0] == 'c';
    assert SkipSlash(SkipWs(t)) == name;
    SelfNamed(name);
  }
}
