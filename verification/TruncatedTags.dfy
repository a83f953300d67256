/** What neutralize leaves alone, and what truncating its result can undo: a tag name that
    was part of a longer word is a tag again once the rest of the word is cut off. */
module TruncatedTags {
  import opened Whitespace
  import opened Neutralize
  import opened Truncation

  // Ordinary text is left as it is

  /** Nothing in `s` that neutralize looks for. */
  ghost predicate Ordinary(other: OtherPasses, s: string) {
    && (forall c :: c in s ==> Clean(c))
    && Single(s) && !EdgeSpace(s) && !HasFence(s) && !HasEntity(s) && (other.strip)(s) == s && !(other.matches)(s)
  }

  lemma {:induction false} UndisguiseKeeps(s: string)
    requires forall c :: c in s ==> Clean(c)
    ensures Undisguise(s) == s && DropControls(s) == s
  {
    if s != "" {
      assert s[0] in s;
      UndisguiseKeeps(s[1..]);
    }
  }

  lemma EntityDecodes(s: string)
    ensures IsEntity(s) <==> |s| >= 4 && (s[..4] == "&lt;" || s[..4] == "&gt;")
    ensures IsEntity(s) ==> Entities(s) == [if s[1] == 'l' then '<' else '>'] + Entities(s[4..])
    ensures s != "" && !IsEntity(s) ==> Entities(s) == [s[0]] + Entities(s[1..])
  {
    if |s| >= 4 { assert s[..4] == [s[0], s[1], s[2], s[3]]; }
  }

  lemma {:induction false} EntitiesKeep(s: string)
    requires !HasEntity(s)
    ensures Entities(s) == s
  {
    if s != "" {
      EntityDecodes(s);
      EntitiesKeep(s[1..]);
    }
  }

  lemma {:induction false} NoAmpersandNoEntity(s: string)
    requires '&' !in s
    ensures !HasEntity(s)
  {
    if s != "" { NoAmpersandNoEntity(s[1..]); }
  }

  lemma {:induction false} StripsKeep(s: string)
    requires !HasFence(s)
    ensures StripClosed(s) == s && StripBare(s) == s
  {
    if s != "" { StripsKeep(s[1..]); }
  }

  lemma NeutralizeKeepsOrdinary(other: OtherPasses, s: string)
    requires Ordinary(other, s)
    ensures Neutralized(other, s) == s
  {
    UndisguiseKeeps(s);
    EntitiesKeep(s);
    StripsKeep(s);
    assert Passes(other, s, MAX_PASSES) == s;
    SingleStays(s);
    TrimSpaceFixed(s);
  }

  // Cutting a text

  /** `s` ends with a tag's name. */
  predicate EndsInTag(s: string) {
    s != "" && ((Bare(s) && AfterBare(s) == "") || EndsInTag(s[1..]))
  }

  lemma {:induction false} EndsInTagHasFence(s: string)
    requires EndsInTag(s)
    ensures HasFence(s)
  {
    if !Bare(s) || AfterBare(s) != "" { EndsInTagHasFence(s[1..]); }
  }

  lemma {:induction false} CutMakesTag(t: string, n: nat)
    requires n <= |t| && !HasFence(t) && HasFence(t[..n])
    ensures n < |t| && IsWord(t[n]) && EndsInTag(t[..n])
  {
    var s, r := t[..n], t[n..];
    assert s + r == t;
    if Bare(s) {
      if AfterBare(s) != "" || r == "" || !IsWord(r[0]) { BareExtend(s, r); }
    } else {
      assert s[1..] == t[1..][..n - 1];
      CutMakesTag(t[1..], n - 1);
    }
  }

  /** Cutting safe text is safe, unless the cut falls inside a word just after a tag's name. */
  lemma CutIsSafeExactly(t: string, n: nat)
    requires n <= |t| && !HasFence(t)
    ensures HasFence(t[..n]) <==> n < |t| && IsWord(t[n]) && EndsInTag(t[..n])
  {
    if HasFence(t[..n]) { CutMakesTag(t, n); }
    if EndsInTag(t[..n]) { EndsInTagHasFence(t[..n]); }
  }

  // It does happen

  function Filler(n: nat): string { if n == 0 then "" else "a" + Filler(n - 1) }

  lemma {:induction false} FillerIsPlain(n: nat)
    ensures |Filler(n)| == n && forall c :: c in Filler(n) ==> c == 'a'
  {
    if n > 0 { FillerIsPlain(n - 1); }
  }

  lemma {:induction false} AsciiFits(s: string, max: nat)
    requires forall c :: c in s ==> c < '\U{0080}'
    ensures HeadLen(s, max) == if |s| <= max then |s| else max
  {
    if s != "" {
      assert s[0] in s && forall c :: c in s[1..] ==> c in s;
      if max > 0 { AsciiFits(s[1..], max - 1); }
    }
  }

  lemma {:induction false} FillerBefore(n: nat, s: string)
    ensures HasFence(Filler(n) + s) <==> HasFence(s)
  {
    if n == 0 {
      assert Filler(n) + s == s;
    } else {
      FillerBefore(n - 1, s);
      assert (Filler(n) + s)[1..] == Filler(n - 1) + s && (Filler(n) + s)[0] == 'a';
    }
  }

  const TAG := "<cortext_memory"

  lemma TagAlone()
    ensures HasFence(TAG) && |TAG| == 15
  {
    assert TAG[1..] == FENCE_NAME;
    assert SkipSlash(SkipWs(FENCE_NAME)) == FENCE_NAME;
    SelfNamed(FENCE_NAME);
  }

  lemma {:induction false} SelfNamed(name: string)
    requires forall c :: c in name ==> Lower(c) == c
    ensures NamesWord(name, name)
  {
    if name != "" {
      assert name[0] in name;
      SelfNamed(name[1..]);
    }
  }

  lemma {:induction false} NotNamed(name: string, r: string)
    requires (forall c :: c in name ==> Lower(c) == c) && r != "" && IsWord(r[0])
    ensures !NamesWord(name + r, name)
  {
    if name == "" {
      assert name + r == r;
    } else {
      assert name[0] in name;
      assert (name + r)[1..] == name[1..] + r;
      NotNamed(name[1..], r);
    }
  }

  ghost predicate PlainChars(s: string) {
    forall c :: c in s ==> Clean(c) && c != '&' && !IsSpace(c) && c < '\U{0080}'
  }

  lemma LowerIsPlain(s: string)
    requires forall c :: c in s ==> c == '<' || c == '_' || 'a' <= c <= 'z'
    ensures PlainChars(s)
  {
  }

  lemma TagIsLower()
    ensures forall c :: c in TAG + "x" ==> c == '<' || c == '_' || 'a' <= c <= 'z'
  {
  }

  lemma NameIsLower()
    ensures FENCE_NAME[0] == 'c' && '<' !in FENCE_NAME && forall c :: c in FENCE_NAME ==> Lower(c) == c
  {
  }

  lemma LongerWordAlone(name: string)
    requires name != "" && name[0] == 'c' && '<' !in name && forall c :: c in name ==> Lower(c) == c
    requires name == FENCE_NAME
    ensures !HasFence("<" + (name + "x"))
  {
    var s := name + "x";
    assert ("<" + s)[1..] == s;
    assert SkipSlash(SkipWs(s)) == s;
    NotNamed(name, "x");
    NoBracketNoFence(s);
  }

  lemma TagSplits()
    ensures TAG + "x" == "<" + (FENCE_NAME + "x") && TAG + "x" != "" && |TAG| == 15
  {
  }

  lemma WordHasNoFence()
    ensures !HasFence(TAG + "x")
  {
    NameIsLower();
    TagSplits();
    LongerWordAlone(FENCE_NAME);
  }

  /** A tag, and what makes an ordinary word of it. */
  ghost predicate TagInWord(tag: string, r: string) {
    HasFence(tag) && !HasFence(tag + r) && tag + r != "" && PlainChars(tag + r)
  }

  lemma TagIsInWord()
    ensures TagInWord(TAG, "x") && |TAG| == 15
  {
    TagAlone();
    WordHasNoFence();
    TagIsLower();
    TagSplits();
    LowerIsPlain(TAG + "x");
  }

  lemma OrdinaryWithFiller(other: OtherPasses, n: nat, s: string)
    requires !HasFence(s) && s != "" && PlainChars(s)
    requires (other.strip)(Filler(n) + s) == Filler(n) + s && !(other.matches)(Filler(n) + s)
    ensures Ordinary(other, Filler(n) + s)
  {
    FillerIsPlain(n);
    FillerBefore(n, s);
    var t := Filler(n) + s;
    forall c | c in t ensures Clean(c) && c != '&' && !IsSpace(c) { assert c in Filler(n) || c in s; }
    NoAmpersandNoEntity(t);
    assert forall i :: 0 <= i < |t| ==> t[i] in t;
  }

  lemma FillerFits(n: nat, s: string, r: string)
    requires PlainChars(s + r)
    ensures HeadText(Filler(n) + (s + r), n + |s|) == Filler(n) + s
  {
    FillerIsPlain(n);
    var t := Filler(n) + (s + r);
    forall c | c in t ensures c < '\U{0080}' { assert c in Filler(n) || c in s + r; }
    AsciiFits(t, n + |s|);
    assert t[..n + |s|] == Filler(n) + s;
  }

  lemma CutLeavesTag(n: nat, tag: string, r: string)
    requires TagInWord(tag, r)
    ensures HasFence(HeadText(Filler(n) + (tag + r), n + |tag|))
  {
    FillerFits(n, tag, r);
    FillerBefore(n, tag);
  }

  /** At every limit from 15 there is ordinary text, so unchanged by neutralize, that
      truncation makes a tag of: filler, a tag's name, and a letter more. */
  lemma TruncationLeavesTag(other: OtherPasses, n: nat, tag: string, r: string)
    requires TagInWord(tag, r)
    requires var t := Filler(n) + (tag + r); (other.strip)(t) == t && !(other.matches)(t)
    ensures Ordinary(other, Filler(n) + (tag + r)) && HasFence(HeadText(Filler(n) + (tag + r), n + |tag|))
  {
    OrdinaryWithFiller(other, n, tag + r);
    CutLeavesTag(n, tag, r);
  }
}
