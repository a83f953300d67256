/** Disguised tags.  Whatever characters of a text are spelled as, neutralize takes them for what
    they show, and a tag it sees is cut out up to its first closing bracket and no further. */
module Disguises {
  import opened Whitespace
  import opened Neutralize
  import opened TruncatedTags
  import opened EntityDisguise
  import opened FenceTags

  // What a text shows

  /** The text without the characters that show nothing. */
  function Visible(s: string): string {
    if s == "" then ""
    else if s[0] == '\U{200b}' || s[0] == '\U{200c}' || s[0] == '\U{200d}' || s[0] == '\U{feff}' then Visible(s[1..])
    else [s[0]] + Visible(s[1..])
  }

  /** Shown as a space: the other Unicode spaces and the control characters. */
  predicate LikeSpace(c: char) {
    || c <= ' ' || '\U{007f}' == c || c == '\U{0085}' || c == '\U{00a0}' || c == '\U{1680}'
    || '\U{2000}' <= c <= '\U{200a}' || c == '\U{2028}' || c == '\U{2029}' || c == '\U{202f}' || c == '\U{205f}'
    || c == '\U{3000}'
  }

  /** `piece` is a spelling of `c`. */
  predicate Spells(piece: string, c: char) {
    var v := Visible(piece);
    || v == [c]
    || (c == '<' && (v == "\U{ff1c}" || v == "&lt;"))
    || (c == '>' && (v == "\U{ff1e}" || v == "&gt;"))
    || (c == ' ' && |v| == 1 && LikeSpace(v[0]))
  }

  function Joined(pieces: seq<string>): string {
    if pieces == [] then "" else pieces[0] + Joined(pieces[1..])
  }

  ghost predicate Disguise(pieces: seq<string>, s: string) {
    |pieces| == |s| && forall i :: 0 <= i < |s| ==> Spells(pieces[i], s[i])
  }

  lemma {:induction false} UndisguiseJoins(a: string, b: string)
    ensures Undisguise(a + b) == Undisguise(Visible(a)) + Undisguise(b)
  {
    if a == "" {
      assert a + b == b;
    } else {
      assert (a + b)[0] == a[0] && (a + b)[1..] == a[1..] + b;
      UndisguiseJoins(a[1..], b);
      if !IsZeroWidth(a[0]) {
        assert Visible(a)[0] == a[0] && Visible(a)[1..] == Visible(a[1..]);
      }
    }
  }

  lemma UndisguisedChar(v: string, c: char)
    requires Clean(c) && c != '&' && Spells(v, c) && Visible(v) == v && |v| == 1
    ensures |Undisguise(v)| == 1 && Undisguise(v)[0] != '&'
    ensures Undisguise(v)[0] == c || (c == ' ' && IsControl(Undisguise(v)[0]))
  {
    assert v[1..] == "" && Visible(v[1..]) == "";
    assert !IsZeroWidth(v[0]);
    assert Undisguise(v) == [Undisguise(v)[0]] + Undisguise(v[1..]);
  }

  lemma DecodedChar(v: string, c: char, t: string)
    requires Clean(c) && c != '&' && Spells(v, c) && Visible(v) == v
    ensures DropControls(Entities(Undisguise(v) + t)) == [c] + DropControls(Entities(t))
  {
    if |v| == 1 {
      var u := Undisguise(v);
      UndisguisedChar(v, c);
      assert (u + t)[1..] == t;
      EntityDecodes(u + t);
      assert Entities(u + t) == [u[0]] + Entities(t);
    } else {
      assert v == "&lt;" || v == "&gt;";
      EntityStays(v);
      assert (v + t)[4..] == t;
      EntityDecodes(v + t);
      assert Entities(v + t) == [c] + Entities(t);
    }
  }

  lemma EntityStays(v: string)
    requires v == "&lt;" || v == "&gt;"
    ensures Undisguise(v) == v
  {
    assert forall c :: c in v ==> c == '&' || c == 'l' || c == 'g' || c == 't' || c == ';';
    UndisguiseKeeps(v);
  }

  lemma {:induction false} VisibleIsVisible(s: string)
    ensures Visible(Visible(s)) == Visible(s)
  {
    if s != "" { VisibleIsVisible(s[1..]); }
  }

  /** Disguises make no difference: what the passes work on is the text that is shown. */
  lemma {:induction false} DisguiseIsSeen(pieces: seq<string>, s: string)
    requires Disguise(pieces, s) && forall c :: c in s ==> Clean(c) && c != '&'
    ensures Decoded(Joined(pieces)) == s
  {
    if s != "" {
      assert s[0] in s && s == [s[0]] + s[1..];
      DisguiseIsSeen(pieces[1..], s[1..]);
      UndisguiseJoins(pieces[0], Joined(pieces[1..]));
      VisibleIsVisible(pieces[0]);
      DecodedChar(Visible(pieces[0]), s[0], Undisguise(Joined(pieces[1..])));
    }
  }

  // What is cut out for a tag

  lemma {:induction false} AfterFirstClose(attrs: string, q: string)
    requires '>' !in attrs
    ensures AfterClose(attrs + ">" + q) == q && '>' in attrs + ">" + q
  {
    var s := attrs + ">" + q;
    if attrs == "" {
      assert s == ">" + q;
    } else {
      assert attrs[0] in attrs && s[0] == attrs[0] && s[1..] == attrs[1..] + ">" + q;
      AfterFirstClose(attrs[1..], q);
    }
    assert s[|attrs|] == '>';
  }

  lemma NothingElse(s: string)
    requires '<' !in s
    ensures StripClosed(s) == s && StripBare(s) == s
  {
    NoBracketNoFence(s);
    StripsKeep(s);
  }

  /** A tag with its attributes goes up to the first closing bracket, and the rest stays. */
  lemma ClosedCutOut(p: string, s: string, blanks: string, slash: string, name: string, attrs: string, q: string)
    requires TagParts(s, blanks, slash, name, attrs + ">" + q) && '>' !in attrs
    requires '<' !in p && '<' !in q
    ensures StripBare(StripClosed(p + s)) == p + q
  {
    PartsAreTag(s, blanks, slash, name, attrs + ">" + q);
    AfterFirstClose(attrs, q);
    StripClosedBefore(p, s);
    NothingElse(q);
    NothingElse(p + q);
  }

  lemma {:induction false} StripBareBefore(p: string, s: string)
    requires '<' !in p
    ensures StripBare(p + s) == p + StripBare(s)
  {
    if p == "" {
      assert p + s == s;
    } else {
      assert (p + s)[1..] == p[1..] + s && (p + s)[0] == p[0] && p[0] in p;
      StripBareBefore(p[1..], s);
      assert p + StripBare(s) == [p[0]] + (p[1..] + StripBare(s));
    }
  }

  lemma {:induction false} NoCloseNoStrip(s: string)
    requires '>' !in s
    ensures StripClosed(s) == s
  {
    if s != "" {
      if Bare(s) { SubChars(s); }
      NoCloseNoStrip(s[1..]);
      assert s == [s[0]] + s[1..];
    }
  }

  lemma TagHasNoClose(s: string, blanks: string, slash: string, name: string, q: string)
    requires TagParts(s, blanks, slash, name, q) && '>' !in q
    ensures '>' !in s
  {
    assert forall c :: c in blanks ==> c != '>';
    assert slash != "" ==> slash == [slash[0]] + slash[1..];
    NameIsName(name);
    forall i | 0 <= i < 14 ensures name[i] != '>' { NameLetters(name, i); }
  }

  /** Without a closing bracket a tag goes up to its name, and the rest stays. */
  lemma OpenCutOut(p: string, s: string, blanks: string, slash: string, name: string, q: string)
    requires TagParts(s, blanks, slash, name, q)
    requires '<' !in p && '<' !in q && '>' !in q
    ensures StripBare(StripClosed(p + s)) == p + q
  {
    PartsAreTag(s, blanks, slash, name, q);
    TagHasNoClose(s, blanks, slash, name, q);
    StripClosedBefore(p, s);
    NoCloseNoStrip(s);
    StripBareBefore(p, s);
    NothingElse(q);
  }

  // The rounds

  /** `n` rounds, whether they change anything or not. */
  function Rounds(other: OtherPasses, s: string, n: nat): string
    decreases n
  {
    if n == 0 then s else Rounds(other, Pass(other, s), n - 1)
  }

  lemma {:induction false} FixedStays(other: OtherPasses, s: string, n: nat)
    requires Pass(other, s) == s
    ensures Rounds(other, s, n) == s
  {
    if n > 0 { FixedStays(other, s, n - 1); }
  }

  lemma {:induction false} PassesAreRounds(other: OtherPasses, s: string, n: nat)
    ensures Passes(other, s, n) == Rounds(other, s, n)
    decreases n
  {
    if Pass(other, s) == s {
      FixedStays(other, s, n);
    } else if n > 0 {
      PassesAreRounds(other, Pass(other, s), n - 1);
    }
  }

  /** The loop makes sixteen rounds, and what is left then keeps its brackets exactly if neither
      a fence nor one of the other patterns is in it. */
  lemma SixteenRounds(other: OtherPasses, text: string)
    ensures var s := Rounds(other, Decoded(text), 16);
      exists t :: Neutralized(other, text) == TrimSpace(Collapse(t)) && |t| == |s| && (forall i :: 0 <= i < |s| ==>
        t[i] == if (HasFence(s) || (other.matches)(s)) && (s[i] == '<' || s[i] == '>') then ' ' else s[i])
  {
    PassesAreRounds(other, Decoded(text), 16);
    var s := Rounds(other, Decoded(text), 16);
    var t := Backstop(other, s);
    BracketsAt(s);
    assert Neutralized(other, text) == TrimSpace(Collapse(t));
  }

  // Together

  /** The parts of a text with one tag in it, closed or not. */
  ghost predicate OneTag(s: string, blanks: string, slash: string, name: string, attrs: string, q: string) {
    || (TagParts(s, blanks, slash, name, attrs + ">" + q) && '>' !in attrs)
    || (TagParts(s, blanks, slash, name, q) && '>' !in q)
  }

  /** A tag, opening or closing, with any attributes or without its closing bracket, spelled in
      any disguise, is cut out of the text, and everything around it stays. */
  lemma DisguisedTagCutOut(other: OtherPasses, pieces: seq<string>, p: string, s: string,
    blanks: string, slash: string, name: string, attrs: string, q: string)
    requires Halves(other, p, q) && OneTag(s, blanks, slash, name, attrs, q)
    requires Disguise(pieces, p + s) && forall c :: c in p + s ==> Clean(c) && c != '&'
    ensures Neutralized(other, Joined(pieces)) == p + q
  {
    DisguiseIsSeen(pieces, p + s);
    assert '<' !in p && '<' !in q && '<' !in p + q by {
      assert forall c :: c in p ==> c in p + q;
      assert forall c :: c in q ==> c in p + q;
    }
    CutOutOnce(p, s, blanks, slash, name, attrs, q);
    CutOutIsFinal(other, p + s, p + q);
    RestStays(other, p, q);
  }

  lemma CutOutIsFinal(other: OtherPasses, s: string, r: string)
    requires StripBare(StripClosed(s)) == r && '<' !in r && (other.strip)(r) == r
    ensures Passes(other, s, MAX_PASSES) == r
  {
    NothingElse(r);
    assert Pass(other, s) == r == Pass(other, r);
    assert Passes(other, r, MAX_PASSES - 1) == r;
  }

  lemma RestStays(other: OtherPasses, p: string, q: string)
    requires Halves(other, p, q)
    ensures TrimSpace(Collapse(Backstop(other, p + q))) == p + q
  {
    assert '<' !in p + q;
    NoBracketNoFence(p + q);
    SingleStays(p + q);
    TrimSpaceFixed(p + q);
  }

  lemma CutOutOnce(p: string, s: string, blanks: string, slash: string, name: string, attrs: string, q: string)
    requires OneTag(s, blanks, slash, name, attrs, q) && '<' !in p && '<' !in q
    ensures StripBare(StripClosed(p + s)) == p + q && |s| > |q|
  {
    if TagParts(s, blanks, slash, name, attrs + ">" + q) && '>' !in attrs {
      ClosedCutOut(p, s, blanks, slash, name, attrs, q);
    } else {
      OpenCutOut(p, s, blanks, slash, name, q);
    }
  }

  // What is shown of the result

  /** Not invisible, no full-width bracket, and a space if it looks like one. */
  predicate Shown(c: char) {
    && c != '\U{200b}' && c != '\U{200c}' && c != '\U{200d}' && c != '\U{feff}'
    && c != '\U{ff1c}' && c != '\U{ff1e}' && (LikeSpace(c) ==> c == ' ')
  }

  lemma CleanIsShown(c: char)
    requires Clean(c)
    ensures Shown(c)
  {
  }

  lemma ResultIsShown(other: OtherPasses, text: string)
    requires Deletes(other.strip)
    ensures forall c :: c in Neutralized(other, text) ==> Shown(c)
  {
    NeutralizedIsSafe(other, text);
    forall c | c in Neutralized(other, text) ensures Shown(c) { CleanIsShown(c); }
  }
}
