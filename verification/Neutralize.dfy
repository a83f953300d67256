/** neutralize of plugin/memory.go: recalled text is stripped of anything that could close
    or reopen the memory fence of the prompt it is injected into. */
module Neutralize {
  import opened Whitespace

  // The fence patterns.  Matching is followed on the rest of the text from a position on.

  const FENCE_NAME := "cortext_memory"

  /** Regexp \s. */
  predicate IsWs(c: char) { c == '\t' || c == '\n' || c == '\U{000c}' || c == '\r' || c == ' ' }

  predicate IsWord(c: char) { '0' <= c <= '9' || 'A' <= c <= 'Z' || 'a' <= c <= 'z' || c == '_' }

  function Lower(c: char): char { if 'A' <= c <= 'Z' then (c as int + 32) as char else c }

  function SkipWs(s: string): string {
    if s != "" && IsWs(s[0]) then SkipWs(s[1..]) else s
  }

  function SkipSlash(s: string): string {
    if s != "" && s[0] == '/' then SkipWs(s[1..]) else s
  }

  /** `s` begins with `name`, in any case, ending at a word boundary. */
  predicate NamesWord(s: string, name: string) {
    if name == "" then s == "" || !IsWord(s[0])
    else s != "" && Lower(s[0]) == name[0] && NamesWord(s[1..], name[1..])
  }

  /** A fence tag, opening or closing, begins `s`: `<\s*`, `/?\s*`, the name, a boundary. */
  predicate Bare(s: string) {
    s != "" && s[0] == '<' && NamesWord(SkipSlash(SkipWs(s[1..])), FENCE_NAME)
  }

  function AfterBare(s: string): string
    requires Bare(s)
  {
    var t := SkipSlash(SkipWs(s[1..]));
    if |t| >= |FENCE_NAME| then t[|FENCE_NAME|..] else ""
  }

  function AfterClose(s: string): string {
    if s == "" then "" else if s[0] == '>' then s[1..] else AfterClose(s[1..])
  }

  predicate Closed(s: string) { Bare(s) && '>' in AfterBare(s) }

  lemma {:induction false} SkipWsShortens(s: string)
    ensures |SkipWs(s)| <= |s| && SkipWs(s) == s[|s| - |SkipWs(s)|..]
  {
    if s != "" && IsWs(s[0]) { SkipWsShortens(s[1..]); }
  }

  lemma {:induction false} AfterCloseShortens(s: string)
    ensures |AfterClose(s)| <= |s|
  {
    if s != "" { AfterCloseShortens(s[1..]); }
  }

  lemma AfterBareShortens(s: string)
    requires Bare(s)
    ensures |AfterBare(s)| < |s|
  {
    SkipWsShortens(s[1..]);
    var t := SkipWs(s[1..]);
    if t != "" { SkipWsShortens(t[1..]); }
  }

  /** reFence.ReplaceAllString(s, ""). */
  function StripClosed(s: string): string
    decreases |s|
  {
    if s == "" then ""
    else if Closed(s) then
      AfterBareShortens(s);
      AfterCloseShortens(AfterBare(s));
      StripClosed(AfterClose(AfterBare(s)))
    else [s[0]] + StripClosed(s[1..])
  }

  /** reFenceBare.ReplaceAllString(s, ""). */
  function StripBare(s: string): string
    decreases |s|
  {
    if s == "" then ""
    else if Bare(s) then
      AfterBareShortens(s);
      StripBare(AfterBare(s))
    else [s[0]] + StripBare(s[1..])
  }

  predicate HasFence(s: string) {
    s != "" && (Bare(s) || HasFence(s[1..]))
  }

  /** What the role-marker and system-fence passes are taken to be: they only delete, and
      `matches` is their test in the backstop. */
  datatype OtherPasses = OtherPasses(strip: string -> string, matches: string -> bool)

  ghost predicate Deletes(strip: string -> string) {
    forall s :: |strip(s)| <= |s| && (|strip(s)| == |s| ==> strip(s) == s) && forall c :: c in strip(s) ==> c in s
  }

  function Pass(other: OtherPasses, s: string): string {
    (other.strip)(StripBare(StripClosed(s)))
  }

  const MAX_PASSES := 16

  function Passes(other: OtherPasses, s: string, n: nat): string
    decreases n
  {
    if n == 0 then s
    else
      var next := Pass(other, s);
      if next == s then s else Passes(other, next, n - 1)
  }

  function DropBrackets(s: string): string {
    if s == "" then "" else [if s[0] == '<' || s[0] == '>' then ' ' else s[0]] + DropBrackets(s[1..])
  }

  function Backstop(other: OtherPasses, s: string): string {
    if HasFence(s) || (other.matches)(s) then DropBrackets(s) else s
  }

  // Disguises

  predicate IsZeroWidth(c: char) {
    c == '\U{200b}' || c == '\U{200c}' || c == '\U{200d}' || c == '\U{feff}'
  }

  function Undisguise(s: string): string {
    if s == "" then ""
    else if IsZeroWidth(s[0]) then Undisguise(s[1..])
    else
      [if s[0] == '\U{ff1c}' then '<' else if s[0] == '\U{ff1e}' then '>' else if IsSpace(s[0]) then ' ' else s[0]]
      + Undisguise(s[1..])
  }

  function Entities(s: string): string
    decreases |s|
  {
    if s == "" then ""
    else if |s| >= 4 && s[..4] == "&lt;" then "<" + Entities(s[4..])
    else if |s| >= 4 && s[..4] == "&gt;" then ">" + Entities(s[4..])
    else [s[0]] + Entities(s[1..])
  }

  /** An angle bracket spelled as an HTML entity begins `s`. */
  predicate IsEntity(s: string) {
    |s| >= 4 && s[0] == '&' && (s[1] == 'l' || s[1] == 'g') && s[2] == 't' && s[3] == ';'
  }

  predicate HasEntity(s: string) {
    s != "" && (IsEntity(s) || HasEntity(s[1..]))
  }

  predicate IsControl(c: char) { c <= '\U{001f}' || c == '\U{007f}' }

  function DropControls(s: string): string {
    if s == "" then "" else [if IsControl(s[0]) then ' ' else s[0]] + DropControls(s[1..])
  }

  function Neutralized(other: OtherPasses, text: string): string {
    TrimSpace(Collapse(Backstop(other, Passes(other, DropControls(Entities(Undisguise(text))), MAX_PASSES))))
  }

  /** The loop of the source, with its cap and its early exit. */
  method Neutralize(other: OtherPasses, text: string) returns (r: string)
    ensures r == Neutralized(other, text)
  {
    var s := DropControls(Entities(Undisguise(text)));
    ghost var start := s;
    var i := 0;
    while i < MAX_PASSES
      invariant 0 <= i <= MAX_PASSES
      invariant Passes(other, s, MAX_PASSES - i) == Passes(other, start, MAX_PASSES)
    {
      var next := (other.strip)(StripBare(StripClosed(s)));
      if next == s { break; }
      s := next;
      i := i + 1;
    }
    assert s == Passes(other, start, MAX_PASSES);
    r := TrimSpace(Collapse(Backstop(other, s)));
  }

  // No pass leaves a fence behind

  lemma {:induction false} StripClosedDeletes(s: string)
    ensures |StripClosed(s)| <= |s| && (|StripClosed(s)| == |s| ==> StripClosed(s) == s)
    ensures forall c :: c in StripClosed(s) ==> c in s
    decreases |s|
  {
    if s != "" {
      if Closed(s) {
        AfterBareShortens(s);
        AfterCloseShortens(AfterBare(s));
        StripClosedDeletes(AfterClose(AfterBare(s)));
        SubChars(s);
      } else {
        StripClosedDeletes(s[1..]);
        assert s == [s[0]] + s[1..];
      }
    }
  }

  lemma SubChars(s: string)
    requires Bare(s)
    ensures forall c :: c in AfterClose(AfterBare(s)) ==> c in s
    ensures forall c :: c in AfterBare(s) ==> c in s
  {
    SkipWsShortens(s[1..]);
    var t := SkipWs(s[1..]);
    if t != "" { SkipWsShortens(t[1..]); }
    AfterCloseChars(AfterBare(s));
  }

  lemma {:induction false} AfterCloseChars(s: string)
    ensures forall c :: c in AfterClose(s) ==> c in s
  {
    if s != "" { AfterCloseChars(s[1..]); }
  }

  lemma {:induction false} StripBareDeletes(s: string)
    ensures |StripBare(s)| <= |s| && (|StripBare(s)| == |s| ==> StripBare(s) == s && !HasFence(s))
    ensures forall c :: c in StripBare(s) ==> c in s
    decreases |s|
  {
    if s != "" {
      if Bare(s) {
        AfterBareShortens(s);
        StripBareDeletes(AfterBare(s));
        SubChars(s);
      } else {
        StripBareDeletes(s[1..]);
        assert s == [s[0]] + s[1..];
      }
    }
  }

  lemma PassDeletes(other: OtherPasses, s: string)
    requires Deletes(other.strip)
    ensures forall c :: c in Pass(other, s) ==> c in s
    ensures |Pass(other, s)| <= |s| && (Pass(other, s) == s ==> !HasFence(s))
  {
    StripClosedDeletes(s);
    StripBareDeletes(StripClosed(s));
  }

  lemma {:induction false} PassesDelete(other: OtherPasses, s: string, n: nat)
    requires Deletes(other.strip)
    ensures forall c :: c in Passes(other, s, n) ==> c in s
    decreases n
  {
    if n > 0 {
      PassDeletes(other, s);
      PassesDelete(other, Pass(other, s), n - 1);
    }
  }

  lemma {:induction false} NoBracketNoFence(s: string)
    requires '<' !in s
    ensures !HasFence(s)
  {
    if s != "" { NoBracketNoFence(s[1..]); }
  }

  lemma {:induction false} DropBracketsDrops(s: string)
    ensures '<' !in DropBrackets(s) && forall c :: c in DropBrackets(s) ==> c in s || c == ' '
  {
    if s != "" { DropBracketsDrops(s[1..]); }
  }

  /** Whatever the passes did in their 16 rounds, the backstop leaves no fence. */
  lemma BackstopSuffices(other: OtherPasses, s: string)
    ensures !HasFence(Backstop(other, s))
    ensures forall c :: c in Backstop(other, s) ==> c in s || c == ' '
  {
    DropBracketsDrops(s);
    if HasFence(s) || (other.matches)(s) { NoBracketNoFence(DropBrackets(s)); }
  }

  // Neither the space collapse nor the trim brings one back

  lemma {:induction false} SkipWsAbsorbsBlanks(s: string)
    ensures SkipWs(SkipBlanks(s)) == SkipWs(s)
  {
    if s != "" && IsBlank(s[0]) { SkipWsAbsorbsBlanks(s[1..]); }
  }

  lemma {:induction false} CollapseSkip(s: string)
    ensures SkipWs(Collapse(s)) == Collapse(SkipWs(s))
    decreases |s|
  {
    if |s| >= 2 && IsBlank(s[0]) && IsBlank(s[1]) {
      SkipShortens(s);
      CollapseSkip(SkipBlanks(s));
      SkipWsAbsorbsBlanks(s);
      assert Collapse(s)[1..] == Collapse(SkipBlanks(s));
    } else if s != "" {
      assert Collapse(s)[1..] == Collapse(s[1..]);
      if IsWs(s[0]) { CollapseSkip(s[1..]); }
    }
  }

  lemma CollapseSlash(s: string)
    ensures SkipSlash(Collapse(s)) == Collapse(SkipSlash(s))
  {
    if s != "" && s[0] == '/' {
      assert Collapse(s)[1..] == Collapse(s[1..]);
      CollapseSkip(s[1..]);
    } else if s != "" {
      assert Collapse(s)[0] == s[0] || Collapse(s)[0] == ' ';
    }
  }

  lemma {:induction false} CollapseNames(s: string, name: string)
    requires NamesWord(Collapse(s), name) && NoBlanks(name)
    ensures NamesWord(s, name)
    decreases |name|
  {
    if name != "" {
      assert !IsBlank(Collapse(s)[0]) && Collapse(s)[0] == s[0];
      assert Collapse(s)[1..] == Collapse(s[1..]);
      CollapseNames(s[1..], name[1..]);
    }
  }

  ghost predicate NoBlanks(name: string) { forall i :: 0 <= i < |name| ==> !IsBlank(name[i]) }

  lemma FenceNameHasNoBlanks()
    ensures NoBlanks(FENCE_NAME) && FENCE_NAME != ""
  {
  }

  lemma CollapseTagBody(s: string, name: string)
    requires NoBlanks(name) && NamesWord(SkipSlash(SkipWs(Collapse(s))), name)
    ensures NamesWord(SkipSlash(SkipWs(s)), name)
  {
    CollapseSkip(s);
    CollapseSlash(SkipWs(s));
    CollapseNames(SkipSlash(SkipWs(s)), name);
  }

  lemma CollapseBare(s: string)
    requires s != "" && !(|s| >= 2 && IsBlank(s[0]) && IsBlank(s[1])) && Bare(Collapse(s))
    ensures Bare(s)
  {
    assert Collapse(s)[1..] == Collapse(s[1..]);
    FenceNameHasNoBlanks();
    CollapseTagBody(s[1..], FENCE_NAME);
  }

  lemma {:induction false} SuffixFence(s: string, i: nat)
    requires i <= |s| && HasFence(s[i..])
    ensures HasFence(s)
  {
    if i > 0 {
      assert s[1..][i - 1..] == s[i..];
      SuffixFence(s[1..], i - 1);
    } else {
      assert s[0..] == s;
    }
  }

  lemma {:induction false} CollapseKeepsFenceOut(s: string)
    requires HasFence(Collapse(s))
    ensures HasFence(s)
    decreases |s|
  {
    if |s| >= 2 && IsBlank(s[0]) && IsBlank(s[1]) {
      SkipShortens(s);
      SkipIsSuffix(s);
      assert Collapse(s)[1..] == Collapse(SkipBlanks(s));
      CollapseKeepsFenceOut(SkipBlanks(s));
      SuffixFence(s, |s| - |SkipBlanks(s)|);
    } else if Bare(Collapse(s)) {
      CollapseBare(s);
    } else {
      assert Collapse(s)[1..] == Collapse(s[1..]);
      CollapseKeepsFenceOut(s[1..]);
    }
  }

  lemma {:induction false} NamesExtend(s: string, name: string, r: string)
    requires NamesWord(s, name) && (|s| > |name| || r == "" || !IsWord(r[0]))
    ensures NamesWord(s + r, name) && |s| >= |name|
  {
    if name != "" {
      NamesExtend(s[1..], name[1..], r);
      assert (s + r)[1..] == s[1..] + r;
    } else if s == "" {
      assert s + r == r;
    }
  }

  lemma {:induction false} SkipExtend(s: string, r: string)
    requires SkipWs(s) != ""
    ensures SkipWs(s + r) == SkipWs(s) + r
  {
    if IsWs(s[0]) {
      SkipExtend(s[1..], r);
      assert (s + r)[1..] == s[1..] + r;
    }
  }

  lemma SlashExtend(t: string, r: string)
    requires t != "" && SkipSlash(t) != ""
    ensures SkipSlash(t + r) == SkipSlash(t) + r
  {
    if t[0] == '/' {
      SkipExtend(t[1..], r);
      assert (t + r)[1..] == t[1..] + r;
    }
  }

  /** A tag stays a tag when text follows it, unless that text continues its name. */
  lemma BareExtend(s: string, r: string)
    requires Bare(s) && (AfterBare(s) != "" || r == "" || !IsWord(r[0]))
    ensures Bare(s + r)
  {
    var t := SkipWs(s[1..]);
    assert SkipSlash(t) != "" && t != "";
    assert (s + r)[1..] == s[1..] + r;
    SkipExtend(s[1..], r);
    SlashExtend(t, r);
    NamesExtend(SkipSlash(t), FENCE_NAME, r);
  }

  lemma {:induction false} FenceExtend(s: string, c: char)
    requires HasFence(s) && !IsWord(c)
    ensures HasFence(s + [c])
  {
    if Bare(s) {
      BareExtend(s, [c]);
    } else {
      FenceExtend(s[1..], c);
      assert (s + [c])[1..] == s[1..] + [c];
    }
  }

  lemma {:induction false} TrimRightKeepsFenceOut(s: string)
    requires HasFence(TrimRight(s))
    ensures HasFence(s)
    decreases |s|
  {
    if s != "" && IsSpace(s[|s| - 1]) {
      TrimRightKeepsFenceOut(s[..|s| - 1]);
      FenceExtend(s[..|s| - 1], s[|s| - 1]);
      assert s[..|s| - 1] + [s[|s| - 1]] == s;
    }
  }

  lemma TrimKeepsFenceOut(s: string)
    requires HasFence(TrimSpace(s))
    ensures HasFence(s)
  {
    TrimRightKeepsFenceOut(TrimLeft(s));
    TrimLeftDrops(s);
    SuffixFence(s, |s| - |TrimLeft(s)|);
  }

  // The characters that are left

  /** Not one of the characters that disguise a tag, not a control character, and no
      whitespace but the space. */
  predicate Clean(c: char) {
    && !IsZeroWidth(c) && c != '\U{ff1c}' && c != '\U{ff1e}' && !IsControl(c)
    && (IsSpace(c) ==> c == ' ')
  }

  predicate Plain(c: char) {
    !IsZeroWidth(c) && c != '\U{ff1c}' && c != '\U{ff1e}' && (IsSpace(c) ==> c == ' ')
  }

  lemma {:induction false} UndisguisePlain(s: string)
    ensures forall c :: c in Undisguise(s) ==> Plain(c)
  {
    if s != "" { UndisguisePlain(s[1..]); }
  }

  lemma {:induction false} EntitiesPlain(s: string)
    requires forall c :: c in s ==> Plain(c)
    ensures forall c :: c in Entities(s) ==> Plain(c)
    decreases |s|
  {
    if s != "" {
      if |s| >= 4 && (s[..4] == "&lt;" || s[..4] == "&gt;") { EntitiesPlain(s[4..]); } else { EntitiesPlain(s[1..]); }
    }
  }

  lemma {:induction false} ControlsClean(s: string)
    requires forall c :: c in s ==> Plain(c)
    ensures forall c :: c in DropControls(s) ==> Clean(c)
  {
    if s != "" {
      assert Plain(s[0]);
      ControlsClean(s[1..]);
      forall c | c in DropControls(s) ensures Clean(c) {
        assert c == DropControls(s)[0] || c in DropControls(s[1..]);
      }
    }
  }

  /** For every text, however deeply tags are nested or disguised, the result has no fence
      tag in any case or spacing, no zero-width character or full-width bracket, no control
      character or line break, no double space and no edge whitespace.  An entity that a
      deletion put together can be left: EntityDisguise says when. */
  lemma NeutralizedIsSafe(other: OtherPasses, text: string)
    requires Deletes(other.strip)
    ensures !HasFence(Neutralized(other, text))
    ensures forall c :: c in Neutralized(other, text) ==> Clean(c)
    ensures Single(Neutralized(other, text)) && !EdgeSpace(Neutralized(other, text))
  {
    var start := DropControls(Entities(Undisguise(text)));
    UndisguisePlain(text);
    EntitiesPlain(Undisguise(text));
    ControlsClean(Entities(Undisguise(text)));
    PassesDelete(other, start, MAX_PASSES);
    var s := Backstop(other, Passes(other, start, MAX_PASSES));
    BackstopSuffices(other, Passes(other, start, MAX_PASSES));
    var t := Collapse(s);
    CollapseIsSingle(s);
    if HasFence(t) { CollapseKeepsFenceOut(s); }
    if HasFence(TrimSpace(t)) { TrimKeepsFenceOut(t); }
    var left, right := TrimSpaceCuts(t);
    TrimmedSingle(t, left, right);
  }

  lemma TrimmedSingle(t: string, left: string, right: string)
    requires t == left + TrimSpace(t) + right && Single(t)
    ensures Single(TrimSpace(t)) && forall c :: c in TrimSpace(t) ==> c in t
  {
    var r := TrimSpace(t);
    forall i | 0 <= i < |r| - 1 ensures !(IsBlank(r[i]) && IsBlank(r[i + 1])) {
      assert t[|left| + i] == r[i] && t[|left| + i + 1] == r[i + 1];
    }
  }
}
