/** What neutralize takes for a fence tag, said without the scanner: the pattern of
    plugin/memory.go as a text of parts. */
module FenceTags {
  import opened Neutralize

  predicate Blank(s: string) { forall c :: c in s ==> c in " \t\n\U{000c}\r" }

  /** The name of the fence, in any mixture of cases. */
  predicate SameName(s: string) {
    |s| == 14 && forall i :: 0 <= i < 14 ==>
      s[i] == "cortext_memory"[i] || s[i] == "CORTEXT_MEMORY"[i]
  }

  predicate WordChar(c: char) { 'a' <= c <= 'z' || 'A' <= c <= 'Z' || '0' <= c <= '9' || c == '_' }

  /** The parts of a tag and what follows it: a bracket, blanks, perhaps a slash and blanks, the
      name, and no character that would make the name a longer word. */
  ghost predicate TagParts(s: string, blanks: string, slash: string, name: string, rest: string) {
    && s == "<" + blanks + slash + name + rest
    && Blank(blanks) && (slash == "" || (slash[0] == '/' && Blank(slash[1..])))
    && SameName(name) && (rest == "" || !WordChar(rest[0]))
  }

  // From the parts to the scanner

  lemma {:induction false} SkipBlanksOf(blanks: string, s: string)
    requires Blank(blanks) && (s == "" || !IsWs(s[0]))
    ensures SkipWs(blanks + s) == s
  {
    if blanks == "" {
      assert blanks + s == s;
    } else {
      assert blanks[0] in blanks && (blanks + s)[1..] == blanks[1..] + s;
      SkipBlanksOf(blanks[1..], s);
    }
  }

  lemma {:induction false} NamedBy(part: string, rest: string, name: string)
    requires |part| == |name| && (forall i :: 0 <= i < |name| ==> Lower(part[i]) == name[i])
    requires rest == "" || !IsWord(rest[0])
    ensures NamesWord(part + rest, name)
  {
    if name == "" {
      assert part + rest == rest;
    } else {
      assert (part + rest)[1..] == part[1..] + rest;
      NamedBy(part[1..], rest, name[1..]);
    }
  }

  lemma NameLetters(s: string, i: nat)
    requires i < 14
    ensures s != "" && |s| == 14 && (s[i] == "cortext_memory"[i] || s[i] == "CORTEXT_MEMORY"[i]) ==>
      Lower(s[i]) == FENCE_NAME[i] && !IsWs(s[i]) && s[i] != '/'
    ensures |s| == 14 && Lower(s[i]) == FENCE_NAME[i] ==>
      s[i] == "cortext_memory"[i] || s[i] == "CORTEXT_MEMORY"[i]
    ensures |FENCE_NAME| == 14
  {
  }

  lemma NameIsName(part: string)
    ensures SameName(part) <==>
      |part| == |FENCE_NAME| && forall i :: 0 <= i < |part| ==> Lower(part[i]) == FENCE_NAME[i]
    ensures SameName(part) ==> !IsWs(part[0]) && part[0] != '/'
  {
    NameLetters(part, 0);
    if |part| == 14 {
      forall i | 0 <= i < 14
        ensures Lower(part[i]) == FENCE_NAME[i] <==>
          part[i] == "cortext_memory"[i] || part[i] == "CORTEXT_MEMORY"[i]
      {
        NameLetters(part, i);
      }
    }
  }

  lemma OpeningIsTag(s: string, blanks: string, name: string, rest: string)
    requires TagParts(s, blanks, "", name, rest)
    ensures Bare(s) && AfterBare(s) == rest
  {
    NameIsName(name);
    NamedBy(name, rest, FENCE_NAME);
    var t := name + rest;
    assert t[0] == name[0] && t[|FENCE_NAME|..] == rest;
    assert s[1..] == blanks + t;
    SkipBlanksOf(blanks, t);
  }

  lemma ClosingIsTag(s: string, blanks: string, slash: string, name: string, rest: string)
    requires TagParts(s, blanks, slash, name, rest) && slash != ""
    ensures Bare(s) && AfterBare(s) == rest
  {
    NameIsName(name);
    NamedBy(name, rest, FENCE_NAME);
    var t := name + rest;
    assert t[0] == name[0] && t[|FENCE_NAME|..] == rest;
    assert s[1..] == blanks + (slash + t) && (slash + t)[0] == '/' && (slash + t)[1..] == slash[1..] + t;
    SkipBlanksOf(blanks, slash + t);
    SkipBlanksOf(slash[1..], t);
  }

  lemma PartsAreTag(s: string, blanks: string, slash: string, name: string, rest: string)
    requires TagParts(s, blanks, slash, name, rest)
    ensures Bare(s) && AfterBare(s) == rest
  {
    if slash == "" {
      OpeningIsTag(s, blanks, name, rest);
    } else {
      ClosingIsTag(s, blanks, slash, name, rest);
    }
  }

  // From the scanner to the parts

  lemma {:induction false} SkipWsCuts(s: string) returns (blanks: string)
    ensures Blank(blanks) && s == blanks + SkipWs(s)
  {
    blanks := "";
    if s != "" && IsWs(s[0]) {
      var b := SkipWsCuts(s[1..]);
      blanks := [s[0]] + b;
    }
  }

  lemma {:induction false} NamesCut(s: string, name: string)
    requires NamesWord(s, name)
    ensures |name| <= |s| && (forall i :: 0 <= i < |name| ==> Lower(s[i]) == name[i])
    ensures s[|name|..] == "" || !IsWord(s[|name|])
  {
    if name != "" {
      NamesCut(s[1..], name[1..]);
      assert s[1..][|name| - 1..] == s[|name|..];
      forall i | 0 <= i < |name| ensures Lower(s[i]) == name[i] {
        if i > 0 { assert s[1..][i - 1] == s[i] && name[1..][i - 1] == name[i]; }
      }
    }
  }

  lemma NameAndRest(u: string) returns (name: string, rest: string)
    requires NamesWord(u, FENCE_NAME)
    ensures u == name + rest && SameName(name) && (rest == "" || !WordChar(rest[0]))
  {
    NamesCut(u, FENCE_NAME);
    name, rest := u[..|FENCE_NAME|], u[|FENCE_NAME|..];
    NameIsName(name);
  }

  lemma SlashCuts(t: string) returns (slash: string)
    ensures t == slash + SkipSlash(t) && (slash == "" || (slash[0] == '/' && Blank(slash[1..])))
  {
    slash := "";
    if t != "" && t[0] == '/' {
      var more := SkipWsCuts(t[1..]);
      slash := "/" + more;
      assert slash[1..] == more && t == "/" + t[1..];
    }
  }

  lemma TagHasParts(s: string) returns (blanks: string, slash: string, name: string, rest: string)
    requires Bare(s)
    ensures TagParts(s, blanks, slash, name, rest)
  {
    blanks := SkipWsCuts(s[1..]);
    slash := SlashCuts(SkipWs(s[1..]));
    name, rest := NameAndRest(SkipSlash(SkipWs(s[1..])));
    Assembled(s, blanks, slash, name, rest);
  }

  lemma Assembled(s: string, blanks: string, slash: string, name: string, rest: string)
    requires s != "" && s[0] == '<' && s[1..] == blanks + (slash + (name + rest))
    ensures s == "<" + blanks + slash + name + rest
  {
    assert s == "<" + s[1..];
  }

  /** A tag begins a text exactly if the text has the parts of one. */
  lemma TagExactly(s: string)
    ensures Bare(s) <==> exists blanks, slash, name, rest :: TagParts(s, blanks, slash, name, rest)
  {
    if Bare(s) {
      var blanks, slash, name, rest := TagHasParts(s);
    }
    if blanks, slash, name, rest :| TagParts(s, blanks, slash, name, rest) {
      PartsAreTag(s, blanks, slash, name, rest);
    }
  }

  /** A text has a fence exactly if a tag begins somewhere in it. */
  lemma {:induction false} FenceExactly(s: string)
    ensures HasFence(s) <==> exists i :: 0 <= i < |s| && Bare(s[i..])
  {
    if s != "" {
      FenceExactly(s[1..]);
      if HasFence(s) {
        if Bare(s) {
          assert s[0..] == s;
        } else {
          var i :| 0 <= i < |s[1..]| && Bare(s[1..][i..]);
          assert s[1..][i..] == s[i + 1..];
        }
      }
      if i :| 0 <= i < |s| && Bare(s[i..]) {
        if i == 0 { assert s[0..] == s; } else { assert s[i..] == s[1..][i - 1..]; }
      }
    }
  }
}
