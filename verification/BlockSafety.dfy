/** The memory block put into a prompt has exactly one opening and one closing fence: what
    neutralize removed stays away through truncation, bullets, line joins and dedupeLines. */
module BlockSafety {
  import opened Whitespace
  import opened Lines
  import opened Fencing = MemoryBlock
  import opened Truncation
  import F = FormatMemories
  import N = Neutralize

  // The fences of the plugin are tags neutralize looks for

  lemma PluginTags()
    ensures PLUGIN.open == "<" + (N.FENCE_NAME + ">") && PLUGIN.close == "</" + (N.FENCE_NAME + ">")
  {
  }

  lemma {:induction false} NameIsItself(name: string, rest: string)
    requires (forall c :: c in name ==> N.Lower(c) == c) && rest != "" && !N.IsWord(rest[0])
    ensures N.NamesWord(name + rest, name)
  {
    if name == "" {
      assert name + rest == rest;
    } else {
      assert name[0] in name;
      assert (name + rest)[1..] == name[1..] + rest;
      NameIsItself(name[1..], rest);
    }
  }

  lemma FenceNameIsLower()
    ensures N.FENCE_NAME != "" && forall c :: c in N.FENCE_NAME ==> N.Lower(c) == c && c != '/' && !N.IsWs(c)
  {
  }

  /** Any opening or closing tag of the name is a bare tag. */
  lemma TagIsBare(name: string, rest: string)
    requires name == N.FENCE_NAME && rest != "" && !N.IsWord(rest[0])
    ensures N.Bare("<" + (name + rest)) && N.Bare("</" + (name + rest))
  {
    FenceNameIsLower();
    var t := name + rest;
    assert t[0] == name[0] && name[0] in name;
    NameIsItself(name, rest);
    NoSkip(t);
    assert ("<" + t)[1..] == t && ("</" + t)[1..] == "/" + t && ("/" + t)[1..] == t;
    NoSkip("/" + t);
  }

  lemma NoSkip(t: string)
    requires t != "" && !N.IsWs(t[0])
    ensures N.SkipWs(t) == t
  {
  }

  lemma FenceIsBare(s: string, i: nat)
    requires Occurs(s, PLUGIN.open, i) || Occurs(s, PLUGIN.close, i)
    ensures N.HasFence(s)
  {
    PluginTags();
    var open := Occurs(s, PLUGIN.open, i);
    var tag := if open then PLUGIN.open else PLUGIN.close;
    var after := ">" + s[i + |tag|..];
    assert s[i..] == tag + s[i + |tag|..];
    TagIsBare(N.FENCE_NAME, after);
    Regroup("<", N.FENCE_NAME, s[i + |tag|..]);
    Regroup("</", N.FENCE_NAME, s[i + |tag|..]);
    N.SuffixFence(s, i);
  }

  lemma Regroup(a: string, name: string, rest: string)
    ensures a + (name + ">") + rest == a + (name + (">" + rest))
  {
  }

  /** Text in which neutralize finds no tag has no fence in it. */
  ghost predicate Covered(f: Fence) { forall s :: !N.HasFence(s) ==> FenceFree(f, s) }

  lemma PluginIsCovered()
    ensures Covered(PLUGIN)
  {
    forall s: string, i: nat | Occurs(s, PLUGIN.open, i) || Occurs(s, PLUGIN.close, i) ensures N.HasFence(s) {
      FenceIsBare(s, i);
    }
  }

  // Pieces and joins of fence-free text are fence-free

  lemma PieceIsFenceFree(f: Fence, left: string, s: string, right: string)
    requires FenceFree(f, left + s + right)
    ensures FenceFree(f, s)
  {
    forall i ensures !Occurs(s, f.open, i) && !Occurs(s, f.close, i) {
      if Occurs(s, f.open, i) { Within(left, s, right, f.open, i); }
      if Occurs(s, f.close, i) { Within(left, s, right, f.close, i); }
    }
  }

  lemma Within(left: string, s: string, right: string, tag: string, i: nat)
    requires Occurs(s, tag, i)
    ensures Occurs(left + s + right, tag, |left| + i)
  {
    assert (left + s + right)[|left| + i..|left| + i + |tag|] == s[i..i + |tag|];
  }

  lemma PrefixIsFenceFree(f: Fence, s: string, n: nat)
    requires n <= |s| && FenceFree(f, s)
    ensures FenceFree(f, s[..n])
  {
    assert "" + s[..n] + s[n..] == s;
    PieceIsFenceFree(f, "", s[..n], s[n..]);
  }

  lemma TrimIsFenceFree(f: Fence, s: string)
    requires FenceFree(f, s)
    ensures FenceFree(f, TrimSpace(s))
  {
    var left, right := TrimSpaceCuts(s);
    PieceIsFenceFree(f, left, TrimSpace(s), right);
  }

  lemma PlainPrefixIsFenceFree(f: Fence, a: string, s: string)
    requires FenceOk(f) && '<' !in a && FenceFree(f, s)
    ensures FenceFree(f, a + s)
  {
    forall i ensures !Occurs(a + s, f.open, i) && !Occurs(a + s, f.close, i) {
      if Occurs(a + s, f.open, i) { NoTagWithoutBracket(a, s, f.open, i); }
      if Occurs(a + s, f.close, i) { NoTagWithoutBracket(a, s, f.close, i); }
    }
  }

  lemma TagInEither(a: string, b: string, tag: string, i: nat)
    requires TagLike(tag) && Occurs(a + ("\n" + b), tag, i)
    ensures Occurs(a, tag, i) || (i > |a| && Occurs(b, tag, i - |a| - 1))
  {
    var s := a + ("\n" + b);
    if i <= |a| {
      TagBeforeBreak(a, "\n" + b, tag, i);
    } else {
      assert s[i..i + |tag|] == b[i - |a| - 1..i - |a| - 1 + |tag|];
    }
  }

  lemma LinesAreFenceFree(f: Fence, a: string, b: string)
    requires FenceOk(f) && FenceFree(f, a) && FenceFree(f, b)
    ensures FenceFree(f, a + "\n" + b)
  {
    var s := a + ("\n" + b);
    assert s == a + "\n" + b;
    forall i ensures !Occurs(s, f.open, i) && !Occurs(s, f.close, i) {
      if Occurs(s, f.open, i) { TagInEither(a, b, f.open, i); }
      if Occurs(s, f.close, i) { TagInEither(a, b, f.close, i); }
    }
  }

  lemma {:induction false} JoinIsFenceFree(f: Fence, lines: seq<string>)
    requires FenceOk(f) && forall l :: l in lines ==> FenceFree(f, l)
    ensures FenceFree(f, Join(lines))
  {
    if |lines| > 1 {
      JoinIsFenceFree(f, lines[1..]);
      LinesAreFenceFree(f, lines[0], Join(lines[1..]));
    }
  }

  lemma {:induction false} SplitIsFenceFree(f: Fence, s: string)
    requires FenceFree(f, s)
    ensures forall l :: l in Split(s) ==> FenceFree(f, l)
    decreases |s|
  {
    var n := LineLen(s);
    if n < |s| {
      PrefixIsFenceFree(f, s, n);
      var rest := s[n + 1..];
      assert s[..n + 1] + rest + "" == s;
      PieceIsFenceFree(f, s[..n + 1], rest, "");
      SplitIsFenceFree(f, rest);
    }
  }

  lemma {:induction false} KeptLinesAreFenceFree(f: Fence, lower: string -> string, lines: seq<string>, n: nat)
    requires n <= |lines| && forall l :: l in lines ==> FenceFree(f, l)
    ensures forall l :: l in KeptLines(lower, lines, n) ==> FenceFree(f, l)
  {
    if n > 0 {
      KeptLinesAreFenceFree(f, lower, lines, n - 1);
      TrimIsFenceFree(f, lines[n - 1]);
    }
  }

  /** dedupeLines cannot put a fence together. */
  lemma DedupeIsFenceFree(f: Fence, lower: string -> string, s: string)
    requires FenceOk(f) && FenceFree(f, s)
    ensures FenceFree(f, Deduped(lower, s))
  {
    SplitIsFenceFree(f, s);
    KeptLinesAreFenceFree(f, lower, Split(s), |Split(s)|);
    JoinIsFenceFree(f, KeptLines(lower, Split(s), |Split(s)|));
  }

  // formatMemories

  lemma SnippetIsFenceFree(f: Fence, other: N.OtherPasses, text: string)
    requires Covered(f) && N.Deletes(other.strip)
    ensures FenceFree(f, F.PluginSnippet(other, text))
  {
    var t := N.Neutralized(other, text);
    N.NeutralizedIsSafe(other, text);
    PrefixIsFenceFree(f, t, HeadLen(t, F.MAX_INJECT_ITEM_BYTES));
  }

  /** What is needed of the snippets. */
  ghost predicate SafeSnippets(f: Fence, env: F.Env) { forall text :: FenceFree(f, (env.snippet)(text)) }

  lemma SnippetsAreFenceFree(f: Fence, other: N.OtherPasses)
    requires Covered(f) && N.Deletes(other.strip)
    ensures forall text :: FenceFree(f, F.PluginSnippet(other, text))
  {
    forall text ensures FenceFree(f, F.PluginSnippet(other, text)) { SnippetIsFenceFree(f, other, text); }
  }

  lemma PluginSnippetsAreSafe(f: Fence, lower: string -> string, other: N.OtherPasses)
    requires Covered(f) && N.Deletes(other.strip)
    ensures SafeSnippets(f, F.PluginEnv(lower, other))
  {
    SnippetsAreFenceFree(f, other);
    assert forall text :: (F.PluginEnv(lower, other).snippet)(text) == F.PluginSnippet(other, text);
  }

  lemma {:induction false} BulletsAreFenceFree(f: Fence, texts: seq<string>)
    requires FenceOk(f) && forall t :: t in texts ==> FenceFree(f, t)
    ensures forall l :: l in F.Bullets(texts) ==> FenceFree(f, l)
  {
    if texts != [] {
      var t := texts[|texts| - 1];
      BulletsAreFenceFree(f, texts[..|texts| - 1]);
      assert t in texts;
      PlainPrefixIsFenceFree(f, F.BULLET, t);
    }
  }

  lemma KeptAreFenceFree(f: Fence, env: F.Env, items: seq<F.MemoryItem>, limit: nat)
    requires SafeSnippets(f, env)
    ensures forall t :: t in F.Kept(env, items, limit, |items|) ==> FenceFree(f, t)
  {
    F.KeptIsSound(env, items, limit, |items|);
    forall t | t in F.Kept(env, items, limit, |items|) ensures FenceFree(f, t) {
      var k :| 0 <= k < |items| && F.TextItem(env, items[k]) && F.Snippet(env, items[k]) == t;
    }
  }

  /** Whatever was recalled, the body formatMemories builds of it has no fence. */
  lemma FormattedIsFenceFree(f: Fence, env: F.Env, items: seq<F.MemoryItem>, limit: int)
    requires FenceOk(f) && SafeSnippets(f, env)
    ensures FenceFree(f, F.Formatted(env, items, limit))
  {
    if limit > 0 {
      var kept := F.Kept(env, items, limit, |items|);
      KeptAreFenceFree(f, env, items, limit);
      BulletsAreFenceFree(f, kept);
      JoinIsFenceFree(f, F.Bullets(kept));
    } else {
      JoinIsFenceFree(f, []);
    }
  }

  /** One block, one fence: wherever a tag is found in the block built around the deduplicated
      lines of a fence-free body, it is the block's own. */
  lemma BodyHasOneFenceEach(f: Fence, lower: string -> string, body: string, i: nat)
    requires FenceOk(f) && FenceFree(f, body)
    ensures var block := MemoryBlock(f, Deduped(lower, body));
      block != "" ==>
        (Occurs(block, f.open, i) <==> i == 0) && (Occurs(block, f.close, i) <==> i == |block| - |f.close|)
  {
    DedupeIsFenceFree(f, lower, body);
    TrimIsFenceFree(f, Deduped(lower, body));
    OneFenceEach(f, TrimSpace(Deduped(lower, body)), i);
  }
}
