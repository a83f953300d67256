/** The block the plugin puts into a prompt, from what the bus kept and what was just recalled. */
module PluginBlock {
  import opened BlockSafety
  import opened Bytes
  import opened Lines
  import opened StagedText
  import opened Fencing = MemoryBlock
  import Bus
  import F = FormatMemories
  import L = MergeLaws
  import N = Neutralize
  import W = Whitespace

  // filterStagedAgainstWindow

  /** The lines the model cannot see already. */
  function Unseen(seen: string -> bool, lines: seq<string>): seq<string> {
    if lines == [] then []
    else
      var last := lines[|lines| - 1];
      Unseen(seen, lines[..|lines| - 1]) + if seen(last) then [] else [last]
  }

  function Filtered(seen: string -> bool, staged: string): string { Join(Unseen(seen, Split(staged))) }

  method FilterStaged(seen: string -> bool, staged: string) returns (r: string)
    ensures r == Filtered(seen, staged)
  {
    var lines, out: seq<string> := Split(staged), [];
    for i := 0 to |lines|
      invariant out == Unseen(seen, lines[..i])
    {
      assert lines[..i + 1][..i] == lines[..i];
      if !seen(lines[i]) { out := out + [lines[i]]; }
    }
    assert lines[..|lines|] == lines;
    r := Join(out);
  }

  lemma {:induction false} UnseenAreLines(seen: string -> bool, lines: seq<string>)
    ensures forall l :: l in Unseen(seen, lines) ==> l in lines && !seen(l)
  {
    if lines != [] {
      UnseenAreLines(seen, lines[..|lines| - 1]);
      assert lines[|lines| - 1] in lines && forall l :: l in lines[..|lines| - 1] ==> l in lines;
    }
  }

  lemma {:induction false} UnseenAppend(seen: string -> bool, a: seq<string>, b: seq<string>)
    ensures Unseen(seen, a + b) == Unseen(seen, a) + Unseen(seen, b)
  {
    if b == [] {
      assert a + b == a;
    } else {
      assert (a + b)[..|a + b| - 1] == a + b[..|b| - 1];
      UnseenAppend(seen, a, b[..|b| - 1]);
    }
  }

  /** Each line is kept or left out on its own, and those kept stay in their order: a line that can
      be seen leaves nothing, another one leaves itself. */
  lemma UnseenLineByLine(seen: string -> bool, before: seq<string>, line: string, after: seq<string>)
    ensures Unseen(seen, before + [line] + after) ==
      Unseen(seen, before) + (if seen(line) then [] else [line]) + Unseen(seen, after)
  {
    UnseenAppend(seen, before + [line], after);
    UnseenAppend(seen, before, [line]);
    assert [line][..0] == [];
    assert Unseen(seen, [line]) == Unseen(seen, []) + if seen(line) then [] else [line];
  }

  lemma FilteredIsFenceFree(f: Fence, seen: string -> bool, staged: string)
    requires FenceOk(f) && FenceFree(f, staged)
    ensures FenceFree(f, Filtered(seen, staged))
  {
    SplitIsFenceFree(f, staged);
    UnseenAreLines(seen, Split(staged));
    JoinIsFenceFree(f, Unseen(seen, Split(staged)));
  }

  // The staged text

  /** A recall: the items it found, and how many lines may be made of them. */
  datatype Recall = Recall(items: seq<F.MemoryItem>, limit: int)

  /** What is staged: the body built of a recall, or text taken from the bus before and staged
      again because no engine opened for it or it could not be injected. */
  datatype StagedBlock = Recalled(recall: Recall) | Again(before: seq<StagedBlock>, text: string)

  function Text(env: F.Env, block: StagedBlock): string {
    match block
    case Recalled(recall) => F.Formatted(env, recall.items, recall.limit)
    case Again(_, text) => text
  }

  function Texts(env: F.Env, blocks: seq<StagedBlock>): seq<string> {
    if blocks == [] then []
    else Texts(env, blocks[..|blocks| - 1]) + [Text(env, blocks[|blocks| - 1])]
  }

  /** `staged` is nothing, or what the bus kept of these blocks; text that was staged again had
      come from the bus in the same way. */
  ghost predicate FromBus(env: F.Env, blocks: seq<StagedBlock>, staged: string) {
    && (forall i :: 0 <= i < |blocks| && blocks[i].Again? ==> FromBus(env, blocks[i].before, blocks[i].text))
    && (staged == "" ||
        (Texts(env, blocks) != [] && Bus.Keeps(Encode(staged), StagedBytes(Texts(env, blocks)))))
  }

  lemma SuffixIsFenceFree(f: Fence, s: string, k: nat)
    requires k <= |s| && FenceFree(f, s)
    ensures FenceFree(f, s[k..])
  {
    assert s[..k] + s[k..] + "" == s;
    PieceIsFenceFree(f, s[..k], s[k..], "");
  }

  lemma {:induction false} TextsAreTexts(env: F.Env, blocks: seq<StagedBlock>)
    ensures forall t :: t in Texts(env, blocks) ==> exists i :: 0 <= i < |blocks| && t == Text(env, blocks[i])
  {
    if blocks != [] {
      var init := blocks[..|blocks| - 1];
      TextsAreTexts(env, init);
      forall t | t in Texts(env, blocks) ensures exists i :: 0 <= i < |blocks| && t == Text(env, blocks[i]) {
        if t in Texts(env, init) {
          var i :| 0 <= i < |init| && t == Text(env, init[i]);
          assert blocks[i] == init[i];
        }
      }
    }
  }

  /** However often text comes back to the bus, it brings no fence with it. */
  lemma {:induction false} StagedIsFenceFree(f: Fence, env: F.Env, blocks: seq<StagedBlock>, staged: string)
    requires FenceOk(f) && SafeSnippets(f, env) && FromBus(env, blocks, staged)
    ensures FenceFree(f, staged)
  {
    forall i | 0 <= i < |blocks| ensures FenceFree(f, Text(env, blocks[i])) {
      match blocks[i]
      case Recalled(recall) => FormattedIsFenceFree(f, env, recall.items, recall.limit);
      case Again(before, text) => StagedIsFenceFree(f, env, before, text);
    }
    TextsAreTexts(env, blocks);
    KeptIsFenceFree(f, Texts(env, blocks), staged);
  }

  lemma KeptIsFenceFree(f: Fence, texts: seq<string>, staged: string)
    requires FenceOk(f) && forall t :: t in texts ==> FenceFree(f, t)
    requires staged == "" || (texts != [] && Bus.Keeps(Encode(staged), StagedBytes(texts)))
    ensures FenceFree(f, staged)
  {
    if staged == "" {
      JoinIsFenceFree(f, []);
    } else {
      JoinIsFenceFree(f, texts);
      StagedBytesAreJoin(texts);
      KeptIsTail(Join(texts), staged);
      var k :| 0 <= k <= |Join(texts)| && staged == Join(texts)[k..];
      SuffixIsFenceFree(f, Join(texts), k);
    }
  }

  // The body and the block

  function Body(staged: string, recalled: string): string {
    if staged == "" then recalled else if recalled == "" then staged else staged + "\n" + recalled
  }

  function PromptBlock(f: Fence, env: F.Env, seen: string -> bool, staged: string, recall: Recall): string {
    MemoryBlock(f, Deduped(env.lower, Body(Filtered(seen, staged), F.Formatted(env, recall.items, recall.limit))))
  }

  lemma BodyIsFenceFree(f: Fence, env: F.Env, seen: string -> bool, blocks: seq<StagedBlock>, staged: string,
                        recall: Recall)
    requires FenceOk(f) && SafeSnippets(f, env) && FromBus(env, blocks, staged)
    ensures FenceFree(f, Body(Filtered(seen, staged), F.Formatted(env, recall.items, recall.limit)))
  {
    var shown, recalled := Filtered(seen, staged), F.Formatted(env, recall.items, recall.limit);
    StagedIsFenceFree(f, env, blocks, staged);
    FilteredIsFenceFree(f, seen, staged);
    FormattedIsFenceFree(f, env, recall.items, recall.limit);
    LinesAreFenceFree(f, shown, recalled);
  }

  /** One block, one fence: wherever a tag is found in the block, it is the block's own. */
  lemma PromptBlockHasOneFenceEach(f: Fence, env: F.Env, seen: string -> bool, blocks: seq<StagedBlock>, staged: string,
                                   recall: Recall, i: nat)
    requires FenceOk(f) && SafeSnippets(f, env) && FromBus(env, blocks, staged)
    ensures var block := PromptBlock(f, env, seen, staged, recall);
      block != "" ==>
        (Occurs(block, f.open, i) <==> i == 0) && (Occurs(block, f.close, i) <==> i == |block| - |f.close|)
  {
    BodyIsFenceFree(f, env, seen, blocks, staged, recall);
    BodyHasOneFenceEach(f, env.lower, Body(Filtered(seen, staged), F.Formatted(env, recall.items, recall.limit)), i);
  }

  /** For the plugin's own fence, whatever the engine ever recalled and however often it was
      staged: the block built of the text the bus kept, less the lines the model can see, and of
      a fresh recall has exactly one opening fence, at its start, and one closing fence, at its
      end. */
  lemma PluginBlockHasOneFenceEach(lower: string -> string, other: N.OtherPasses, seen: string -> bool,
                                   blocks: seq<StagedBlock>, staged: string, recall: Recall, i: nat)
    requires N.Deletes(other.strip) && FromBus(F.PluginEnv(lower, other), blocks, staged)
    ensures var block := PromptBlock(PLUGIN, F.PluginEnv(lower, other), seen, staged, recall);
      block != "" ==>
        && (Occurs(block, PLUGIN.open, i) <==> i == 0)
        && (Occurs(block, PLUGIN.close, i) <==> i == |block| - |PLUGIN.close|)
  {
    PluginFence();
    PluginIsCovered();
    PluginSnippetsAreSafe(PLUGIN, lower, other);
    PromptBlockHasOneFenceEach(PLUGIN, F.PluginEnv(lower, other), seen, blocks, staged, recall, i);
  }

  /** Such a block, once injected, is replaced by the next: exactly when what is left of the
      existing text holds no opening tag directly followed by the plugin's header line. */
  lemma PromptBlockIsReplacedExactly(f: Fence, env: F.Env, seen: string -> bool, blocks: seq<StagedBlock>,
                                     staged: string, recall: Recall, e: string, body2: string)
    requires FenceOk(f) && SafeSnippets(f, env) && FromBus(env, blocks, staged)
    requires PromptBlock(f, env, seen, staged, recall) != ""
    ensures var x, block := W.TrimSpace(Strip(f, e)), PromptBlock(f, env, seen, staged, recall);
      var block2 := Block(f, body2);
      Merge(f, Merge(f, e, block), block2) == Merge(f, e, block2) <==> L.NoMarker(f, x, 0, |x|)
  {
    var body := Body(Filtered(seen, staged), F.Formatted(env, recall.items, recall.limit));
    BodyIsFenceFree(f, env, seen, blocks, staged, recall);
    DedupeIsFenceFree(f, env.lower, body);
    TrimIsFenceFree(f, Deduped(env.lower, body));
    L.MergeReplacesExactly(f, e, W.TrimSpace(Deduped(env.lower, body)), body2);
  }

  lemma PluginBlockIsReplacedExactly(lower: string -> string, other: N.OtherPasses, seen: string -> bool,
                                     blocks: seq<StagedBlock>, staged: string, recall: Recall, e: string, body2: string)
    requires N.Deletes(other.strip) && FromBus(F.PluginEnv(lower, other), blocks, staged)
    requires PromptBlock(PLUGIN, F.PluginEnv(lower, other), seen, staged, recall) != ""
    ensures var x := W.TrimSpace(Strip(PLUGIN, e));
      var block := PromptBlock(PLUGIN, F.PluginEnv(lower, other), seen, staged, recall);
      Merge(PLUGIN, Merge(PLUGIN, e, block), Block(PLUGIN, body2)) == Merge(PLUGIN, e, Block(PLUGIN, body2)) <==>
      L.NoMarker(PLUGIN, x, 0, |x|)
  {
    PluginFence();
    PluginIsCovered();
    PluginSnippetsAreSafe(PLUGIN, lower, other);
    PromptBlockIsReplacedExactly(PLUGIN, F.PluginEnv(lower, other), seen, blocks, staged, recall, e, body2);
  }

  // Nothing is lost on the way into the block

  lemma {:induction false} JoinedEdges(lines: seq<string>)
    requires lines != [] && forall t :: t in lines ==> Trimmed(t)
    ensures Join(lines) != "" && !W.EdgeSpace(Join(lines))
  {
    assert lines[0] in lines;
    W.TrimSpaceFixed(lines[0]);
    if |lines| > 1 {
      JoinedEdges(lines[1..]);
      var rest := Join(lines[1..]);
      assert Join(lines) == lines[0] + "\n" + rest;
      assert Join(lines)[|Join(lines)| - 1] == rest[|rest| - 1] && Join(lines)[0] == lines[0][0];
    }
  }

  /** The lines of the block are the deduplicated lines of its body. */
  lemma BlockLines(f: Fence, lower: string -> string, body: string)
    ensures var kept, block := KeptLines(lower, Split(body), |Split(body)|), MemoryBlock(f, Deduped(lower, body));
      kept != [] ==>
        block != "" && |f.open| + |f.intro| + 1 + |f.close| <= |block| && Split(Inner(f, block)) == kept
  {
    JoinSplit(body);
    var kept := KeptLines(lower, Split(body), |Split(body)|);
    KeptAreDistinct(lower, Split(body), |Split(body)|);
    if kept != [] {
      JoinedEdges(kept);
      W.TrimSpaceFixed(Join(kept));
      SplitJoin(kept);
      BlockHoldsBody(f, Join(kept));
    }
  }

  lemma BodyHasLine(staged: string, recalled: string, line: string)
    requires line in Split(staged) || line in Split(recalled)
    requires W.TrimSpace(line) != ""
    ensures line in Split(Body(staged, recalled))
  {
    assert Split("") == [""] && W.TrimSpace("") == "";
    SplitAppend(staged, recalled);
  }

  /** Every line that is staged and cannot be seen, and every line just recalled, unless it is
      blank, is a line of the block, up to case and the whitespace around it. */
  lemma PromptBlockKeepsLines(f: Fence, env: F.Env, seen: string -> bool, staged: string, recall: Recall, line: string)
    requires line in Split(Filtered(seen, staged)) || line in Split(F.Formatted(env, recall.items, recall.limit))
    requires W.TrimSpace(line) != ""
    ensures var block := PromptBlock(f, env, seen, staged, recall);
      && block != "" && |f.open| + |f.intro| + 1 + |f.close| <= |block|
      && exists l :: l in Split(Inner(f, block)) && (env.lower)(l) == (env.lower)(W.TrimSpace(line))
  {
    var body := Body(Filtered(seen, staged), F.Formatted(env, recall.items, recall.limit));
    BodyHasLine(Filtered(seen, staged), F.Formatted(env, recall.items, recall.limit), line);
    var i :| 0 <= i < |Split(body)| && Split(body)[i] == line;
    EveryLineKept(env.lower, Split(body), |Split(body)|, i);
    BlockLines(f, env.lower, body);
    var kept := KeptLines(env.lower, Split(body), |Split(body)|);
    var j :| 0 <= j < |kept| && (env.lower)(kept[j]) == (env.lower)(W.TrimSpace(line));
    assert kept[j] in kept;
  }
}
