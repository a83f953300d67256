/** formatMemories of plugin/memory.go: recalled snippets become bullet lines. */
module FormatMemories {
  import opened Whitespace
  import opened Lines
  import opened Truncation
  import B = Bytes
  import N = Neutralize

  datatype MemoryItem = MemoryItem(text: string, modality: string)

  /** The text functions formatMemories is built on: strings.ToLower, the test of an item's
      modality, and what neutralize and headBytes make of its text. */
  datatype Env = Env(lower: string -> string, textual: string -> bool, snippet: string -> string)

  const MAX_INJECT_ITEM_BYTES := 2048

  predicate IsText(mod: string) { mod == "" || mod == "text" }

  function PluginSnippet(other: N.OtherPasses, text: string): string {
    HeadText(N.Neutralized(other, text), MAX_INJECT_ITEM_BYTES)
  }

  function PluginEnv(lower: string -> string, other: N.OtherPasses): Env {
    Env(lower, (mod: string) => IsText(lower(TrimSpace(mod))), (text: string) => PluginSnippet(other, text))
  }

  predicate TextItem(env: Env, item: MemoryItem) { (env.textual)(item.modality) }

  function Snippet(env: Env, item: MemoryItem): string { (env.snippet)(item.text) }

  /** The item gives a line, unless a line like it has been given. */
  predicate Fresh(env: Env, texts: seq<string>, item: MemoryItem) {
    TextItem(env, item) && Snippet(env, item) != "" && (env.lower)(Snippet(env, item)) !in Keys(env.lower, texts)
  }

  /** The texts of the lines given for the first `n` items. */
  function Kept(env: Env, items: seq<MemoryItem>, limit: int, n: nat): seq<string>
    requires n <= |items|
  {
    if n == 0 then []
    else
      var before := Kept(env, items, limit, n - 1);
      if |before| < limit && Fresh(env, before, items[n - 1]) then before + [Snippet(env, items[n - 1])] else before
  }

  const BULLET := "- "

  function Bullets(texts: seq<string>): (lines: seq<string>)
    ensures |lines| == |texts|
  {
    if texts == [] then [] else Bullets(texts[..|texts| - 1]) + [BULLET + texts[|texts| - 1]]
  }

  lemma BulletsAppend(texts: seq<string>, text: string)
    ensures Bullets(texts + [text]) == Bullets(texts) + [BULLET + text]
  {
    assert (texts + [text])[..|texts|] == texts;
  }

  function Formatted(env: Env, items: seq<MemoryItem>, limit: int): string {
    if limit <= 0 then "" else Join(Bullets(Kept(env, items, limit, |items|)))
  }

  lemma {:induction false} KeptStops(env: Env, items: seq<MemoryItem>, limit: int, n: nat, m: nat)
    requires n <= m <= |items| && |Kept(env, items, limit, n)| >= limit
    ensures Kept(env, items, limit, m) == Kept(env, items, limit, n)
    decreases m - n
  {
    if n < m { KeptStops(env, items, limit, n, m - 1); }
  }

  /** The loop of the source, with its seen set and its early exit. */
  method FormatMemories(env: Env, items: seq<MemoryItem>, limit: int) returns (r: string)
    ensures r == Formatted(env, items, limit)
  {
    if limit <= 0 || |items| == 0 { return ""; }
    var lines: seq<string>, seen: set<string> := [], {};
    ghost var texts: seq<string> := [];
    var i := 0;
    while i < |items|
      invariant 0 <= i <= |items| && texts == Kept(env, items, limit, i)
      invariant lines == Bullets(texts) && seen == Keys(env.lower, texts)
    {
      if |lines| >= limit {
        KeptStops(env, items, limit, i, |items|);
        break;
      }
      var item := items[i];
      i := i + 1;
      if !TextItem(env, item) { continue; }
      var text := (env.snippet)(item.text);
      if text == "" { continue; }
      var key := (env.lower)(text);
      if key in seen { continue; }
      seen := seen + {key};
      lines := lines + [BULLET + text];
      BulletsAppend(texts, text);
      KeysAppend(env.lower, texts, text);
      texts := texts + [text];
    }
    r := Join(lines);
  }

  // What is kept

  ghost predicate From(env: Env, items: seq<MemoryItem>, text: string, n: nat)
    requires n <= |items|
  {
    exists k :: 0 <= k < n && TextItem(env, items[k]) && Snippet(env, items[k]) == text
  }

  /** At most `limit` lines, each from a text item, none empty, no two alike. */
  lemma {:induction false} KeptIsSound(env: Env, items: seq<MemoryItem>, limit: int, n: nat)
    requires n <= |items| && limit >= 0
    ensures var k := Kept(env, items, limit, n);
      && |k| <= limit && Distinct(env.lower, k) && (forall t :: t in k ==> t != "" && From(env, items, t, n))
  {
    if n > 0 {
      KeptIsSound(env, items, limit, n - 1);
      var before, item := Kept(env, items, limit, n - 1), items[n - 1];
      assert forall t :: From(env, items, t, n - 1) ==> From(env, items, t, n);
      if Fresh(env, before, item) { DistinctAppend(env.lower, before, Snippet(env, item)); }
    }
  }

  /** A text item is left out only for an alike line, an empty text or a full block. */
  lemma {:induction false} KeptIsComplete(env: Env, items: seq<MemoryItem>, limit: int, n: nat, i: nat)
    requires i < n <= |items| && TextItem(env, items[i]) && Snippet(env, items[i]) != ""
    ensures var k := Kept(env, items, limit, n);
      |k| >= limit || exists j :: 0 <= j < |k| && (env.lower)(k[j]) == (env.lower)(Snippet(env, items[i]))
  {
    KeptHasKey(env, items, limit, n, i);
    KeysAre(env.lower, Kept(env, items, limit, n), (env.lower)(Snippet(env, items[i])));
  }

  lemma {:induction false} KeptHasKey(env: Env, items: seq<MemoryItem>, limit: int, n: nat, i: nat)
    requires i < n <= |items| && TextItem(env, items[i]) && Snippet(env, items[i]) != ""
    ensures var k := Kept(env, items, limit, n);
      |k| >= limit || (env.lower)(Snippet(env, items[i])) in Keys(env.lower, k)
  {
    var before := Kept(env, items, limit, n - 1);
    if i < n - 1 { KeptHasKey(env, items, limit, n - 1, i); }
    KeysAppend(env.lower, before, Snippet(env, items[n - 1]));
  }

  /** The lines come in the order of their items, the first of alike ones being the one kept: each
      item adds its line at the end, or none. */
  lemma {:induction false} KeptGrows(env: Env, items: seq<MemoryItem>, limit: int, n: nat, m: nat)
    requires n <= m <= |items|
    ensures Kept(env, items, limit, n) <= Kept(env, items, limit, m)
    ensures |Kept(env, items, limit, m)| <= |Kept(env, items, limit, n)| + (m - n)
    decreases m - n
  {
    if n < m { KeptGrows(env, items, limit, n, m - 1); }
  }

  lemma {:induction false} BulletsAt(texts: seq<string>, i: nat)
    requires i < |texts|
    ensures Bullets(texts)[i] == "- " + texts[i]
  {
    if i < |texts| - 1 { BulletsAt(texts[..|texts| - 1], i); }
  }

  lemma {:induction false} BulletsAreLines(texts: seq<string>)
    requires forall t :: t in texts ==> OneLine(t)
    ensures forall l :: l in Bullets(texts) ==> OneLine(l)
  {
    forall i | 0 <= i < |texts| ensures OneLine(Bullets(texts)[i]) {
      BulletsAt(texts, i);
      assert texts[i] in texts;
    }
  }

  /** The text has one line for each text kept, in their order, a dash and a space before it. */
  lemma FormattedLines(env: Env, items: seq<MemoryItem>, limit: int, i: nat)
    requires forall text :: OneLine((env.snippet)(text))
    requires limit > 0 && i < |Kept(env, items, limit, |items|)|
    ensures var kept, lines := Kept(env, items, limit, |items|), Split(Formatted(env, items, limit));
      |lines| == |kept| && lines[i] == "- " + kept[i]
  {
    var kept := Kept(env, items, limit, |items|);
    KeptIsSound(env, items, limit, |items|);
    forall t | t in kept ensures OneLine(t) {
      var k :| 0 <= k < |items| && TextItem(env, items[k]) && Snippet(env, items[k]) == t;
    }
    BulletsAreLines(kept);
    SplitJoin(Bullets(kept));
    BulletsAt(kept, i);
  }

  /** The plugin's snippets: the neutralized text, or as many whole characters of it as fit into 2048
      bytes; an item counts if its modality, trimmed and in lower case, is text or is not given. */
  lemma PluginSnippetFits(lower: string -> string, other: N.OtherPasses, item: MemoryItem)
    ensures var env, t := PluginEnv(lower, other), N.Neutralized(other, item.text);
      && Snippet(env, item) <= t && |B.Encode(Snippet(env, item))| <= 2048
      && (Snippet(env, item) != t ==> |B.Encode(t[..|Snippet(env, item)| + 1])| > 2048)
      && (TextItem(env, item) <==> lower(TrimSpace(item.modality)) in ["", "text"])
  {
    HeadLenFits(N.Neutralized(other, item.text), MAX_INJECT_ITEM_BYTES);
  }

  lemma PluginSnippetsAreLines(lower: string -> string, other: N.OtherPasses)
    requires N.Deletes(other.strip)
    ensures forall text :: OneLine((PluginEnv(lower, other).snippet)(text))
  {
    forall text ensures OneLine(PluginSnippet(other, text)) {
      N.NeutralizedIsSafe(other, text);
      forall c | c in PluginSnippet(other, text) ensures c != '\n' { assert c in N.Neutralized(other, text); }
    }
  }
}
