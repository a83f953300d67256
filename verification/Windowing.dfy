/** Trimming a conversation to its last messages (plugin/formats.go), in the three formats
    that support it: system turns stay, and the kept part never starts with a message whose
    parent was cut off. */
module Windowing {

  // The scheme: `counts` tells the messages that are counted, `orphan` those that may not lead

  function Counted<T>(counts: T -> bool, s: seq<T>): seq<T> {
    if s == [] then [] else (if counts(s[0]) then [s[0]] else []) + Counted(counts, s[1..])
  }

  /** The head reached by extending left from `start`. */
  function Head<T>(orphan: T -> bool, rest: seq<T>, start: nat): (r: nat)
    requires start < |rest|
    ensures r <= start
  {
    if start > 0 && orphan(rest[start]) then Head(orphan, rest, start - 1) else start
  }

  /** The messages without the first `d` counted ones. */
  function Dropped<T>(counts: T -> bool, s: seq<T>, d: nat): seq<T> {
    if s == [] then []
    else if !counts(s[0]) then [s[0]] + Dropped(counts, s[1..], d)
    else if d > 0 then Dropped(counts, s[1..], d - 1)
    else [s[0]] + Dropped(counts, s[1..], 0)
  }

  /** How many of the counted messages are cut off. */
  function CutOf<T>(orphan: T -> bool, rest: seq<T>, n: nat): nat
    requires n >= 1
  {
    if |rest| <= n then 0 else Head(orphan, rest, |rest| - n)
  }

  function Cut<T>(counts: T -> bool, orphan: T -> bool, s: seq<T>, n: nat): nat
    requires n >= 1
  {
    CutOf(orphan, Counted(counts, s), n)
  }

  function Window<T>(counts: T -> bool, orphan: T -> bool, s: seq<T>, n: nat): seq<T>
    requires n >= 1
  {
    if |Counted(counts, s)| <= n then s else Dropped(counts, s, Cut(counts, orphan, s, n))
  }

  // What a window is

  function Pinned<T>(counts: T -> bool, s: seq<T>): seq<T> { Counted(x => !counts(x), s) }

  lemma {:induction false} DropNothing<T>(counts: T -> bool, s: seq<T>)
    ensures Dropped(counts, s, 0) == s
  {
    if s != [] { DropNothing(counts, s[1..]); }
  }

  lemma {:induction false} DroppedParts<T>(counts: T -> bool, s: seq<T>, d: nat) returns (p: nat)
    requires d <= |Counted(counts, s)|
    ensures p <= |s| && Dropped(counts, s, d) == Pinned(counts, s[..p]) + s[p..]
    ensures |Counted(counts, s[..p])| == d
    ensures Counted(counts, Dropped(counts, s, d)) == Counted(counts, s)[d..]
  {
    if d == 0 {
      p := 0;
      DropNothing(counts, s);
    } else {
      var q := DroppedParts(counts, s[1..], if counts(s[0]) then d - 1 else d);
      p := q + 1;
      assert s[..p][0] == s[0] && s[..p][1..] == s[1..][..q] && s[p..] == s[1..][q..];
    }
  }

  lemma {:induction false} HeadIsLatest<T>(orphan: T -> bool, rest: seq<T>, start: nat)
    requires start < |rest|
    ensures var h := Head(orphan, rest, start);
      (h == 0 || !orphan(rest[h])) && forall i :: h < i <= start ==> orphan(rest[i])
  {
    if start > 0 && orphan(rest[start]) { HeadIsLatest(orphan, rest, start - 1); }
  }

  lemma CutIsLatest<T>(orphan: T -> bool, rest: seq<T>, n: nat)
    requires n >= 1
    ensures var cut := CutOf(orphan, rest, n);
      && cut <= |rest| && |rest| - cut >= (if n <= |rest| then n else |rest|)
      && (cut == 0 || !orphan(rest[cut])) && (forall i :: cut < i <= |rest| - n ==> orphan(rest[i]))
  {
    if |rest| > n { HeadIsLatest(orphan, rest, |rest| - n); }
  }

  lemma WindowDrops<T>(counts: T -> bool, orphan: T -> bool, s: seq<T>, n: nat)
    requires n >= 1
    ensures Window(counts, orphan, s, n) == Dropped(counts, s, Cut(counts, orphan, s, n))
  {
    if |Counted(counts, s)| <= n { DropNothing(counts, s); }
  }

  /** The window: up to some place only the system turns are kept, from there on everything.
      The counted messages kept are a suffix of at least `n` (or all there are), and it starts
      at the latest message that may lead, or the first. */
  lemma WindowKeepsSuffix<T>(counts: T -> bool, orphan: T -> bool, s: seq<T>, n: nat) returns (p: nat)
    requires n >= 1
    ensures var w, rest, cut := Window(counts, orphan, s, n), Counted(counts, s), Cut(counts, orphan, s, n);
      && p <= |s| && w == Pinned(counts, s[..p]) + s[p..] && |Counted(counts, s[..p])| == cut
      && cut <= |rest| && Counted(counts, w) == rest[cut..]
      && |rest| - cut >= (if n <= |rest| then n else |rest|)
      && (cut == 0 || !orphan(rest[cut])) && (forall i :: cut < i <= |rest| - n ==> orphan(rest[i]))
  {
    CutIsLatest(orphan, Counted(counts, s), n);
    WindowDrops(counts, orphan, s, n);
    p := DroppedParts(counts, s, Cut(counts, orphan, s, n));
  }

  // The same by the places in the conversation

  lemma {:induction false} CountedJoin<T>(counts: T -> bool, a: seq<T>, b: seq<T>)
    ensures Counted(counts, a + b) == Counted(counts, a) + Counted(counts, b)
  {
    if a == [] {
      assert a + b == b;
    } else {
      var s := a + b;
      assert s[0] == a[0] && s[1..] == a[1..] + b;
      CountedJoin(counts, a[1..], b);
      var first := if counts(a[0]) then [a[0]] else [];
      assert Counted(counts, s) == first + Counted(counts, s[1..]);
      assert Counted(counts, a) == first + Counted(counts, a[1..]);
    }
  }

  lemma CountedAt<T>(counts: T -> bool, s: seq<T>, k: nat)
    requires k < |s| && counts(s[k])
    ensures |Counted(counts, s[k..])| == |Counted(counts, s[k + 1..])| + 1
    ensures var i := |Counted(counts, s)| - |Counted(counts, s[k..])|;
      0 <= i < |Counted(counts, s)| && Counted(counts, s)[i] == s[k]
  {
    assert s == s[..k] + s[k..] && s[k..][1..] == s[k + 1..];
    CountedJoin(counts, s[..k], s[k..]);
  }

  /** The places from `k` on that are counted. */
  ghost function CountedFrom<T>(counts: T -> bool, s: seq<T>, k: nat): set<nat> {
    set i: nat | k <= i < |s| && counts(s[i])
  }

  lemma {:induction false} CountedFromIs<T>(counts: T -> bool, s: seq<T>, k: nat)
    requires k <= |s|
    ensures |CountedFrom(counts, s, k)| == |Counted(counts, s[k..])|
    decreases |s| - k
  {
    if k < |s| {
      CountedFromIs(counts, s, k + 1);
      assert s[k..][1..] == s[k + 1..];
      assert CountedFrom(counts, s, k) == CountedFrom(counts, s, k + 1) + (if counts(s[k]) then {k} else {});
    } else {
      assert CountedFrom(counts, s, k) == {};
    }
  }

  /** `w` is what `s` has at the places `at`, in order. */
  ghost predicate Selects<T>(s: seq<T>, w: seq<T>, at: seq<nat>) {
    && |w| == |at| && (forall i :: 0 <= i < |at| ==> at[i] < |s| && w[i] == s[at[i]])
    && forall i, j :: 0 <= i < j < |at| ==> at[i] < at[j]
  }

  function Shifted(at: seq<nat>): (r: seq<nat>)
    ensures |r| == |at| && forall i :: 0 <= i < |at| ==> r[i] == at[i] + 1
  {
    seq(|at|, i requires 0 <= i < |at| => at[i] + 1)
  }

  lemma ShiftedHas(at: seq<nat>, k: nat)
    ensures k in Shifted(at) <==> k > 0 && k - 1 in at
  {
    if k > 0 && k - 1 in at {
      var i :| 0 <= i < |at| && at[i] == k - 1;
      assert Shifted(at)[i] == k;
    }
  }

  function Identity(n: nat): (r: seq<nat>)
    ensures |r| == n && forall i :: 0 <= i < n ==> r[i] == i
  {
    seq(n, i requires 0 <= i < n => i)
  }

  /** `w` keeps the places from `p` on and those not counted. */
  ghost predicate KeepsFrom<T>(counts: T -> bool, s: seq<T>, w: seq<T>, at: seq<nat>, p: nat) {
    && Selects(s, w, at)
    && forall k: nat :: k < |s| ==> (k in at <==> k >= p || !counts(s[k]))
  }

  lemma KeepsOneMore<T>(counts: T -> bool, s: seq<T>, w: seq<T>, at: seq<nat>, p: nat) returns (at': seq<nat>)
    requires s != [] && KeepsFrom(counts, s[1..], w, at, p)
    ensures KeepsFrom(counts, s, (if counts(s[0]) then [] else [s[0]]) + w, at', p + 1)
  {
    at' := (if counts(s[0]) then [] else [0]) + Shifted(at);
    forall k: nat | k < |s| ensures k in at' <==> k >= p + 1 || !counts(s[k]) {
      ShiftedHas(at, k);
      if k > 0 { assert s[1..][k - 1] == s[k]; }
    }
  }

  lemma KeepsAll<T>(counts: T -> bool, s: seq<T>, p: nat) returns (at: seq<nat>)
    requires forall k: nat :: k < p && k < |s| ==> !counts(s[k])
    ensures KeepsFrom(counts, s, s, at, p)
  {
    at := Identity(|s|);
    forall k: nat | k < |s| ensures k in at { assert at[k] == k; }
  }

  /** What is left without the first `d` counted ones: from the next one on everything. */
  lemma {:induction false} DroppedPlaces<T>(counts: T -> bool, s: seq<T>, d: nat) returns (at: seq<nat>, p: nat)
    requires d < |Counted(counts, s)|
    ensures KeepsFrom(counts, s, Dropped(counts, s, d), at, p)
    ensures p < |s| && counts(s[p]) && |Counted(counts, s[p..])| == |Counted(counts, s)| - d
  {
    if d == 0 && counts(s[0]) {
      p := 0;
      at := KeepsAll(counts, s, p);
      DropNothing(counts, s);
      assert s[0..] == s;
    } else {
      var left := if counts(s[0]) then d - 1 else d;
      var rest, q := DroppedPlaces(counts, s[1..], left);
      p := q + 1;
      at := KeepsOneMore(counts, s, Dropped(counts, s[1..], left), rest, q);
      assert s[1..][q] == s[p] && s[1..][q..] == s[p..];
      assert Dropped(counts, s, d) == (if counts(s[0]) then [] else [s[0]]) + Dropped(counts, s[1..], left);
    }
  }

  lemma CutMayLead<T>(counts: T -> bool, orphan: T -> bool, s: seq<T>, n: nat, p: nat)
    requires n >= 1 && p < |s| && counts(s[p]) && Cut(counts, orphan, s, n) > 0
    requires |Counted(counts, s[p..])| == |Counted(counts, s)| - Cut(counts, orphan, s, n)
    ensures !orphan(s[p]) && |CountedFrom(counts, s, p)| >= n
  {
    CutIsLatest(orphan, Counted(counts, s), n);
    CountedAt(counts, s, p);
    CountedFromIs(counts, s, p);
  }

  lemma LaterMayNot<T>(counts: T -> bool, orphan: T -> bool, s: seq<T>, n: nat, p: nat, k: nat)
    requires n >= 1 && p < k < |s| && counts(s[k])
    requires |Counted(counts, s[p..])| == |Counted(counts, s)| - Cut(counts, orphan, s, n)
    requires n <= |CountedFrom(counts, s, k)| < |CountedFrom(counts, s, p)|
    ensures orphan(s[k])
  {
    CutIsLatest(orphan, Counted(counts, s), n);
    CountedFromIs(counts, s, p);
    CountedFromIs(counts, s, k);
    CountedAt(counts, s, k);
  }

  lemma WindowStart<T>(counts: T -> bool, orphan: T -> bool, s: seq<T>, n: nat) returns (at: seq<nat>, p: nat)
    requires n >= 1
    ensures KeepsFrom(counts, s, Window(counts, orphan, s, n), at, p) && p <= |s|
    ensures p == 0 || (p < |s| && counts(s[p]) && Cut(counts, orphan, s, n) > 0)
    ensures |Counted(counts, s[p..])| == |Counted(counts, s)| - Cut(counts, orphan, s, n)
  {
    var cut := Cut(counts, orphan, s, n);
    WindowDrops(counts, orphan, s, n);
    if cut == 0 {
      p := 0;
      at := KeepsAll(counts, s, p);
      DropNothing(counts, s);
      assert s[0..] == s;
    } else {
      at, p := DroppedPlaces(counts, s, cut);
    }
  }

  /** A window by its places: from `p` on everything, before it only what is not counted.  It
      starts with everything or with a counted message that may lead, keeps `n` counted ones or
      all, and a later start that would cut off more and still keep `n` is one that may not lead. */
  lemma WindowPlaces<T>(counts: T -> bool, orphan: T -> bool, s: seq<T>, n: nat) returns (at: seq<nat>, p: nat)
    requires n >= 1
    ensures KeepsFrom(counts, s, Window(counts, orphan, s, n), at, p)
    ensures p == 0 || (p < |s| && counts(s[p]) && !orphan(s[p]) && |CountedFrom(counts, s, p)| >= n)
    ensures forall k ::
      p < k < |s| && counts(s[k]) && n <= |CountedFrom(counts, s, k)| < |CountedFrom(counts, s, p)| ==> orphan(s[k])
  {
    at, p := WindowStart(counts, orphan, s, n);
    if p > 0 { CutMayLead(counts, orphan, s, n, p); }
    forall k | p < k < |s| && counts(s[k]) && n <= |CountedFrom(counts, s, k)| < |CountedFrom(counts, s, p)|
      ensures orphan(s[k])
    {
      LaterMayNot(counts, orphan, s, n, p, k);
    }
  }

  // Windows compose

  lemma {:induction false} DropTwice<T>(counts: T -> bool, s: seq<T>, a: nat, b: nat)
    ensures Dropped(counts, Dropped(counts, s, a), b) == Dropped(counts, s, a + b)
  {
    if s != [] {
      if !counts(s[0]) {
        DropTwice(counts, s[1..], a, b);
      } else if a > 0 {
        DropTwice(counts, s[1..], a - 1, b);
      } else {
        DropNothing(counts, s);
      }
    }
  }

  lemma {:induction false} HeadShift<T>(orphan: T -> bool, rest: seq<T>, a: nat, start: nat)
    requires a + start < |rest| && (a == 0 || !orphan(rest[a]))
    ensures Head(orphan, rest[a..], start) + a == Head(orphan, rest, a + start)
  {
    if start > 0 && orphan(rest[a + start]) { HeadShift(orphan, rest, a, start - 1); }
  }

  lemma WindowCounted<T>(counts: T -> bool, orphan: T -> bool, s: seq<T>, m: nat)
    requires m >= 1
    ensures var a, rest := Cut(counts, orphan, s, m), Counted(counts, s);
      a <= |rest| && Counted(counts, Window(counts, orphan, s, m)) == rest[a..]
  {
    var p := WindowKeepsSuffix(counts, orphan, s, m);
  }

  /** The smaller cut, made in two steps. */
  lemma CutTwice<T>(orphan: T -> bool, rest: seq<T>, m: nat, n: nat)
    requires 1 <= n <= m < |rest|
    ensures var a := CutOf(orphan, rest, m);
      a <= |rest| && a + CutOf(orphan, rest[a..], n) == CutOf(orphan, rest, n)
  {
    var a := CutOf(orphan, rest, m);
    CutIsLatest(orphan, rest, m);
    if |rest| - a > n { HeadShift(orphan, rest, a, |rest| - a - n); }
  }

  /** A window of a window is the smaller window. */
  lemma WindowsCompose<T>(counts: T -> bool, orphan: T -> bool, s: seq<T>, m: nat, n: nat)
    requires 1 <= n <= m
    ensures Window(counts, orphan, Window(counts, orphan, s, m), n) == Window(counts, orphan, s, n)
  {
    if |Counted(counts, s)| > m {
      var w := Window(counts, orphan, s, m);
      WindowCounted(counts, orphan, s, m);
      CutTwice(orphan, Counted(counts, s), m, n);
      DropsCompose(counts, orphan, s, w, m, n);
    }
  }

  lemma DropsCompose<T>(counts: T -> bool, orphan: T -> bool, s: seq<T>, w: seq<T>, m: nat, n: nat)
    requires 1 <= n <= m && w == Window(counts, orphan, s, m)
    requires Cut(counts, orphan, s, m) + Cut(counts, orphan, w, n) == Cut(counts, orphan, s, n)
    ensures Window(counts, orphan, w, n) == Window(counts, orphan, s, n)
  {
    WindowDrops(counts, orphan, s, m);
    WindowDrops(counts, orphan, s, n);
    WindowDrops(counts, orphan, w, n);
    DropTwice(counts, s, Cut(counts, orphan, s, m), Cut(counts, orphan, w, n));
  }

  // The three formats

  datatype Message = Message(role: string, blocks: seq<string>, body: string)

  datatype Item = Item(kind: string, body: string)

  /** The input of a Responses request: a text, or items. */
  datatype Input = Plain(text: string) | Items(items: seq<Item>)

  predicate NotSystem(m: Message) { m.role != "system" && m.role != "developer" }

  predicate ToolTurn(m: Message) { m.role == "tool" || m.role == "function" }

  predicate ClaudeOrphan(m: Message) { m.role != "user" || "tool_result" in m.blocks }

  predicate ToolOutput(i: Item) {
    i.kind == "function_call_output" || i.kind == "computer_call_output" || i.kind == "custom_tool_call_output"
  }

  ghost predicate Range(keep: set<nat>, start: nat, end: nat) { forall i: nat :: i in keep <==> start <= i < end }

  /** The system turns keep their places: the loop with its index of counted messages. */
  method Rebuild<T>(counts: T -> bool, msgs: seq<T>, keep: set<nat>, start: nat) returns (out: seq<T>)
    requires Range(keep, start, |Counted(counts, msgs)|)
    ensures out == Dropped(counts, msgs, start)
  {
    out := [];
    var ri := 0;
    for i := 0 to |msgs|
      invariant ri + |Counted(counts, msgs[i..])| == |Counted(counts, msgs)|
      invariant out + Dropped(counts, msgs[i..], if ri <= start then start - ri else 0) == Dropped(counts, msgs, start)
    {
      var m := msgs[i];
      assert msgs[i..][0] == m && msgs[i..][1..] == msgs[i + 1..];
      if counts(m) {
        ri := ri + 1;
        if ri - 1 !in keep { continue; }
      }
      out := out + [m];
    }
  }

  method ExtendLeft<T>(orphan: T -> bool, rest: seq<T>, n: nat) returns (start: nat)
    requires 1 <= n < |rest|
    ensures start == Head(orphan, rest, |rest| - n)
  {
    start := |rest| - n;
    while start > 0
      invariant start < |rest| && Head(orphan, rest, start) == Head(orphan, rest, |rest| - n)
    {
      if !orphan(rest[start]) { break; }
      start := start - 1;
    }
  }

  method Gather<T>(counts: T -> bool, msgs: seq<T>) returns (rest: seq<T>)
    ensures rest == Counted(counts, msgs)
  {
    rest := [];
    for i := 0 to |msgs|
      invariant rest + Counted(counts, msgs[i..]) == Counted(counts, msgs)
    {
      assert msgs[i..][0] == msgs[i] && msgs[i..][1..] == msgs[i + 1..];
      if counts(msgs[i]) { rest := rest + [msgs[i]]; }
    }
  }

  method KeepFrom(start: nat, end: nat) returns (keep: set<nat>)
    requires start <= end
    ensures Range(keep, start, end)
  {
    keep := {};
    for i := start to end
      invariant Range(keep, start, i)
    {
      keep := keep + {i};
    }
  }

  method WindowAround<T>(counts: T -> bool, orphan: T -> bool, msgs: seq<T>, n: nat) returns (r: seq<T>)
    requires n >= 1
    ensures r == Window(counts, orphan, msgs, n)
  {
    if |msgs| == 0 { return msgs; }
    var rest := Gather(counts, msgs);
    if |rest| <= n { return msgs; }
    var start := ExtendLeft(orphan, rest, n);
    assert start == Cut(counts, orphan, msgs, n);
    var keep := KeepFrom(start, |rest|);
    r := Rebuild(counts, msgs, keep, start);
  }

  method WindowOpenAI(msgs: seq<Message>, n: nat) returns (r: seq<Message>)
    requires n >= 1
    ensures r == Window(NotSystem, ToolTurn, msgs, n)
  {
    r := WindowAround(NotSystem, ToolTurn, msgs, n);
  }

  /** The places from `k` on of turns that are no system turns. */
  ghost function TurnsFrom(msgs: seq<Message>, k: nat): set<nat> {
    set i: nat | k <= i < |msgs| && msgs[i].role != "system" && msgs[i].role != "developer"
  }

  /** The window of a Chat Completions request, by its places: the system and developer turns
      stay, from `p` on everything does, no tool result leads, and `p` is the latest such start
      with `n` other turns. */
  lemma OpenAIWindowKeeps(msgs: seq<Message>, n: nat) returns (at: seq<nat>, p: nat)
    requires n >= 1
    ensures Selects(msgs, Window(NotSystem, ToolTurn, msgs, n), at)
    ensures forall k: nat :: k < |msgs| ==>
      (k in at <==> k >= p || msgs[k].role == "system" || msgs[k].role == "developer")
    ensures p == 0 || (p < |msgs| && |TurnsFrom(msgs, p)| >= n &&
      msgs[p].role !in {"system", "developer", "tool", "function"})
    ensures forall k :: p < k && k in TurnsFrom(msgs, p) && n <= |TurnsFrom(msgs, k)| < |TurnsFrom(msgs, p)| ==>
      msgs[k].role == "tool" || msgs[k].role == "function"
  {
    at, p := WindowPlaces(NotSystem, ToolTurn, msgs, n);
    forall k: nat ensures TurnsFrom(msgs, k) == CountedFrom(NotSystem, msgs, k) { }
  }

  lemma {:induction false} AllCount<T>(counts: T -> bool, s: seq<T>, d: nat)
    requires d <= |s| && forall x :: x in s ==> counts(x)
    ensures Counted(counts, s) == s && Dropped(counts, s, d) == s[d..]
  {
    if s != [] {
      assert s[0] in s;
      AllCount(counts, s[1..], if d > 0 then d - 1 else 0);
    }
  }

  /** Where every message counts the window is a suffix. */
  lemma AllWindow<T>(orphan: T -> bool, s: seq<T>, n: nat)
    requires n >= 1
    ensures Window((x: T) => true, orphan, s, n) == if |s| <= n then s else s[Head(orphan, s, |s| - n)..]
  {
    AllCount((x: T) => true, s, if |s| <= n then 0 else Head(orphan, s, |s| - n));
  }

  /** Whether Anthropic would reject a window with this head: the loop over its blocks. */
  method ClaudeOrphanHead(m: Message) returns (orphan: bool)
    ensures orphan == ClaudeOrphan(m)
  {
    if m.role != "user" { return true; }
    orphan := false;
    for i := 0 to |m.blocks|
      invariant !orphan && "tool_result" !in m.blocks[..i]
    {
      if m.blocks[i] == "tool_result" {
        orphan := true;
        break;
      }
    }
    assert m.blocks[..|m.blocks|] == m.blocks;
  }

  /** The window is what is left from some place on: the first, or that of a user turn without
      a tool result.  No later place with `n` turns is one. */
  method WindowClaude(msgs: seq<Message>, n: nat) returns (r: seq<Message>)
    requires n >= 1
    ensures r == Window((m: Message) => true, ClaudeOrphan, msgs, n)
    ensures |r| <= |msgs| && r == msgs[|msgs| - |r|..] && |r| >= (if n <= |msgs| then n else |msgs|)
    ensures |r| < |msgs| ==> r[0].role == "user" && "tool_result" !in r[0].blocks
    ensures forall k :: |msgs| - |r| < k <= |msgs| - n ==> msgs[k].role != "user" || "tool_result" in msgs[k].blocks
  {
    AllWindow(ClaudeOrphan, msgs, n);
    if |msgs| > n { HeadIsLatest(ClaudeOrphan, msgs, |msgs| - n); }
    if |msgs| <= n { return msgs; }
    var start := |msgs| - n;
    while start > 0
      invariant 0 <= start < |msgs| && Head(ClaudeOrphan, msgs, start) == Head(ClaudeOrphan, msgs, |msgs| - n)
    {
      var orphan := ClaudeOrphanHead(msgs[start]);
      if !orphan { break; }
      start := start - 1;
    }
    r := msgs[start..];
  }

  ghost predicate OutputKind(kind: string) {
    || kind == "function_call_output"
    || kind == "computer_call_output"
    || kind == "custom_tool_call_output"
  }

  ghost predicate ItemsWindow(items: seq<Item>, r: seq<Item>, n: nat)
    requires n >= 1
  {
    && |r| <= |items| && r == items[|items| - |r|..] && |r| >= (if n <= |items| then n else |items|)
    && (|r| < |items| ==> !OutputKind(r[0].kind))
    && forall k :: |items| - |r| < k <= |items| - n ==> OutputKind(items[k].kind)
  }

  lemma ItemsKept(items: seq<Item>, n: nat)
    requires 1 <= n < |items|
    ensures ItemsWindow(items, items[Head(ToolOutput, items, |items| - n)..], n)
  {
    HeadIsLatest(ToolOutput, items, |items| - n);
  }

  function WindowInput(input: Input, n: nat): Input
    requires n >= 1
  {
    match input
    case Plain(_) => input
    case Items(items) => Items(Window((i: Item) => true, ToolOutput, items, n))
  }

  /** A text input stays; of items, what is left from some place on: the first, or that of an
      item that is no tool output.  No later place with `n` items is one. */
  method WindowOpenAIResponse(input: Input, n: nat) returns (r: Input)
    requires n >= 1
    ensures r == WindowInput(input, n)
    ensures input.Plain? ==> r == input
    ensures input.Items? ==> r.Items? && ItemsWindow(input.items, r.items, n)
  {
    if !input.Items? { return input; }
    var arr := input.items;
    if |arr| <= n {
      AllWindow(ToolOutput, arr, n);
      return input;
    }
    var start := ExtendLeft(ToolOutput, arr, n);
    ItemsKept(arr, n);
    AllWindow(ToolOutput, arr, n);
    r := Items(arr[start..]);
  }
}
