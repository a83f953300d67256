/** The interrupt bus of plugin/bus.go: recalled text staged per scope until the next
    request takes it. */
module Bus {
  import opened Bytes

  const MAX_BUS_SCOPES := 256
  const MAX_BUS_BLOCK := 16 * 1024

  /** Staging appends to what is there, keeping the newest tail. */
  function Merged(staged: map<string, seq<byte>>, scope: string, block: seq<byte>): seq<byte> {
    if scope in staged && staged[scope] != [] then Tail(staged[scope] + [NEWLINE] + block, MAX_BUS_BLOCK)
    else Tail(block, MAX_BUS_BLOCK)
  }

  /** `part` is what the bus keeps of `all`: its newest bytes, and all of it if that fits. */
  ghost predicate Keeps(part: seq<byte>, all: seq<byte>) {
    && IsSuffix(part, all) && |part| <= 16_384
    && (|all| <= 16_384 ==> part == all)
    && (IsUtf8(all) ==> IsUtf8(part))
  }

  /** The newline-join of what was staged before and one more block. */
  ghost function Joined(joined: map<string, seq<byte>>, scope: string, block: seq<byte>): seq<byte> {
    if scope in joined then joined[scope] + [NEWLINE] + block else block
  }

  lemma SuffixAppends(part: seq<byte>, all: seq<byte>, more: seq<byte>)
    requires IsSuffix(part, all)
    ensures IsSuffix(part + more, all + more)
  {
  }

  lemma SuffixTrans(a: seq<byte>, b: seq<byte>, c: seq<byte>)
    requires IsSuffix(a, b) && IsSuffix(b, c)
    ensures IsSuffix(a, c)
  {
  }

  lemma Utf8Concat(a: seq<byte>, b: seq<byte>)
    requires IsUtf8(a) && IsUtf8(b)
    ensures IsUtf8(a + b)
  {
    var s :| Encode(s) == a;
    var t :| Encode(t) == b;
    EncodeSplit(s + t, |s|);
    assert (s + t)[..|s|] == s && (s + t)[|s|..] == t;
  }

  /** A join is valid text exactly when its parts are. */
  lemma Utf8Join(a: seq<byte>, b: seq<byte>)
    ensures IsUtf8(a + [NEWLINE] + b) <==> IsUtf8(a) && IsUtf8(b)
  {
    var all := a + [NEWLINE] + b;
    assert all[..|a|] == a && all[|a| + 1..] == b;
    if IsUtf8(all) {
      Utf8Pieces(all, |a|);
      var s :| Encode(s) == all;
      AfterAscii(s, |a|);
      Utf8Pieces(all, |a| + 1);
    }
    if IsUtf8(a) && IsUtf8(b) {
      EncodeOne(10 as char);
      assert Encode([10 as char]) == [NEWLINE];
      Utf8Concat(a, [NEWLINE]);
      Utf8Concat(a + [NEWLINE], b);
    }
  }

  lemma CutKeeps(longer: seq<byte>, all: seq<byte>)
    requires IsSuffix(longer, all) && (|all| <= 16_384 ==> longer == all) && (IsUtf8(all) ==> IsUtf8(longer))
    ensures Keeps(Tail(longer, MAX_BUS_BLOCK), all)
  {
    TailIsCleanSuffix(longer, MAX_BUS_BLOCK);
    SuffixTrans(Tail(longer, MAX_BUS_BLOCK), longer, all);
  }

  /** What is kept of a join, extended by a block and cut again, is what the bus should
      keep of the longer join. */
  lemma MergeKeeps(part: seq<byte>, all: seq<byte>, block: seq<byte>)
    requires Keeps(part, all) && all != []
    ensures var longer := if part != [] then part + [NEWLINE] + block else block;
      Keeps(Tail(longer, MAX_BUS_BLOCK), all + [NEWLINE] + block)
  {
    Utf8Join(all, block);
    Utf8Join(part, block);
    SuffixAppends(part, all, [NEWLINE] + block);
    assert part + [NEWLINE] + block == part + ([NEWLINE] + block);
    assert all + [NEWLINE] + block == all + ([NEWLINE] + block);
    CutKeeps(if part != [] then part + [NEWLINE] + block else block, all + [NEWLINE] + block);
  }

  ghost predicate Kept(staged: map<string, seq<byte>>, joined: map<string, seq<byte>>) {
    staged.Keys == joined.Keys && forall k :: k in staged ==> joined[k] != [] && Keeps(staged[k], joined[k])
  }

  /** Merging a block keeps every entry what the bus should keep. */
  lemma MergedKeeps(staged: map<string, seq<byte>>, joined: map<string, seq<byte>>, scope: string, block: seq<byte>)
    requires Kept(staged, joined) && block != []
    ensures Kept(staged[scope := Merged(staged, scope, block)], joined[scope := Joined(joined, scope, block)])
  {
    if scope in staged { MergeKeeps(staged[scope], joined[scope], block); } else { CutKeeps(block, block); }
    assert Keeps(Merged(staged, scope, block), Joined(joined, scope, block));
  }

  /** Dropping a scope's block leaves the others as they are, and the bus within its bounds. */
  lemma DropKeeps(staged: map<string, seq<byte>>, joined: map<string, seq<byte>>, scope: string)
    requires |staged| <= MAX_BUS_SCOPES && Kept(staged, joined)
    ensures |staged - {scope}| <= MAX_BUS_SCOPES && Kept(staged - {scope}, joined - {scope})
  {
    if scope in staged { RemoveSize(staged, scope); } else { assert staged - {scope} == staged; }
  }

  class InterruptBus {
    var staged: map<string, seq<byte>>
    /** For each staged scope, the newline-join of all blocks staged for it since it was
        last taken, dropped or evicted. */
    ghost var joined: map<string, seq<byte>>

    ghost predicate Valid()
      reads this
    {
      |staged| <= 256 && Kept(staged, joined)
    }

    constructor ()
      ensures Valid() && staged == map[] && joined == map[]
    {
      staged, joined := map[], map[];
    }

    /** The block is appended; scopes beyond the limit are evicted, never the one staged. */
    method Stage(scope: string, block: seq<byte>)
      requires Valid()
      modifies this
      ensures Valid()
      ensures scope == "" || block == [] ==> staged == old(staged) && joined == old(joined)
      ensures scope != "" && block != [] ==>
        && scope in staged && staged[scope] == Merged(old(staged), scope, block)
        && joined[scope] == Joined(old(joined), scope, block)
        && (forall k :: k in staged && k != scope ==>
              k in old(staged) && staged[k] == old(staged)[k] && joined[k] == old(joined)[k])
        && (scope in old(staged) || |old(staged)| < 256 ==> staged.Keys == old(staged).Keys + {scope})
        && (scope !in old(staged) && |old(staged)| == 256 ==> |staged| == 256)
    {
      if scope == "" || block == [] { return; }
      Append(scope, block);
      assert scope in old(staged) || |old(staged)| < 256 ==> |staged| <= MAX_BUS_SCOPES;
      EvictOthers(scope);
    }

    method Append(scope: string, block: seq<byte>)
      requires Valid() && block != []
      modifies this
      ensures Kept(staged, joined) && |staged| <= MAX_BUS_SCOPES + 1
      ensures |staged| == if scope in old(staged) then |old(staged)| else |old(staged)| + 1
      ensures staged == old(staged)[scope := Merged(old(staged), scope, block)]
      ensures joined == old(joined)[scope := Joined(old(joined), scope, block)]
    {
      var longer := block;
      if scope in staged && staged[scope] != [] { longer := staged[scope] + [NEWLINE] + block; }
      var cut := TailBytes(longer, MAX_BUS_BLOCK);
      MergedKeeps(staged, joined, scope, block);
      AddSize(staged, scope, cut);
      joined := joined[scope := Joined(joined, scope, block)];
      staged := staged[scope := cut];
    }

    method EvictOthers(scope: string)
      requires Kept(staged, joined) && scope in staged && |staged| <= MAX_BUS_SCOPES + 1
      modifies this
      ensures Valid() && scope in staged
      ensures forall k :: k in staged ==> k in old(staged) && staged[k] == old(staged)[k] && joined[k] == old(joined)[k]
      ensures |old(staged)| <= MAX_BUS_SCOPES ==> staged == old(staged)
      ensures |old(staged)| > MAX_BUS_SCOPES ==> |staged| == MAX_BUS_SCOPES
    {
      while |staged| > MAX_BUS_SCOPES
        invariant scope in staged && staged.Keys == joined.Keys && |staged| <= MAX_BUS_SCOPES + 1
        invariant forall k :: k in staged ==>
          k in old(staged) && staged[k] == old(staged)[k] && joined[k] == old(joined)[k]
        invariant |old(staged)| <= MAX_BUS_SCOPES ==> staged == old(staged)
        invariant |staged| >= MAX_BUS_SCOPES || staged == old(staged)
      {
        Another(staged, scope);
        var k :| k in staged && k != scope;
        RemoveSize(staged, k);
        staged, joined := staged - {k}, joined - {k};
      }
    }

    method Take(scope: string) returns (block: seq<byte>)
      requires Valid()
      modifies this
      ensures Valid()
      ensures block == if scope != "" && scope in old(staged) then old(staged)[scope] else []
      ensures scope in old(staged) && scope != "" ==> Keeps(block, old(joined)[scope])
      ensures scope != "" ==> staged == old(staged) - {scope} && joined == old(joined) - {scope}
      ensures scope == "" ==> staged == old(staged) && joined == old(joined)
    {
      if scope == "" { return []; }
      block := if scope in staged then staged[scope] else [];
      DropKeeps(staged, joined, scope);
      staged, joined := staged - {scope}, joined - {scope};
    }

    method Drop(scope: string)
      modifies this
      ensures staged == old(staged) - ({scope} - {""}) && joined == old(joined) - ({scope} - {""})
    {
      if scope == "" {
        NothingRemoved(staged);
        NothingRemoved(joined);
        return;
      }
      assert {scope} - {""} == {scope};
      staged, joined := staged - {scope}, joined - {scope};
    }

    method Clear()
      modifies this
      ensures Valid() && staged == map[] && joined == map[]
    {
      staged, joined := map[], map[];
    }
  }

  lemma AddSize<V>(m: map<string, V>, key: string, v: V)
    ensures |m[key := v]| == if key in m then |m| else |m| + 1
  {
    assert m[key := v].Keys == m.Keys + {key};
  }

  lemma NothingRemoved<V>(m: map<string, V>)
    ensures m - ({""} - {""}) == m
  {
  }

  lemma RemoveSize<V>(m: map<string, V>, key: string)
    requires key in m
    ensures |m - {key}| == |m| - 1
  {
    assert (m - {key}).Keys == m.Keys - {key};
  }

  /** A map with two keys or more has a key other than any given one. */
  lemma Another<V>(m: map<string, V>, key: string)
    requires |m| > 1
    ensures exists k :: k in m && k != key
  {
    if forall k :: k in m ==> k == key {
      assert m.Keys <= {key};
      Subset(m.Keys, {key});
    }
  }

  lemma Subset<T>(a: set<T>, b: set<T>)
    requires a <= b
    ensures |a| <= |b|
  {
    if a != {} {
      var x :| x in a;
      Subset(a - {x}, b - {x});
    }
  }
}
