/** The bookkeeping behind `engines` and `order`: at most one engine per scope, listed
    from least to most recently used.  These are the values that the critical sections
    of the store compute; the class in Store.dfy is proved against them. */
module EngineTable {

  const MAX_ENGINES := 64

  datatype Table<H> = Table(engines: map<string, H>, order: seq<string>)

  /** An engine taken out of the table and waiting to be closed. */
  datatype Doomed<H> = Doomed(key: string, eng: H)

  ghost predicate NoDup<T>(s: seq<T>) {
    forall i, j :: 0 <= i < j < |s| ==> s[i] != s[j]
  }

  /** `order` lists the keys of `engines`, each once. */
  ghost predicate TableOk<H>(tab: Table<H>) {
    && NoDup(tab.order)
    && (forall k :: k in tab.order <==> k in tab.engines)
  }

  function Empty<H>(): Table<H> { Table(map[], []) }

  /** `s` without the first occurrence of `x`. */
  function Without<T(==)>(s: seq<T>, x: T): seq<T> {
    if s == [] then [] else if s[0] == x then s[1..] else [s[0]] + Without(s[1..], x)
  }

  function Bump<H>(tab: Table<H>, key: string): Table<H> {
    tab.(order := Without(tab.order, key) + [key])
  }

  function Insert<H>(tab: Table<H>, key: string, h: H): Table<H> {
    Table(tab.engines[key := h], tab.order + [key])
  }

  /** The least recently used entry leaves the table. */
  function DropOldest<H>(tab: Table<H>): Table<H>
    requires tab.order != []
  {
    Table(tab.engines - {tab.order[0]}, tab.order[1..])
  }

  function OldestEntry<H>(tab: Table<H>): seq<Doomed<H>>
    requires tab.order != []
  {
    if tab.order[0] in tab.engines then [Doomed(tab.order[0], tab.engines[tab.order[0]])] else []
  }

  function Shrunk<H>(tab: Table<H>): Table<H>
    decreases |tab.order|
  {
    if |tab.order| <= MAX_ENGINES then tab else Shrunk(DropOldest(tab))
  }

  function Evicted<H>(tab: Table<H>): seq<Doomed<H>>
    decreases |tab.order|
  {
    if |tab.order| <= MAX_ENGINES then [] else OldestEntry(tab) + Evicted(DropOldest(tab))
  }

  /** The keys that leave the order list. */
  function EvictedKeys<H>(tab: Table<H>): set<string>
    decreases |tab.order|
  {
    if |tab.order| <= MAX_ENGINES then {} else {tab.order[0]} + EvictedKeys(DropOldest(tab))
  }

  ghost predicate NoDupKeys<H>(doomed: seq<Doomed<H>>) {
    forall i, j :: 0 <= i < j < |doomed| ==> doomed[i].key != doomed[j].key
  }

  ghost predicate HasKey<H>(doomed: seq<Doomed<H>>, key: string) {
    exists i :: 0 <= i < |doomed| && doomed[i].key == key
  }

  /** `doomed` lists the entries of `engines`, each once, in some order. */
  ghost predicate Lists<H>(doomed: seq<Doomed<H>>, engines: map<string, H>) {
    && NoDupKeys(doomed)
    && (forall i :: 0 <= i < |doomed| ==> doomed[i].key in engines && engines[doomed[i].key] == doomed[i].eng)
    && (forall k :: k in engines ==> HasKey(doomed, k))
  }

  lemma {:induction false} WithoutElements<T>(s: seq<T>, x: T)
    requires NoDup(s)
    ensures NoDup(Without(s, x))
    ensures forall y :: y in Without(s, x) <==> y in s && y != x
    ensures |Without(s, x)| == if x in s then |s| - 1 else |s|
  {
    if s != [] {
      var rest := s[1..];
      assert s == [s[0]] + rest && s[0] !in rest;
      if s[0] != x {
        WithoutElements(rest, x);
        assert s[0] !in Without(rest, x);
      }
    }
  }

  /** A hit moves the key to the most recently used end and changes nothing else. */
  lemma BumpKeepsTable<H>(tab: Table<H>, key: string)
    requires TableOk(tab) && key in tab.engines
    ensures TableOk(Bump(tab, key)) && |Bump(tab, key).order| == |tab.order|
    ensures Bump(tab, key).engines == tab.engines
  {
    WithoutElements(tab.order, key);
  }

  /** A hit makes the key the most recently used; the others stay in their order. */
  lemma {:induction false} BumpIsNewest<H>(tab: Table<H>, key: string, i: nat)
    requires i < |tab.order| && tab.order[i] == key && key !in tab.order[..i]
    ensures Bump(tab, key).order == tab.order[..i] + tab.order[i + 1..] + [key]
  {
    WithoutAt(tab.order, key, i);
  }

  lemma {:induction false} WithoutAt(s: seq<string>, x: string, i: nat)
    requires i < |s| && s[i] == x && x !in s[..i]
    ensures Without(s, x) == s[..i] + s[i + 1..]
  {
    if i > 0 {
      assert s[0] == s[..i][0];
      assert s[1..][..i - 1] == s[..i][1..];
      WithoutAt(s[1..], x, i - 1);
      assert s[..i] + s[i + 1..] == [s[0]] + (s[1..][..i - 1] + s[1..][i..]);
    }
  }

  lemma InsertKeepsTable<H>(tab: Table<H>, key: string, h: H)
    requires TableOk(tab) && key !in tab.engines
    ensures TableOk(Insert(tab, key, h))
  {
  }

  lemma DropOldestKeepsTable<H>(tab: Table<H>)
    requires TableOk(tab) && tab.order != []
    ensures TableOk(DropOldest(tab))
  {
    var rest := tab.order[1..];
    assert tab.order == [tab.order[0]] + rest;
    assert tab.order[0] !in rest;
  }

  lemma HasKeyCons<H>(d: Doomed<H>, tail: seq<Doomed<H>>, key: string)
    ensures HasKey([d] + tail, key) <==> d.key == key || HasKey(tail, key)
  {
    var all := [d] + tail;
    assert all[0] == d && forall i :: 0 <= i < |tail| ==> all[i + 1] == tail[i];
    if HasKey(all, key) && d.key != key {
      var i :| 0 <= i < |all| && all[i].key == key;
      assert tail[i - 1].key == key;
    }
  }

  /** The last 64, or all there are. */
  function Newest(order: seq<string>): seq<string> { order[if |order| <= 64 then 0 else |order| - 64..] }

  /** Eviction keeps exactly the 64 most recently used entries, in order. */
  lemma {:induction false} EvictionKeepsNewest<H>(tab: Table<H>)
    requires TableOk(tab)
    ensures TableOk(Shrunk(tab))
    ensures Shrunk(tab).order == Newest(tab.order)
    decreases |tab.order|
  {
    if |tab.order| > MAX_ENGINES {
      DropOldestKeepsTable(tab);
      EvictionKeepsNewest(DropOldest(tab));
    }
  }

  ghost predicate Splits<H>(tab: Table<H>, kept: Table<H>, doomed: seq<Doomed<H>>) {
    && NoDupKeys(doomed)
    && (forall k :: k in kept.engines ==> k in tab.engines && kept.engines[k] == tab.engines[k])
    && (forall k :: k in tab.engines ==> (k in kept.engines <==> !HasKey(doomed, k)))
    && (forall i :: 0 <= i < |doomed| ==>
          doomed[i].key in tab.engines && tab.engines[doomed[i].key] == doomed[i].eng)
  }

  /** Whatever the table, eviction leaves the end of its order. */
  lemma {:induction false} ShrunkIsNewest<H>(tab: Table<H>)
    ensures Shrunk(tab).order == Newest(tab.order)
    decreases |tab.order|
  {
    if |tab.order| > MAX_ENGINES { ShrunkIsNewest(DropOldest(tab)); }
  }

  /** Eviction loses no engine: each entry either stays as it was or is doomed, once. */
  lemma {:induction false} EvictionSplitsTable<H>(tab: Table<H>)
    requires TableOk(tab)
    ensures Splits(tab, Shrunk(tab), Evicted(tab))
    decreases |tab.order|
  {
    if |tab.order| > MAX_ENGINES {
      DropOldestKeepsTable(tab);
      EvictionSplitsTable(DropOldest(tab));
      SplitsCons(tab, Shrunk(DropOldest(tab)), Evicted(DropOldest(tab)));
    }
  }

  lemma SplitsCons<H>(tab: Table<H>, kept: Table<H>, tail: seq<Doomed<H>>)
    requires TableOk(tab) && tab.order != []
    requires Splits(DropOldest(tab), kept, tail)
    ensures Splits(tab, kept, OldestEntry(tab) + tail)
  {
    var k0 := tab.order[0];
    assert k0 in tab.order;
    var d := Doomed(k0, tab.engines[k0]);
    var all := [d] + tail;
    assert OldestEntry(tab) + tail == all;
    assert forall i :: 0 <= i < |tail| ==> tail[i].key in DropOldest(tab).engines;
    forall k | k in tab.engines ensures k in kept.engines <==> !HasKey(all, k) {
      HasKeyCons(d, tail, k);
    }
  }

  /** The keys evicted are those of the doomed engines. */
  lemma {:induction false} EvictedKeysAreDoomed<H>(tab: Table<H>, k: string)
    requires TableOk(tab)
    ensures k in EvictedKeys(tab) <==> HasKey(Evicted(tab), k)
    decreases |tab.order|
  {
    if |tab.order| > MAX_ENGINES {
      var k0 := tab.order[0];
      assert k0 in tab.order;
      DropOldestKeepsTable(tab);
      EvictedKeysAreDoomed(DropOldest(tab), k);
      HasKeyCons(Doomed(k0, tab.engines[k0]), Evicted(DropOldest(tab)), k);
    }
  }

  /** The key just inserted is the most recently used, so eviction never takes it. */
  lemma InsertedSurvives<H>(tab: Table<H>, key: string, h: H)
    requires TableOk(tab) && key !in tab.engines
    ensures key in Shrunk(Insert(tab, key, h)).engines
    ensures Shrunk(Insert(tab, key, h)).engines[key] == h
    ensures !HasKey(Evicted(Insert(tab, key, h)), key)
  {
    var t1 := Insert(tab, key, h);
    InsertKeepsTable(tab, key, h);
    EvictionKeepsNewest(t1);
    EvictionSplitsTable(t1);
    var o := Shrunk(t1).order;
    assert o[|o| - 1] == key;
    assert key in o;
  }

  // Hits and installs in a row

  /** Engines opened for scopes that are not in the table, each installed and the oldest evicted. */
  function Installs<H>(tab: Table<H>, news: seq<(string, H)>): Table<H> {
    if news == [] then tab
    else
      var (key, h) := news[|news| - 1];
      Shrunk(Insert(Installs(tab, news[..|news| - 1]), key, h))
  }

  ghost predicate AllMisses<H>(tab: Table<H>, news: seq<(string, H)>) {
    forall i :: 0 <= i < |news| ==> news[i].0 !in Installs(tab, news[..i]).engines
  }

  function NewKeys<H>(news: seq<(string, H)>): seq<string> {
    if news == [] then [] else NewKeys(news[..|news| - 1]) + [news[|news| - 1].0]
  }

  lemma {:induction false} NewKeysAt<H>(news: seq<(string, H)>)
    ensures |NewKeys(news)| == |news| && forall i :: 0 <= i < |news| ==> NewKeys(news)[i] == news[i].0
  {
    if news != [] { NewKeysAt(news[..|news| - 1]); }
  }

  lemma NewestOnce(a: seq<string>, key: string)
    ensures Newest(Newest(a) + [key]) == Newest(a + [key])
  {
  }

  lemma InstallOne<H>(t: Table<H>, key: string, h: H)
    requires TableOk(t) && key !in t.engines
    ensures var t' := Shrunk(Insert(t, key, h)); TableOk(t') && t'.order == Newest(t.order + [key])
  {
    InsertKeepsTable(t, key, h);
    EvictionKeepsNewest(Insert(t, key, h));
  }

  lemma MissesBefore<H>(tab: Table<H>, news: seq<(string, H)>)
    requires AllMisses(tab, news) && news != []
    ensures AllMisses(tab, news[..|news| - 1])
  {
    assert forall i :: 0 <= i < |news| - 1 ==> news[..i] == news[..|news| - 1][..i];
  }

  /** Whatever is installed, the order is the 64 scopes used last. */
  lemma {:induction false} InstallsKeepNewest<H>(tab: Table<H>, news: seq<(string, H)>)
    requires TableOk(tab) && |tab.order| <= 64 && AllMisses(tab, news)
    ensures TableOk(Installs(tab, news)) && Installs(tab, news).order == Newest(tab.order + NewKeys(news))
  {
    if news == [] {
      assert tab.order + NewKeys(news) == tab.order;
    } else {
      var init, last := news[..|news| - 1], news[|news| - 1];
      MissesBefore(tab, news);
      InstallsKeepNewest(tab, init);
      InstallOne(Installs(tab, init), last.0, last.1);
      NewestOnce(tab.order + NewKeys(init), last.0);
      assert tab.order + NewKeys(news) == tab.order + NewKeys(init) + [last.0];
    }
  }

  lemma NewestHas(all: seq<string>, key: string, at: nat)
    requires at < |all| && all[at] == key && forall j :: 0 <= j < |all| && j != at ==> all[j] != key
    ensures key in Newest(all) <==> |all| - at <= 64
  {
    var n := |all| - |Newest(all)|;
    assert forall j :: 0 <= j < |Newest(all)| ==> Newest(all)[j] == all[n + j];
    if |all| - at <= 64 { assert Newest(all)[at - n] == key; }
  }

  lemma HitIsLast<H>(tab: Table<H>, key: string)
    requires TableOk(tab) && key in tab.engines
    ensures var o := Bump(tab, key).order; o != [] && o[|o| - 1] == key && key !in o[..|o| - 1]
  {
    var i :| 0 <= i < |tab.order| && tab.order[i] == key;
    assert key !in tab.order[..i] && key !in tab.order[i + 1..];
    BumpIsNewest(tab, key, i);
    assert Bump(tab, key).order[..|tab.order| - 1] == tab.order[..i] + tab.order[i + 1..];
  }

  /** A scope just hit survives the next 63 installs of other scopes, and not one more. */
  lemma HitSurvives<H>(tab: Table<H>, key: string, news: seq<(string, H)>)
    requires TableOk(tab) && |tab.order| <= 64 && key in tab.engines && AllMisses(Bump(tab, key), news)
    requires forall i :: 0 <= i < |news| ==> news[i].0 != key
    ensures key in Installs(Bump(tab, key), news).engines <==> |news| <= 63
  {
    var t := Bump(tab, key);
    BumpKeepsTable(tab, key);
    HitIsLast(tab, key);
    InstallsKeepNewest(t, news);
    NewKeysAt(news);
    var all, at := t.order + NewKeys(news), |t.order| - 1;
    assert forall j :: 0 <= j < at ==> all[j] == t.order[..at][j];
    NewestHas(all, key, at);
  }
}
