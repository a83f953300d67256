/** The store of plugin/store.go.  Each method is one critical section under `s.mu`, or one of
    its loops, and is proved to compute what the state machines of the other modules step by. */
module Stores {
  import opened Bus
  import opened Configs
  import opened EngineTable
  import opened StubEngines
  import opened Wrappers
  import B = Bytes
  import C = Cadence
  import K = ScopeKeys
  import S = Claims

  /** A close channel, by the order in which it was made. */
  type Gate = nat

  /** The background consolidation of one scope. */
  class ConsolState {
    var running: bool
    var pending: bool

    constructor ()
      ensures !running && !pending
    {
      running, pending := false, false;
    }
  }

  type Batch = seq<Doomed<StubEngine>>

  /** The bookkeeping that goes with an engine. */
  datatype Books = Books(
    seen: map<string, set<string>>,
    seenOrder: map<string, seq<string>>,
    writes: map<string, int>,
    writesTotal: map<string, int>,
    lastConsolidate: map<string, int>,
    consol: map<string, ConsolState>)

  const NO_BOOKS := Books(map[], map[], map[], map[], map[], map[])

  function Less(b: Books, keys: set<string>): Books {
    Books(b.seen - keys, b.seenOrder - keys, b.writes - keys, b.writesTotal - keys, b.lastConsolidate - keys,
      b.consol - keys)
  }

  lemma LessMapTwice<V>(m: map<string, V>, a: set<string>, b: set<string>)
    ensures m - a - b == m - (a + b) && m - {} == m
  {
  }

  lemma LessTwice(x: Books, a: set<string>, b: set<string>)
    ensures Less(Less(x, a), b) == Less(x, a + b) && Less(x, {}) == x
  {
    LessMapTwice(x.seen, a, b);
    LessMapTwice(x.seenOrder, a, b);
    LessMapTwice(x.writes, a, b);
    LessMapTwice(x.writesTotal, a, b);
    LessMapTwice(x.lastConsolidate, a, b);
    LessMapTwice(x.consol, a, b);
  }

  function Get<V>(m: map<string, V>, key: string, default_: V): V { if key in m then m[key] else default_ }

  function KeysOf(doomed: Batch): set<string> { set i | 0 <= i < |doomed| :: doomed[i].key }

  /** Where an engine opened against `cfg` ends up. */
  datatype Installed = Refused | Stale | Serving

  class Store {
    var cfg: Config
    var closed: bool
    var closeWg: int
    var engines: map<string, StubEngine>
    var order: seq<string>
    var seen: map<string, set<string>>
    var seenOrder: map<string, seq<string>>
    var writes: map<string, int>
    var writesTotal: map<string, int>
    var lastConsolidate: map<string, int>
    var consol: map<string, ConsolState>
    var closings: map<string, Gate>
    /** How many channels have been made, and which have been closed. */
    var gates: nat
    var shut: set<Gate>
    var respScope: map<string, K.Entry>
    var respOrder: seq<string>
    const bus: InterruptBus

    constructor (cfg: Config, bus: InterruptBus)
      ensures this.cfg == cfg && this.bus == bus && !closed && closeWg == 0
      ensures Tab() == Empty() && closings == map[] && consol == map[]
    {
      this.cfg, this.bus, closed, closeWg := cfg, bus, false, 0;
      engines, order, closings, consol := map[], [], map[], map[];
      gates, shut := 0, {};
      seen, seenOrder := map[], map[];
      writes, writesTotal, lastConsolidate := map[], map[], map[];
      respScope, respOrder := map[], [];
    }

    ghost function Tab(): Table<StubEngine>
      reads `engines, `order
    {
      Table(engines, order)
    }

    // ForScope: a hit

    /** The loop that moves a key to the most recently used end. */
    method BumpOrder(key: string)
      modifies `order
      ensures order == Without(old(order), key) + [key]
    {
      for i := 0 to |order|
        invariant order == old(order) && Without(order, key) == order[..i] + Without(order[i..], key)
      {
        if order[i] == key {
          order := order[..i] + order[i + 1..];
          break;
        }
        assert order[..i + 1] == order[..i] + [order[i]];
      }
      order := order + [key];
    }

    method LookUp(key: string) returns (eng: Option<StubEngine>)
      modifies `order
      ensures eng == if key in engines then Some(engines[key]) else None
      ensures Tab() == if key in engines then Bump(old(Tab()), key) else old(Tab())
      ensures key in engines ==>
        forall i :: 0 <= i < |old(order)| && old(order)[i] == key && key !in old(order)[..i] ==>
          order == old(order)[..i] + old(order)[i + 1..] + [key]
    {
      if key in engines {
        ghost var before := Tab();
        BumpOrder(key);
        forall i | 0 <= i < |before.order| && before.order[i] == key && key !in before.order[..i]
          ensures order == before.order[..i] + before.order[i + 1..] + [key]
        {
          BumpIsNewest(before, key, i);
        }
        return Some(engines[key]);
      }
      eng := None;
    }

    // Bookkeeping

    ghost function Kept(): Books
      reads `seen, `seenOrder, `writes, `writesTotal, `lastConsolidate, `consol
    {
      Books(seen, seenOrder, writes, writesTotal, lastConsolidate, consol)
    }

    method Forget(key: string)
      modifies `seen, `seenOrder, `writes, `writesTotal, `lastConsolidate, `consol, bus
      ensures Cleared({key}, old(Kept()), old(bus.staged))
    {
      seen, seenOrder := seen - {key}, seenOrder - {key};
      writes, writesTotal, lastConsolidate := writes - {key}, writesTotal - {key}, lastConsolidate - {key};
      consol := consol - {key};
      bus.Drop(key);
    }

    // Close channels

    /** Every pending channel is open and stands for one scope. */
    ghost predicate GatesOk()
      reads `closings, `gates, `shut
    {
      && (forall k :: k in closings ==> closings[k] < gates && closings[k] !in shut)
      && (forall g :: g in shut ==> g < gates)
      && (forall j, k :: j in closings && k in closings && closings[j] == closings[k] ==> j == k)
    }

    method Pend(key: string)
      requires GatesOk()
      modifies `closings, `gates
      ensures GatesOk() && gates == old(gates) + 1 && closings == old(closings)[key := old(gates)]
    {
      closings, gates := closings[key := gates], gates + 1;
    }

    // ForScope: the table is full

    /** Nothing is left of the scopes `keys` but the channels. */
    ghost predicate Cleared(keys: set<string>, books: Books, staged: map<string, seq<B.byte>>)
      reads `seen, `seenOrder, `writes, `writesTotal, `lastConsolidate, `consol, bus
    {
      Kept() == Less(books, keys) && bus.staged == staged - (keys - {""})
    }

    /** The eviction loop. */
    method EvictOldest() returns (doomed: Batch)
      requires GatesOk()
      modifies `engines, `order, `seen, `seenOrder, `writes, `writesTotal, `lastConsolidate
      modifies `consol, `closings, `gates, bus
      ensures Tab() == Shrunk(old(Tab())) && doomed == Evicted(old(Tab()))
      ensures GatesOk() && GatesFor(closings, gates, KeysOf(doomed), old(closings), old(gates))
      ensures Cleared(EvictedKeys(old(Tab())), old(Kept()), old(bus.staged))
    {
      doomed := [];
      ghost var dropped: set<string> := {};
      ClearNothing(Kept(), bus.staged);
      while |order| > MAX_ENGINES
        invariant Shrunk(Tab()) == Shrunk(old(Tab())) && doomed + Evicted(Tab()) == Evicted(old(Tab()))
        invariant GatesOk() && GatesFor(closings, gates, KeysOf(doomed), old(closings), old(gates))
        invariant Cleared(dropped, old(Kept()), old(bus.staged))
        invariant dropped + EvictedKeys(Tab()) == EvictedKeys(old(Tab()))
        decreases |order|
      {
        EvictStep(doomed, Tab());
        EvictKeyStep(dropped, Tab());
        ghost var closings0, gates0 := closings, gates;
        var more, oldest := EvictOne();
        ClearMore(old(Kept()), old(bus.staged), dropped, oldest);
        GatesMore(closings0, gates0, closings, gates, doomed, more, oldest, old(closings), old(gates));
        doomed, dropped := doomed + more, dropped + {oldest};
      }
    }

    method EvictOne() returns (doomed: Batch, oldest: string)
      requires GatesOk() && order != []
      modifies `engines, `order, `seen, `seenOrder, `writes, `writesTotal, `lastConsolidate
      modifies `consol, `closings, `gates, bus
      ensures Tab() == DropOldest(old(Tab())) && doomed == OldestEntry(old(Tab())) && oldest == old(order)[0]
      ensures GatesOk() && gates == old(gates) + |doomed|
      ensures closings == if doomed == [] then old(closings) else old(closings)[oldest := old(gates)]
      ensures Cleared({oldest}, old(Kept()), old(bus.staged))
    {
      oldest := order[0];
      doomed := PopOldest();
      if doomed != [] { Pend(oldest); }
      Forget(oldest);
    }

    method PopOldest() returns (doomed: Batch)
      requires order != []
      modifies `engines, `order
      ensures Tab() == DropOldest(old(Tab())) && doomed == OldestEntry(old(Tab()))
    {
      var oldest := order[0];
      order := order[1..];
      doomed := if oldest in engines then [Doomed(oldest, engines[oldest])] else [];
      engines := engines - {oldest};
    }

    /** The section of ForScope that installs an engine opened against `snapshot`. */
    method InstallSection(key: string, eng: StubEngine, snapshot: Config)
      returns (r: Installed, doomed: Batch)
      requires GatesOk()
      modifies `engines, `order, `seen, `seenOrder, `writes, `writesTotal, `lastConsolidate
      modifies `consol, `closings, `gates, bus
      modifies `closeWg
      ensures GatesOk() && r == if closed then Refused else if MaterialChange(snapshot, cfg) then Stale else Serving
      ensures r != Serving ==>
        && Tab() == old(Tab()) && doomed == [] && closings == old(closings) && closeWg == old(closeWg)
        && Kept() == old(Kept()) && bus.staged == old(bus.staged)
      ensures r == Serving ==>
        && Tab() == Shrunk(Insert(old(Tab()), key, eng)) && doomed == Evicted(Insert(old(Tab()), key, eng))
        && GatesFor(closings, gates, KeysOf(doomed), old(closings), old(gates))
        && Cleared(EvictedKeys(Insert(old(Tab()), key, eng)), old(Kept()), old(bus.staged))
        && order == Newest(old(order) + [key])
        && closeWg == old(closeWg) + if doomed == [] then 0 else 1
    {
      if closed { return Refused, []; }
      if MaterialChange(snapshot, cfg) { return Stale, []; }
      r := Serving;
      ShrunkIsNewest(Insert(Tab(), key, eng));
      doomed := Serve(key, eng);
    }

    method Serve(key: string, eng: StubEngine) returns (doomed: Batch)
      requires GatesOk()
      modifies `engines, `order, `seen, `seenOrder, `writes, `writesTotal, `lastConsolidate
      modifies `consol, `closings, `gates, bus
      modifies `closeWg
      ensures Tab() == Shrunk(Insert(old(Tab()), key, eng)) && doomed == Evicted(Insert(old(Tab()), key, eng))
      ensures GatesOk() && GatesFor(closings, gates, KeysOf(doomed), old(closings), old(gates))
      ensures Cleared(EvictedKeys(Insert(old(Tab()), key, eng)), old(Kept()), old(bus.staged))
      ensures closeWg == old(closeWg) + if doomed == [] then 0 else 1
    {
      InsertEngine(key, eng);
      doomed := EvictOldest();
      if |doomed| > 0 { closeWg := closeWg + 1; }
    }

    method InsertEngine(key: string, eng: StubEngine)
      modifies `engines, `order
      ensures Tab() == Insert(old(Tab()), key, eng)
    {
      engines := engines[key := eng];
      order := order + [key];
    }

    // Draining

    /** drainEnginesLocked: every engine is listed, once, and nothing else is left. */
    method DrainEnginesLocked() returns (doomed: Batch)
      requires GatesOk()
      modifies `engines, `order, `seen, `seenOrder, `writes, `writesTotal, `lastConsolidate
      modifies `consol, `closings, `gates, bus
      ensures Lists(doomed, old(engines)) && Tab() == Empty() && Kept() == NO_BOOKS
      ensures GatesOk() && GatesFor(closings, gates, KeysOf(doomed), old(closings), old(gates))
      ensures bus.staged == old(bus.staged) - (KeysOf(doomed) - {""})
    {
      doomed := ListEngines();
      ForgetAll();
    }

    method ForgetAll()
      modifies `engines, `order, `seen, `seenOrder, `writes, `writesTotal, `lastConsolidate, `consol
      ensures Tab() == Empty() && Kept() == NO_BOOKS
    {
      engines, order := map[], [];
      seen, seenOrder := map[], map[];
      writes, writesTotal, lastConsolidate, consol := map[], map[], map[], map[];
    }

    /** The loop over the engines, in the order the map yields them. */
    method ListEngines() returns (doomed: Batch)
      requires GatesOk()
      modifies `closings, `gates, bus
      ensures Lists(doomed, engines)
      ensures GatesOk() && GatesFor(closings, gates, KeysOf(doomed), old(closings), old(gates))
      ensures bus.staged == old(bus.staged) - (KeysOf(doomed) - {""})
    {
      doomed := [];
      ClearNothing(NO_BOOKS, bus.staged);
      var keys := engines.Keys;
      while keys != {}
        invariant keys <= engines.Keys && Listed(doomed, engines, keys)
        invariant GatesOk() && GatesFor(closings, gates, KeysOf(doomed), old(closings), old(gates))
        invariant bus.staged == old(bus.staged) - (KeysOf(doomed) - {""})
        decreases keys
      {
        var k :| k in keys;
        var d := [Doomed(k, engines[k])];
        ListMore(doomed, engines, keys, k);
        ClearMore(NO_BOOKS, old(bus.staged), KeysOf(doomed), k);
        KeysAppend(doomed, d);
        assert KeysOf(d) == {k} by { assert d[0].key == k; }
        GatesMore(closings, gates, closings[k := gates], gates + 1, doomed, d, k, old(closings), old(gates));
        Pend(k);
        bus.Drop(k);
        doomed := doomed + d;
        keys := keys - {k};
      }
    }

    ghost function Chained(): K.Chains
      reads `respScope, `respOrder
    {
      K.Chains(respScope, respOrder)
    }

    method DropChains()
      modifies `respScope, `respOrder
      ensures Chained() == K.NO_CHAINS
    {
      respScope, respOrder := map[], [];
    }

    /** What Reconfigure and DisposeAll have in common. */
    method DrainAll() returns (doomed: Batch)
      requires GatesOk()
      modifies `engines, `order, `seen, `seenOrder, `writes, `writesTotal, `lastConsolidate, `consol, `closings, `gates
      modifies `respScope, `respOrder, bus
      ensures Lists(doomed, old(engines)) && Tab() == Empty() && Kept() == NO_BOOKS && Chained() == K.NO_CHAINS
      ensures GatesOk() && GatesFor(closings, gates, KeysOf(doomed), old(closings), old(gates))
      ensures bus.staged == old(bus.staged) - (KeysOf(doomed) - {""})
    {
      doomed := DrainEnginesLocked();
      DropChains();
    }

    /** The section of Reconfigure; `doomed` is closed detached. */
    method ReconfigureSection(next: Config) returns (doomed: Batch)
      requires GatesOk()
      modifies `cfg, `engines, `order, `seen, `seenOrder, `writes, `writesTotal, `lastConsolidate
      modifies `consol, `closings, `gates
      modifies `respScope, `respOrder, `closeWg, bus
      ensures cfg == next && GatesOk()
      ensures closeWg == old(closeWg) + if doomed == [] then 0 else 1
      ensures MaterialChange(old(cfg), next) ==>
        && Lists(doomed, old(engines)) && Tab() == Empty() && Kept() == NO_BOOKS && Chained() == K.NO_CHAINS
        && GatesFor(closings, gates, KeysOf(doomed), old(closings), old(gates))
        && bus.staged == old(bus.staged) - (KeysOf(doomed) - {""})
      ensures !MaterialChange(old(cfg), next) ==>
        && doomed == [] && Tab() == old(Tab()) && Kept() == old(Kept()) && Chained() == old(Chained())
        && closings == old(closings) && bus.staged == old(bus.staged)
    {
      var material := MaterialChange(cfg, next);
      cfg := next;
      if !material { return []; }
      doomed := DrainAll();
      if |doomed| > 0 { closeWg := closeWg + 1; }
    }

    /** The section of DisposeAll, after `closed` was set. */
    method DisposeSection() returns (doomed: Batch)
      requires GatesOk()
      modifies `engines, `order, `seen, `seenOrder, `writes, `writesTotal, `lastConsolidate, `consol, `closings, `gates
      modifies `respScope, `respOrder, bus
      ensures Lists(doomed, old(engines)) && Tab() == Empty() && Kept() == NO_BOOKS && Chained() == K.NO_CHAINS
      ensures GatesOk() && GatesFor(closings, gates, KeysOf(doomed), old(closings), old(gates))
      ensures bus.staged == map[]
    {
      doomed := DrainAll();
      bus.Clear();
    }

    /** The last section of closeEngines: each scope's channel is taken out and closed.  No
        channel is closed twice, and no other scope's is touched. */
    method SignalSection(doomed: Batch)
      requires GatesOk()
      modifies `closings, `shut
      ensures GatesOk() && closings == old(closings) - KeysOf(doomed)
      ensures forall g :: g in shut <==> g in old(shut) || g in Pending(old(closings), KeysOf(doomed))
    {
      LessMapTwice(closings, {}, {});
      for i := 0 to |doomed|
        invariant GatesOk() && closings == old(closings) - KeysOf(doomed[..i])
        invariant forall g :: g in shut <==> g in old(shut) || g in Pending(old(closings), KeysOf(doomed[..i]))
      {
        assert doomed[..i + 1] == doomed[..i] + doomed[i..i + 1];
        KeysAppend(doomed[..i], doomed[i..i + 1]);
        OneKey(doomed[i]);
        assert doomed[i..i + 1] == [doomed[i]];
        LessMapTwice(old(closings), KeysOf(doomed[..i]), {doomed[i].key});
        SignalOne(doomed[i].key);
      }
      assert doomed[..|doomed|] == doomed;
    }

    method SignalOne(key: string)
      requires GatesOk()
      modifies `closings, `shut
      ensures GatesOk() && closings == old(closings) - {key}
      ensures shut == old(shut) + if key in old(closings) then {old(closings)[key]} else {}
    {
      if key in closings {
        var ch := closings[key];
        closings := closings - {key};
        assert ch !in shut;
        shut := shut + {ch};
      }
    }

    /** closeEngines up to the signal: every engine is flushed and closed, in turn. */
    method CloseEngines(auto: bool, doomed: Batch)
      modifies Objects(doomed)
      ensures forall i :: 0 <= i < |doomed| ==> doomed[i].eng.closed
      ensures forall e: StubEngine :: e in Objects(doomed) ==> e.rows == old(e.rows)
      ensures DistinctFiles(doomed) ==> forall i :: 0 <= i < |doomed| ==> OnDisk(doomed[i].eng)
      ensures DistinctEngines(doomed) ==> forall i :: 0 <= i < |doomed| ==> Ran(auto, doomed[i].eng,
        old(doomed[i].eng.closed), old(doomed[i].eng.consolidations))
    {
      for i := 0 to |doomed|
        invariant forall j :: 0 <= j < i ==> doomed[j].eng.closed
        invariant DistinctFiles(doomed) ==> forall j :: 0 <= j < i ==> OnDisk(doomed[j].eng)
        invariant forall e: StubEngine :: e in Objects(doomed) ==> e.rows == old(e.rows)
        invariant DistinctEngines(doomed) ==> forall j :: i <= j < |doomed| ==>
          doomed[j].eng.closed == old(doomed[j].eng.closed) &&
          doomed[j].eng.consolidations == old(doomed[j].eng.consolidations)
        invariant DistinctEngines(doomed) ==> forall j :: 0 <= j < i ==> Ran(auto, doomed[j].eng,
          old(doomed[j].eng.closed), old(doomed[j].eng.consolidations))
      {
        CloseEngine(auto, doomed[i].eng);
      }
    }

    method CloseEngine(auto: bool, eng: StubEngine)
      modifies eng, eng.disk
      ensures eng.closed && eng.rows == old(eng.rows) && eng.disk.files == eng.Saved(old(eng.disk.files))
      ensures Ran(auto, eng, old(eng.closed), old(eng.consolidations))
    {
      if auto { eng.Consolidate(); }
      eng.Flush();
      eng.Close();
    }

    // Dedupe claims

    ghost function Seen(scope: string): S.SeenSet
      reads `seen, `seenOrder
    {
      S.SeenSet(Get(seen, scope, {}), Get(seenOrder, scope, []))
    }

    method HasSeen(scope: string, hash: string) returns (r: bool)
      ensures r <==> scope in seen && hash in seen[scope]
    {
      if scope !in seen { return false; }
      r := hash in seen[scope];
    }

    method ClaimSeen(scope: string, hash: string) returns (won: bool)
      modifies `seen, `seenOrder
      ensures Seen(scope) == S.Claim(old(Seen(scope)), hash)
      ensures won <==> !(scope in old(seen) && hash in old(seen)[scope])
      ensures hash in Seen(scope).hashes <==> !won || hash !in S.PushedOut(old(Seen(scope)).order)
      ensures forall k :: k != scope ==> Seen(k) == old(Seen(k))
    {
      S.ClaimedExactly(Seen(scope), hash);
      if scope !in seen { seen := seen[scope := {}]; }
      if hash in seen[scope] { return false; }
      seen := seen[scope := seen[scope] + {hash}];
      seenOrder := seenOrder[scope := Get(seenOrder, scope, []) + [hash]];
      Bound(scope);
      won := true;
    }

    /** Forgets the oldest of a scope's hashes when the order list is too long. */
    method Bound(scope: string)
      requires scope in seen && scope in seenOrder
      modifies `seen, `seenOrder
      ensures Seen(scope) == S.Bounded(old(Seen(scope)))
      ensures forall k :: k != scope ==> Seen(k) == old(Seen(k))
    {
      var order := seenOrder[scope];
      if |order| > S.MAX_SEEN {
        var drop := |order| - S.MAX_SEEN + S.MAX_SEEN / 4;
        var m := seen[scope];
        for i := 0 to drop
          invariant m == seen[scope] - S.Elements(order[..i])
        {
          assert order[..i + 1] == order[..i] + [order[i]];
          m := m - {order[i]};
        }
        seen, seenOrder := seen[scope := m], seenOrder[scope := order[drop..]];
      }
    }

    method UnmarkSeen(scope: string, hash: string)
      modifies `seen
      ensures Seen(scope) == S.Unmark(old(Seen(scope)), hash)
      ensures Seen(scope).hashes == old(Seen(scope)).hashes - {hash} && seenOrder == old(seenOrder)
      ensures forall k :: k != scope ==> Seen(k) == old(Seen(k))
    {
      if scope in seen { seen := seen[scope := seen[scope] - {hash}]; }
    }

    // Cadence

    ghost function Counts(scope: string): C.Counts
      reads `writes, `writesTotal, `lastConsolidate
    {
      C.Counts(Get(writes, scope, 0), Get(writesTotal, scope, 0),
        if scope in lastConsolidate then Some(lastConsolidate[scope]) else None)
    }

    method NoteDurableIngest(scope: string, every: int, hintDue: bool) returns (due: bool)
      modifies `writes, `writesTotal
      ensures due == C.Due(old(Counts(scope)), every, hintDue)
      ensures due <==> hintDue || (every >= 1 && old(Counts(scope)).writes >= every - 1)
      ensures due ==> Counts(scope).writes == 0
      ensures !due ==> Counts(scope).writes == old(Counts(scope)).writes + if every >= 1 then 1 else 0
      ensures Counts(scope) == C.Noted(old(Counts(scope)), every, hintDue)
      ensures forall k :: k != scope ==> Counts(k) == old(Counts(k))
    {
      writesTotal := writesTotal[scope := Get(writesTotal, scope, 0) + 1];
      if hintDue {
        writes := writes[scope := 0];
        return true;
      }
      if every <= 0 { return false; }
      var n := Get(writes, scope, 0) + 1;
      due := n >= every;
      if due { n := 0; }
      writes := writes[scope := n];
    }

    method AllowConsolidateAttempt(scope: string, gap: int) returns (allowed: bool)
      modifies `lastConsolidate
      ensures var g := if gap < 1 then 1 else gap;
        allowed == C.Allowed(old(Counts(scope)), g) && Counts(scope) == C.Attempted(old(Counts(scope)), g)
      ensures var written := old(Counts(scope)).total;
        && (scope !in old(lastConsolidate) ==> allowed)
        && (scope in old(lastConsolidate) ==>
          allowed == (written >= old(lastConsolidate)[scope] + if gap < 1 then 1 else gap))
        && (allowed ==> scope in lastConsolidate && lastConsolidate[scope] == written)
      ensures forall k :: k != scope ==> Counts(k) == old(Counts(k))
    {
      var g := if gap < 1 then 1 else gap;
      var total := Get(writesTotal, scope, 0);
      if scope in lastConsolidate && total - lastConsolidate[scope] < g { return false; }
      lastConsolidate := lastConsolidate[scope := total];
      allowed := true;
    }

    // Background consolidation

    /** The section of scheduleConsolidate: a loop is started for an idle state, a running one
        is told to run again. */
    method ScheduleSection(scope: string) returns (start: bool, st: ConsolState)
      modifies `consol, if scope in consol then {consol[scope]} else {}
      ensures consol == old(consol)[scope := st]
      ensures if scope in old(consol) then st == old(consol)[scope] else fresh(st)
      ensures start == !(scope in old(consol) && old(st.running)) && st.running
      ensures st.pending == if start then (if scope in old(consol) then old(st.pending) else false) else true
    {
      if scope !in consol {
        var made := new ConsolState();
        consol := consol[scope := made];
      }
      st := consol[scope];
      if st.running {
        st.pending := true;
        return false, st;
      }
      st.running := true;
      start := true;
    }

    /** The section of consolidateLoop after a run: a state that was dropped or replaced is left
        alone, a pending due is turned into another run, otherwise the state goes idle. */
    method CheckSection(scope: string, st: ConsolState) returns (again: bool)
      modifies st
      ensures var current := scope in consol && consol[scope] == st;
        && again == (current && old(st.pending))
        && st.pending == (if current then false else old(st.pending))
        && st.running == (if current && !again then false else old(st.running))
    {
      if !(scope in consol && consol[scope] == st) { return false; }
      if st.pending {
        st.pending := false;
        return true;
      }
      st.running := false;
      again := false;
    }

    // Chains of response ids

    method RememberResponseScope(respId: string, scope: string, owner: string)
      modifies `respScope, `respOrder
      ensures Chained() == K.Remember(old(Chained()), respId, scope, owner)
    {
      var id := K.Trim(respId);
      if id == "" || scope == "" { return; }
      if id !in respScope { respOrder := respOrder + [id]; }
      respScope := respScope[id := K.Entry(scope, owner)];
      DropOldestChains();
    }

    method DropOldestChains()
      modifies `respScope, `respOrder
      ensures Chained() == K.DropOldest(old(Chained()))
    {
      while |respOrder| > K.MAX_CHAINS
        invariant K.DropOldest(Chained()) == K.DropOldest(old(Chained()))
        decreases |respOrder|
      {
        var oldest := respOrder[0];
        respOrder := respOrder[1..];
        respScope := respScope - {oldest};
      }
    }

    method ScopeForResponse(respId: string, presenter: string) returns (scope: Option<string>)
      ensures scope == K.Resolve(Chained(), respId, presenter)
    {
      if respId !in respScope { return None; }
      var e := respScope[respId];
      if e.owner != presenter { return None; }
      scope := Some(e.scope);
    }
  }

  /** The file of an engine is what the engine holds. */
  ghost predicate OnDisk(e: StubEngine)
    reads e, e.disk
  {
    e.path != "" ==> e.path in e.disk.files && e.disk.files[e.path] == e.rows
  }

  /** The engine was consolidated once if that is wanted, unless it was closed before. */
  ghost predicate Ran(auto: bool, e: StubEngine, wasClosed: bool, before: nat)
    reads e
  {
    e.consolidations == before + if auto && !wasClosed then 1 else 0
  }

  ghost predicate DistinctEngines(doomed: Batch) {
    forall i, j :: 0 <= i < j < |doomed| ==> doomed[i].eng != doomed[j].eng
  }

  ghost predicate DistinctFiles(doomed: Batch) {
    forall i, j :: 0 <= i < j < |doomed| ==> doomed[i].eng.path != doomed[j].eng.path || doomed[i].eng.path == ""
  }

  function Objects(doomed: Batch): set<object> {
    (set i | 0 <= i < |doomed| :: doomed[i].eng as object) + (set i | 0 <= i < |doomed| :: doomed[i].eng.disk as object)
  }

  /** The channels of `keys`. */
  ghost function Pending(closings: map<string, Gate>, keys: set<string>): set<Gate> {
    set k | k in keys && k in closings :: closings[k]
  }

  lemma OneKey(d: Doomed<StubEngine>)
    ensures KeysOf([d]) == {d.key} && KeysOf([]) == {}
  {
    assert [d][0].key == d.key;
  }

  /** `doomed` lists the entries of `engines` but for those still in `keys`. */
  ghost predicate Listed(doomed: Batch, engines: map<string, StubEngine>, keys: set<string>) {
    && NoDupKeys(doomed)
    && (forall i :: 0 <= i < |doomed| ==> doomed[i].key in engines && engines[doomed[i].key] == doomed[i].eng)
    && (forall k :: k in engines ==> (HasKey(doomed, k) <==> k !in keys))
  }

  lemma ListMore(doomed: Batch, engines: map<string, StubEngine>, keys: set<string>, k: string)
    requires Listed(doomed, engines, keys) && k in keys && keys <= engines.Keys
    ensures Listed(doomed + [Doomed(k, engines[k])], engines, keys - {k})
  {
    var all := doomed + [Doomed(k, engines[k])];
    forall j ensures HasKey(all, j) <==> HasKey(doomed, j) || j == k {
      if HasKey(doomed, j) {
        var i :| 0 <= i < |doomed| && doomed[i].key == j;
        assert all[i].key == j;
      }
      assert all[|doomed|].key == k;
    }
    assert forall i :: 0 <= i < |doomed| ==> all[i] == doomed[i] && HasKey(doomed, doomed[i].key);
  }

  /** A new channel for each of `keys`, the others as they were. */
  ghost predicate GatesFor(closings: map<string, Gate>, gates: nat, keys: set<string>, before: map<string,
                           Gate>, made: nat) {
    && closings.Keys == before.Keys + keys && made <= gates
    && (forall k :: k in keys ==> closings[k] >= made)
    && (forall k :: k in before && k !in keys ==> closings[k] == before[k])
  }

  lemma GatesMore(closings: map<string, Gate>, gates: nat, closings': map<string, Gate>, gates': nat, doomed: Batch,
                  more: Batch, oldest: string, before: map<string, Gate>, made: nat)
    requires GatesFor(closings, gates, KeysOf(doomed), before, made) && gates' == gates + |more|
    requires more == [] || (|more| == 1 && more[0].key == oldest)
    requires closings' == if more == [] then closings else closings[oldest := gates]
    ensures GatesFor(closings', gates', KeysOf(doomed + more), before, made)
  {
    KeysAppend(doomed, more);
    if more == [] {
      assert KeysOf(more) == {};
    } else {
      assert more[0].key in KeysOf(more);
      assert KeysOf(more) == {oldest};
    }
  }

  /** One turn of the eviction loop. */
  lemma EvictStep(doomed: Batch, tab: Table<StubEngine>)
    requires |tab.order| > MAX_ENGINES
    ensures Shrunk(tab) == Shrunk(DropOldest(tab))
    ensures doomed + Evicted(tab) == doomed + OldestEntry(tab) + Evicted(DropOldest(tab))
  {
    Regroup(doomed, OldestEntry(tab), Evicted(DropOldest(tab)));
  }

  lemma Regroup(a: Batch, b: Batch, c: Batch)
    ensures a + (b + c) == a + b + c
  {
  }

  lemma EvictKeyStep(dropped: set<string>, tab: Table<StubEngine>)
    requires |tab.order| > MAX_ENGINES
    ensures dropped + EvictedKeys(tab) == dropped + {tab.order[0]} + EvictedKeys(DropOldest(tab))
  {
  }

  lemma ClearNothing(books: Books, staged: map<string, seq<B.byte>>)
    ensures Less(books, {}) == books && staged - ({} - {""}) == staged && KeysOf([]) == {}
  {
    LessTwice(books, {}, {});
    LessMapTwice(staged, {} - {""}, {});
  }

  lemma ClearMore(books: Books, staged: map<string, seq<B.byte>>, keys: set<string>, key: string)
    ensures Less(Less(books, keys), {key}) == Less(books, keys + {key})
    ensures staged - (keys - {""}) - ({key} - {""}) == staged - (keys + {key} - {""})
  {
    LessTwice(books, keys, {key});
    LessMapTwice(staged, keys - {""}, {key} - {""});
    assert keys - {""} + ({key} - {""}) == keys + {key} - {""};
  }

  lemma KeysAppend(doomed: Batch, more: Batch)
    ensures KeysOf(doomed + more) == KeysOf(doomed) + KeysOf(more)
  {
    var all := doomed + more;
    forall k ensures k in KeysOf(all) <==> k in KeysOf(doomed) || k in KeysOf(more) {
      if k in KeysOf(doomed) {
        var i :| 0 <= i < |doomed| && doomed[i].key == k;
        assert all[i].key == k;
      }
      if k in KeysOf(more) {
        var i :| 0 <= i < |more| && more[i].key == k;
        assert all[|doomed| + i].key == k;
      }
    }
  }
}
