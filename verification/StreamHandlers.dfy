/** The stream buffers and marks of plugin/intercept.go as the handlers update them in place,
    each critical section proved to do to its key what module Streams says. */
module StreamHandlers {
  import opened Configs
  import opened Whitespace
  import opened Wrappers
  import opened Streams
  import G = StreamSegments

  const MAX_STREAM_BUFS := 256

  /** History of one key: see Streams.Key. */
  datatype Past = Past(claims: seq<string>, sent: seq<Sent>, log: seq<Handed>)

  const UNUSED := Past([], [], [])

  function Get<V>(m: map<string, V>, key: string): Option<V> { if key in m then Some(m[key]) else None }

  function KeyOf(buf: Option<Buf>, mark: Option<Mark>, calls: nat, p: Past): Key {
    Key(buf, mark, calls, p.claims, p.sent, p.log)
  }

  function PastOf(k: Key): Past { Past(k.claims, k.sent, k.log) }

  /** A buffer was made and had to make way at once. */
  function NotKept(k: Key, now: int): Key { Ready(k, now).(buf := None) }

  /** What flushStreamBuf makes of a drained buffer, before the result is noted. */
  function RestClaimed(cfg: Config, env: nat -> Answer, k: Key, b: Buf): Key {
    var k1, whole := HandRest(cfg, env, k, b), FlattenWS(b.whole);
    if (b.storedAny || Among(k1.log, |k.log|, Stored)) && !Among(k1.log, |k.log|, Failed) && whole != ""
    then Claimed(k1, whole) else k1
  }

  function ResidualIngested(cfg: Config, env: nat -> Answer, k: Key, b: Buf, now: int): Key {
    var k1 := RestClaimed(cfg, env, k, b);
    Note(k1, Among(k1.log, |k.log|, Stored), Among(k1.log, |k.log|, Failed), now)
  }

  lemma FlushIngests(cfg: Config, env: nat -> Answer, k: Key, now: int)
    requires k.buf.Some? && !Conflicted(k)
    ensures Flush(cfg, env, k, now) ==
      ResidualIngested(cfg, env, k.(buf := Some(Drained(k.buf.value))), k.buf.value, now)
  {
  }

  /** A key that another key's handler left alone, but for what had to make way. */
  ghost predicate Spared(before: Key, after: Key) {
    && after == before.(buf := after.buf, mark := after.mark)
    && (after.buf == before.buf || after.buf.None?) && (after.mark == before.mark || after.mark.None?)
  }

  /** What a chunk's deltas may do to their key if its own entries make way, one by one, as soon
      as they are made: when the maps are full and the clock has not moved on. */
  ghost predicate DeltasMay(cfg: Config, env: nat -> Answer, k: Key, id: int, ds: seq<Delta>, now: int, k': Key)
    decreases |ds|
  {
    if ds == [] then k' == k
    else
      var init, d := ds[..|ds| - 1], ds[|ds| - 1];
      exists km :: DeltasMay(cfg, env, k, id, init, now, km) && Spared(OneDelta(cfg, env, km, id, d, now), k')
  }

  lemma FirstDeltas(cfg: Config, ds: seq<Delta>, i: nat)
    requires i < |ds|
    ensures AnyAdmitted(cfg, ds[..i + 1]) <==>
      AnyAdmitted(cfg, ds[..i]) || (ds[i].text != "" && Admits(cfg, ds[i].kind))
  {
    if AnyAdmitted(cfg, ds[..i]) { assert forall j :: 0 <= j < i ==> ds[..i][j] == ds[..i + 1][j]; }
    assert ds[..i + 1][i] == ds[i];
  }

  /** One delta more. */
  lemma NextDelta(cfg: Config, env: nat -> Answer, k: Key, id: int, ds: seq<Delta>, i: nat, now: int, km: Key, k': Key)
    requires i < |ds| && Spared(OneDelta(cfg, env, km, id, ds[i], now), k')
    ensures Deltas(cfg, env, k, id, ds[..i + 1], now) ==
      OneDelta(cfg, env, Deltas(cfg, env, k, id, ds[..i], now), id, ds[i], now)
    ensures DeltasMay(cfg, env, k, id, ds[..i], now, km) ==> DeltasMay(cfg, env, k, id, ds[..i + 1], now, k')
  {
    assert ds[..i + 1][..i] == ds[..i] && ds[..i + 1][i] == ds[i];
  }

  lemma SparedTrans(a: Key, b: Key, c: Key)
    requires Spared(a, b) && Spared(b, c)
    ensures Spared(a, c)
  {
  }

  /** A buffer that is gone makes no difference to what is handed on. */
  lemma LostHandsOn(cfg: Config, env: nat -> Answer, k: Key, k1: Key, kind: Kind, text: string, now: int)
    requires k1 == k || k1 == k.(buf := None)
    ensures Spared(HandNoting(cfg, env, k, kind, text, now), HandNoting(cfg, env, k1, kind, text, now))
  {
  }

  /** `k1` is the key with the delta appended, its buffer kept or not. */
  ghost predicate AppendedMay(k: Key, id: int, d: Delta, now: int, k1: Key) {
    var k0 := Admitted(Ready(k, now), id, d, now);
    k1 == k0 || (k.buf.None? && k1 == k0.(buf := None))
  }

  lemma NotHandedOn(cfg: Config, env: nat -> Answer, k: Key, id: int, d: Delta, now: int, k1: Key)
    requires d.text != "" && Admits(cfg, d.kind) && AppendedMay(k, id, d, now, k1)
    requires !Completes(Ready(k, now).buf.value, d) || Conflicted(k1)
    ensures Spared(OneDelta(cfg, env, k, id, d, now), k1)
    ensures k1.buf.Some? ==> k1 == OneDelta(cfg, env, k, id, d, now)
  {
  }

  lemma HandedOn(cfg: Config, env: nat -> Answer, k: Key, id: int, d: Delta, now: int, k1: Key, segment: string,
                 k': Key)
    requires d.text != "" && Admits(cfg, d.kind) && AppendedMay(k, id, d, now, k1)
    requires Completes(Ready(k, now).buf.value, d) && !Conflicted(k1)
    requires segment == Held(Ready(k, now).buf.value, d.kind) + d.text
    requires Spared(HandNoting(cfg, env, k1, d.kind, segment, now), k')
    ensures Spared(OneDelta(cfg, env, k, id, d, now), k')
    ensures k1.buf.Some? ==> OneDelta(cfg, env, k, id, d, now) == HandNoting(cfg, env, k1, d.kind, segment, now)
  {
    var k0 := Admitted(Ready(k, now), id, d, now);
    LostHandsOn(cfg, env, k0, k1, d.kind, segment, now);
    SparedTrans(HandNoting(cfg, env, k0, d.kind, segment, now), HandNoting(cfg, env, k1, d.kind, segment, now), k');
  }

  /** And what an ordinary chunk may do. */
  ghost predicate ChunkMay(cfg: Config, env: nat -> Answer, k: Key, id: int, ds: seq<Delta>, opens: bool, now: int,
                           k': Key) {
    if Conflicted(k) || !HasConsumers(cfg) || !opens then k' == k else DeltasMay(cfg, env, k, id, ds, now, k')
  }

  /** What the rest of a stream may do, once `k` is what its last deltas left. */
  ghost predicate RestMay(cfg: Config, env: nat -> Answer, k: Key, engine: bool, now: int, k': Key) {
    exists k1 :: Spared(Rested(cfg, env, k, engine, now), k1) && k' == TakeWhole(k1, now)
  }

  ghost predicate EndMay(cfg: Config, env: nat -> Answer, k: Key, id: int, ds: seq<Delta>, opens: bool, reopens: bool,
                         now: int, k': Key) {
    exists k1 ::
      (if opens then DeltasMay(cfg, env, k, id, ds, now, k1) else k1 == k) &&
      RestMay(cfg, env, k1, HasEngine(cfg, ds, opens, reopens), now, k')
  }

  lemma EndsSo(cfg: Config, env: nat -> Answer, k: Key, id: int, ds: seq<Delta>, opens: bool, reopens: bool, now: int,
               k1: Key, k2: Key)
    requires if opens then DeltasMay(cfg, env, k, id, ds, now, k1) else k1 == k
    requires Spared(Rested(cfg, env, k1, HasEngine(cfg, ds, opens, reopens), now), k2)
    ensures EndMay(cfg, env, k, id, ds, opens, reopens, now, TakeWhole(k2, now))
  {
    assert RestMay(cfg, env, k1, HasEngine(cfg, ds, opens, reopens), now, TakeWhole(k2, now));
  }

  /** And what the terminal chunk may do. */
  ghost predicate FinishMay(cfg: Config, env: nat -> Answer, k: Key, id: int, ds: seq<Delta>, opens: bool,
                            reopens: bool, now: int, k': Key) {
    if Conflicted(k) then Spared(Note(k, false, true, now), k')
    else if !HasConsumers(cfg) then k' == k.(buf := None)
    else exists k1 :: EndMay(cfg, env, k, id, ds, opens, reopens, now, k1) && k' == k1.(buf := None)
  }

  /** The keys left out are no newer than those kept. */
  ghost predicate OldestDropped(before: map<string, Buf>, after: map<string, Buf>) {
    && after.Keys <= before.Keys && (forall k :: k in after ==> after[k] == before[k])
    && forall d, k :: d in before && d !in after && k in after ==> before[d].last <= before[k].last
  }

  ghost predicate OldestMarksDropped(before: map<string, Mark>, after: map<string, Mark>) {
    && after.Keys <= before.Keys && (forall k :: k in after ==> after[k] == before[k])
    && forall d, k :: d in before && d !in after && k in after ==> before[d].at <= before[k].at
  }

  /** What is newer than everything else is not the oldest. */
  lemma NewestStays(before: map<string, Buf>, after: map<string, Buf>, key: string)
    requires OldestDropped(before, after) && key in before && |after| > 0
    requires forall k :: k in before && k != key ==> before[k].last < before[key].last
    ensures key in after
  {
    assert |after.Keys| > 0;
    var k :| k in after.Keys;
  }

  lemma NewestMarkStays(before: map<string, Mark>, after: map<string, Mark>, key: string)
    requires OldestMarksDropped(before, after) && key in before && |after| > 0
    requires forall k :: k in before && k != key ==> before[k].at < before[key].at
    ensures key in after
  {
    assert |after.Keys| > 0;
    var k :| k in after.Keys;
  }

  class StreamStates {
    var streams: map<string, Buf>
    var marks: map<string, Mark>
    /** How many ingests each key has attempted: which answer of the environment comes next. */
    var attempts: map<string, nat>
    /** History: it decides nothing the handlers do. */
    ghost var past: map<string, Past>

    constructor ()
      ensures streams == map[] && marks == map[] && attempts == map[] && past == map[] && Valid()
    {
      streams, marks, attempts, past := map[], map[], map[], map[];
    }

    ghost predicate Valid()
      reads this
    {
      "" !in streams && "" !in marks && |streams| <= MAX_STREAM_BUFS && |marks| <= MAX_STREAM_BUFS
    }

    ghost function View(skey: string): Key
      reads this
    {
      KeyOf(Get(streams, skey), Get(marks, skey), if skey in attempts then attempts[skey] else 0,
        if skey in past then past[skey] else UNUSED)
    }

    /** No entry has to make way for this key's. */
    ghost predicate Room(skey: string)
      reads `streams, `marks
    {
      && (skey in streams || |streams| < MAX_STREAM_BUFS)
      && (skey in marks || |marks| < MAX_STREAM_BUFS)
    }

    /** This key's entries do not make way themselves: there is room, or the clock has moved on
        since every other entry was used. */
    ghost predicate Survives(skey: string, now: int)
      reads `streams, `marks
    {
      && (skey in streams || |streams| < MAX_STREAM_BUFS || forall k :: k in streams ==> streams[k].last < now)
      && (skey in marks || |marks| < MAX_STREAM_BUFS || forall k :: k in marks ==> marks[k].at < now)
    }

    /** evictStaleStreamBufsLocked. */
    method EvictStale()
      requires "" !in streams
      modifies `streams
      ensures OldestDropped(old(streams), streams)
      ensures |streams| == if |old(streams)| > 256 then 256 else |old(streams)|
      ensures |old(streams)| <= 256 ==> streams == old(streams)
    {
      while |streams| > MAX_STREAM_BUFS
        invariant OldestDropped(old(streams), streams) && "" !in streams
        invariant if |old(streams)| <= MAX_STREAM_BUFS then streams == old(streams) else |streams| >= MAX_STREAM_BUFS
        decreases |streams|
      {
        var oldest := OldestKey();
        ghost var before := streams;
        streams := streams - {oldest};
        assert streams.Keys == before.Keys - {oldest} && |streams.Keys| == |before.Keys| - 1;
      }
    }

    /** A key whose buffer was used the longest ago. */
    method OldestKey() returns (oldestKey: string)
      requires streams != map[] && "" !in streams
      ensures oldestKey in streams && forall k :: k in streams ==> streams[oldestKey].last <= streams[k].last
    {
      oldestKey := "";
      var oldest := 0;
      var keys := streams.Keys;
      assert exists k :: k in keys;
      while keys != {}
        invariant keys <= streams.Keys
        invariant oldestKey == "" ==> keys == streams.Keys
        invariant oldestKey != "" ==> oldestKey in streams && oldest == streams[oldestKey].last
        invariant oldestKey != "" ==> forall k :: k in streams && k !in keys ==> oldest <= streams[k].last
        decreases keys
      {
        var k :| k in keys;
        if oldestKey == "" || streams[k].last < oldest {
          oldestKey, oldest := k, streams[k].last;
        }
        keys := keys - {k};
      }
    }

    /** Makes a missing buffer, and room for it. */
    method Prepare(skey: string, now: int)
      requires Valid() && skey != ""
      modifies `streams, `past
      ensures Valid()
      ensures OldestDropped(if skey in old(streams) then old(streams) else old(streams[skey := Fresh(now)]), streams)
      ensures View(skey) == if skey in streams then Ready(old(View(skey)), now) else NotKept(old(View(skey)), now)
      ensures skey in old(streams) ==> streams == old(streams)
      ensures old(Survives(skey, now)) ==> skey in streams
      ensures forall k :: k != skey ==> Spared(old(View(k)), View(k))
      ensures old(Room(skey)) ==> Room(skey) && forall k :: k != skey ==> View(k) == old(View(k))
    {
      if skey !in streams {
        past := past[skey := PastOf(View(skey)).(sent := [], log := [])];
        streams := streams[skey := Fresh(now)];
        ghost var before := streams;
        EvictStale();
        if old(Survives(skey, now)) && |before| > MAX_STREAM_BUFS { NewestStays(before, streams, skey); }
      }
    }

    method ResetStreamBuf(skey: string, now: int)
      requires Valid() && skey != ""
      modifies `streams, `past
      ensures Valid()
      ensures Spared(Reset(old(View(skey)), now), View(skey))
      ensures old(Survives(skey, now)) ==> Survives(skey, now) && View(skey) == Reset(old(View(skey)), now)
      ensures forall k :: k != skey ==> Spared(old(View(k)), View(k))
      ensures old(Room(skey)) ==> Room(skey) && forall k :: k != skey ==> View(k) == old(View(k))
    {
      if skey in streams {
        var b := streams[skey];
        if b.conflicted && now - b.last > STREAM_CONFLICT_TTL {
          streams := streams - {skey};
        } else {
          streams := streams[skey := b.(conflicted := true, last := now)];
          return;
        }
      }
      Prepare(skey, now);
    }

    /** The part of appendStreamDelta after that: the delta written, a segment cut off. */
    method Write(skey: string, id: int, d: Delta, now: int) returns (segment: string, flush: bool)
      requires Valid() && skey in streams
      modifies `streams, `past
      ensures Valid() && skey in streams && streams.Keys == old(streams.Keys)
      ensures View(skey) == Admitted(old(View(skey)), id, d, now)
      ensures flush == Completes(old(streams[skey]), d)
      ensures flush <==> d.kind != ToolArgs && G.MayEnd(old(Held(streams[skey], d.kind)) + d.text, d.text)
      ensures flush ==> segment == old(Held(streams[skey], d.kind)) + d.text
      ensures Held(streams[skey], d.kind) == if flush then "" else old(Held(streams[skey], d.kind)) + d.text
      ensures forall k :: k != skey ==> View(k) == old(View(k))
    {
      var b := streams[skey].(last := now);
      past := past[skey := PastOf(View(skey).(sent := View(skey).sent + [Sent(id, d)]))];
      segment, flush := "", false;
      match d.kind {
        case ToolArgs =>
          b := b.(toolcalls := b.toolcalls + d.text);
        case Reasoning =>
          segment := b.reasoning + d.text;
          flush := Flushes(segment, d.text);
          b := b.(reasoning := if flush then "" else segment);
        case Text =>
          b := b.(whole := b.whole + d.text);
          segment := b.assistant + d.text;
          flush := Flushes(segment, d.text);
          b := b.(assistant := if flush then "" else segment);
      }
      streams := streams[skey := b];
    }

    /** The same, to a buffer that had to make way when it was made: nobody will find it. */
    method WriteLost(skey: string, id: int, d: Delta, now: int) returns (segment: string, flush: bool)
      requires Valid() && skey !in streams
      modifies `past
      ensures Valid() && View(skey) == old(View(skey)).(sent := old(View(skey)).sent + [Sent(id, d)])
      ensures flush == Completes(Fresh(now), d) && (flush ==> segment == Held(Fresh(now), d.kind) + d.text)
      ensures forall k :: k != skey ==> View(k) == old(View(k))
    {
      past := past[skey := PastOf(View(skey).(sent := View(skey).sent + [Sent(id, d)]))];
      segment := d.text;
      flush := d.kind != ToolArgs && Flushes(segment, d.text);
      assert Held(Fresh(now), d.kind) + d.text == d.text;
    }

    /** A delta goes to its buffer, which is made if it is missing. */
    method AppendStreamDelta(skey: string, id: int, d: Delta, now: int) returns (segment: string, flush: bool)
      requires Valid() && skey != ""
      modifies `streams, `past
      ensures Valid()
      ensures var k := Admitted(Ready(old(View(skey)), now), id, d, now);
        && View(skey) == (if skey in streams then k else k.(buf := None))
        && (skey in old(streams) ==> skey in streams)
        && (old(Survives(skey, now)) ==> Survives(skey, now) && skey in streams)
      ensures var b := Ready(old(View(skey)), now).buf.value;
        && flush == Completes(b, d) && (flush ==> segment == Held(b, d.kind) + d.text)
        && (flush <==> d.kind != ToolArgs && G.MayEnd(Held(b, d.kind) + d.text, d.text))
      ensures forall k :: k != skey ==> Spared(old(View(k)), View(k))
      ensures old(Room(skey)) ==> Room(skey) && forall k :: k != skey ==> View(k) == old(View(k))
    {
      Prepare(skey, now);
      if skey in streams {
        segment, flush := Write(skey, id, d, now);
      } else {
        segment, flush := WriteLost(skey, id, d, now);
      }
    }

    /** The eviction of noteStreamResult, for marks. */
    method EvictMarks()
      requires "" !in marks
      modifies `marks
      ensures OldestMarksDropped(old(marks), marks)
      ensures |marks| == if |old(marks)| > 256 then 256 else |old(marks)|
      ensures |old(marks)| <= 256 ==> marks == old(marks)
    {
      while |marks| > MAX_STREAM_BUFS
        invariant OldestMarksDropped(old(marks), marks) && "" !in marks
        invariant if |old(marks)| <= MAX_STREAM_BUFS then marks == old(marks) else |marks| >= MAX_STREAM_BUFS
        decreases |marks|
      {
        var oldest := OldestMark();
        ghost var before := marks;
        marks := marks - {oldest};
        assert marks.Keys == before.Keys - {oldest} && |marks.Keys| == |before.Keys| - 1;
      }
    }

    method OldestMark() returns (oldestKey: string)
      requires marks != map[] && "" !in marks
      ensures oldestKey in marks && forall k :: k in marks ==> marks[oldestKey].at <= marks[k].at
    {
      oldestKey := "";
      var oldest := 0;
      var keys := marks.Keys;
      assert exists k :: k in keys;
      while keys != {}
        invariant keys <= marks.Keys
        invariant oldestKey == "" ==> keys == marks.Keys
        invariant oldestKey != "" ==> oldestKey in marks && oldest == marks[oldestKey].at
        invariant oldestKey != "" ==> forall k :: k in marks && k !in keys ==> oldest <= marks[k].at
        decreases keys
      {
        var k :| k in keys;
        if oldestKey == "" || marks[k].at < oldest {
          oldestKey, oldest := k, marks[k].at;
        }
        keys := keys - {k};
      }
    }

    /** The part of noteStreamResult under the buffers' lock. */
    method NoteStored(skey: string)
      requires Valid()
      modifies `streams
      ensures Valid() && streams.Keys == old(streams.Keys)
      ensures View(skey) == Note(old(View(skey)), true, false, 0).(mark := old(View(skey)).mark)
      ensures forall k :: k != skey ==> View(k) == old(View(k))
      ensures forall k :: k in streams ==> streams[k].last == old(streams)[k].last
    {
      if skey in streams { streams := streams[skey := streams[skey].(storedAny := true)]; }
    }

    /** The part of noteStreamResult under the marks' lock. */
    method NoteMark(skey: string, failed: bool, now: int)
      requires Valid() && skey != ""
      modifies `marks
      ensures Valid()
      ensures OldestMarksDropped(old(marks[skey := Mark(now, failed || (skey in marks && marks[skey].failed))]), marks)
      ensures View(skey) == old(View(skey)).(mark := if skey in marks then
        Some(Mark(now, failed || old(skey in marks && marks[skey].failed))) else None)
      ensures old(Survives(skey, now)) ==> Survives(skey, now) && skey in marks
      ensures forall k :: k != skey ==> Spared(old(View(k)), View(k))
      ensures old(Room(skey)) ==> Room(skey) && forall k :: k != skey ==> View(k) == old(View(k))
    {
      var lost := skey in marks && marks[skey].failed;
      marks := marks[skey := Mark(now, lost || failed)];
      ghost var before := marks;
      EvictMarks();
      if old(Survives(skey, now)) && |before| > MAX_STREAM_BUFS { NewestMarkStays(before, marks, skey); }
    }

    method NoteStreamResult(skey: string, ingested: bool, failed: bool, now: int)
      requires Valid() && skey != ""
      modifies `streams, `marks
      ensures Valid() && streams.Keys == old(streams.Keys)
      ensures var k := Note(old(View(skey)), ingested, failed, now);
        && (View(skey) == k || View(skey) == k.(mark := None))
        && (old(Survives(skey, now)) ==> Survives(skey, now) && View(skey) == k)
      ensures (ingested || failed) && skey in marks ==>
        marks[skey].at == now && (marks[skey].failed <==> failed || (skey in old(marks) && old(marks[skey].failed)))
      ensures forall k :: k != skey ==> Spared(old(View(k)), View(k))
      ensures old(Room(skey)) ==> Room(skey) && forall k :: k != skey ==> View(k) == old(View(k))
    {
      if !ingested && !failed { return; }
      if ingested { NoteStored(skey); }
      NoteMark(skey, failed, now);
    }

    /** A claim and a durable write, as the store and the engine answer. */
    method Ingest(cfg: Config, env: nat -> Answer, skey: string, kind: Kind,
                  text: string) returns (ingested: bool, failed: bool)
      requires Valid()
      modifies `attempts, `past
      ensures Valid() && View(skey) == Hand(cfg, env, old(View(skey)), kind, text)
      ensures ingested == (Last(View(skey)) == Stored) && failed == (Last(View(skey)) == Failed)
      ensures forall k :: k != skey ==> View(k) == old(View(k))
    {
      past := past[skey := PastOf(Hand(cfg, env, View(skey), kind, text))];
      var n := if skey in attempts then attempts[skey] else 0;
      var o := OutcomeOf(cfg, env(n), kind, text);
      if o != Blank && o != Unwanted { attempts := attempts[skey := n + 1]; }
      ingested, failed := o == Stored, o == Failed;
    }

    // The handlers

    /** What HandleStreamChunk does with the deltas of a chunk.  The engine is opened for the
        first that is admitted; `ended` tells that it did not open. */
    method HandleDeltas(cfg: Config, env: nat -> Answer, skey: string, id: int, ds: seq<Delta>, opens: bool, now: int)
      returns (engine: bool, ended: bool)
      requires Valid() && skey != "" && !Conflicted(View(skey))
      modifies `streams, `marks, `attempts, `past
      ensures Valid() && ended == (AnyAdmitted(cfg, ds) && !opens) && engine == (AnyAdmitted(cfg, ds) && opens)
      ensures old(Survives(skey, now)) ==>
        Survives(skey, now) && View(skey) == LastDeltas(cfg, env, old(View(skey)), id, ds, opens, now)
      ensures if opens then DeltasMay(cfg, env, old(View(skey)), id, ds, now, View(skey))
        else View(skey) == old(View(skey))
      ensures forall k :: k != skey ==> Spared(old(View(k)), View(k))
      ensures old(Room(skey)) ==> Room(skey) && forall k :: k != skey ==> View(k) == old(View(k))
    {
      engine, ended := false, false;
      for i := 0 to |ds|
        invariant Valid() && !ended && engine == (AnyAdmitted(cfg, ds[..i]) && opens)
        invariant !opens ==> !AnyAdmitted(cfg, ds[..i])
        invariant old(Survives(skey, now)) ==>
          Survives(skey, now) && View(skey) == LastDeltas(cfg, env, old(View(skey)), id, ds[..i], opens, now)
        invariant opens ==> DeltasMay(cfg, env, old(View(skey)), id, ds[..i], now, View(skey))
        invariant !opens ==> View(skey) == old(View(skey))
        invariant forall k :: k != skey ==> Spared(old(View(k)), View(k))
        invariant old(Room(skey)) ==> Room(skey) && forall k :: k != skey ==> View(k) == old(View(k))
      {
        var d := ds[i];
        ghost var km := View(skey);
        FirstDeltas(cfg, ds, i);
        if d.text == "" || !Admits(cfg, d.kind) {
          NextDelta(cfg, env, old(View(skey)), id, ds, i, now, km, km);
          continue;
        }
        if !engine {
          if !opens {
            ended := true;
            return;
          }
          engine := true;
        }
        HandleDelta(cfg, env, skey, id, d, now);
        NextDelta(cfg, env, old(View(skey)), id, ds, i, now, km, View(skey));
      }
      assert ds[..|ds|] == ds;
    }

    method HandleDelta(cfg: Config, env: nat -> Answer, skey: string, id: int, d: Delta, now: int)
      requires Valid() && skey != "" && d.text != "" && Admits(cfg, d.kind)
      modifies `streams, `marks, `attempts, `past
      ensures Valid()
      ensures old(Survives(skey, now)) ==>
        Survives(skey, now) && View(skey) == OneDelta(cfg, env, old(View(skey)), id, d, now)
      ensures Spared(OneDelta(cfg, env, old(View(skey)), id, d, now), View(skey))
      ensures forall k :: k != skey ==> Spared(old(View(k)), View(k))
      ensures old(Room(skey)) ==> Room(skey) && forall k :: k != skey ==> View(k) == old(View(k))
    {
      ghost var before := View(skey);
      var segment, flush := AppendStreamDelta(skey, id, d, now);
      ghost var k1 := View(skey);
      assert AppendedMay(before, id, d, now, k1);
      if !flush || (skey in streams && streams[skey].conflicted) {
        NotHandedOn(cfg, env, before, id, d, now, k1);
        return;
      }
      HandOn(cfg, env, skey, d.kind, segment, now);
      HandedOn(cfg, env, before, id, d, now, k1, segment, View(skey));
    }

    /** A segment is ingested and the result noted. */
    method HandOn(cfg: Config, env: nat -> Answer, skey: string, kind: Kind, segment: string, now: int)
      requires Valid() && skey != ""
      modifies `streams, `marks, `attempts, `past
      ensures Valid() && streams.Keys == old(streams.Keys)
      ensures old(Survives(skey, now)) ==>
        Survives(skey, now) && View(skey) == HandNoting(cfg, env, old(View(skey)), kind, segment, now)
      ensures Spared(HandNoting(cfg, env, old(View(skey)), kind, segment, now), View(skey))
      ensures forall k :: k != skey ==> Spared(old(View(k)), View(k))
      ensures old(Room(skey)) ==> Room(skey) && forall k :: k != skey ==> View(k) == old(View(k))
    {
      var ingested, failed := Ingest(cfg, env, skey, kind, segment);
      NoteStreamResult(skey, ingested, failed, now);
    }

    method HandleChunk(cfg: Config, env: nat -> Answer, skey: string, id: int, ds: seq<Delta>, opens: bool, now: int)
      requires Valid() && skey != ""
      modifies `streams, `marks, `attempts, `past
      ensures Valid()
      ensures old(Survives(skey, now)) ==>
        Survives(skey, now) && View(skey) == Chunk(cfg, env, old(View(skey)), id, ds, opens, now)
      ensures ChunkMay(cfg, env, old(View(skey)), id, ds, opens, now, View(skey))
      ensures forall k :: k != skey ==> Spared(old(View(k)), View(k))
      ensures old(Room(skey)) ==> Room(skey) && forall k :: k != skey ==> View(k) == old(View(k))
    {
      if ds == [] { return; }
      if skey in streams && streams[skey].conflicted { return; }
      if !cfg.ingestAssistant && !cfg.ingestReasoning && !cfg.interruptGate { return; }
      var engine, ended := HandleDeltas(cfg, env, skey, id, ds, opens, now);
    }

    /** The locked part of flushStreamBuf. */
    method Drain(skey: string) returns (b: Buf)
      requires Valid() && skey in streams
      modifies `streams
      ensures Valid() && b == old(streams[skey]) && streams.Keys == old(streams.Keys)
      ensures View(skey) == old(View(skey).(buf := Some(Drained(streams[skey]))))
      ensures forall k :: k != skey ==> View(k) == old(View(k))
    {
      b := streams[skey];
      streams := streams[skey := b.(assistant := "", reasoning := "", toolcalls := "", whole := "")];
    }

    method ClaimWhole(skey: string, whole: string)
      requires Valid()
      modifies `past
      ensures Valid() && View(skey) == Claimed(old(View(skey)), whole)
      ensures forall k :: k != skey ==> View(k) == old(View(k))
    {
      past := past[skey := PastOf(Claimed(View(skey), whole))];
    }

    method IngestRest(cfg: Config, env: nat -> Answer, skey: string, b: Buf) returns (ingested: bool, failed: bool)
      requires Valid()
      modifies `attempts, `past
      ensures Valid() && View(skey) == HandRest(cfg, env, old(View(skey)), b)
      ensures ingested == Among(View(skey).log, old(|View(skey).log|), Stored)
      ensures failed == Among(View(skey).log, old(|View(skey).log|), Failed)
      ensures forall k :: k != skey ==> View(k) == old(View(k))
    {
      ghost var n := |View(skey).log|;
      var i1, f1 := Ingest(cfg, env, skey, Text, b.assistant);
      ghost var o1 := Last(View(skey));
      var i2, f2 := Ingest(cfg, env, skey, Reasoning, b.reasoning);
      ghost var o2 := Last(View(skey));
      var i3, f3 := Ingest(cfg, env, skey, ToolArgs, b.toolcalls);
      ingested, failed := i1 || i2 || i3, f1 || f2 || f3;
      ghost var log := View(skey).log;
      assert |log| == n + 3 && log[n].outcome == o1 && log[n + 1].outcome == o2;
    }

    /** The rest of flushStreamBuf. */
    method ClaimRest(cfg: Config, env: nat -> Answer, skey: string, b: Buf) returns (ingested: bool, failed: bool)
      requires Valid()
      modifies `attempts, `past
      ensures Valid() && View(skey) == RestClaimed(cfg, env, old(View(skey)), b)
      ensures ingested == Among(View(skey).log, old(|View(skey).log|), Stored)
      ensures failed == Among(View(skey).log, old(|View(skey).log|), Failed)
      ensures forall k :: k != skey ==> View(k) == old(View(k))
    {
      ingested, failed := IngestRest(cfg, env, skey, b);
      var whole := FlattenWS(b.whole);
      if (b.storedAny || ingested) && !failed && whole != "" { ClaimWhole(skey, whole); }
    }

    method IngestResidual(cfg: Config, env: nat -> Answer, skey: string, b: Buf, now: int)
      requires Valid() && skey != ""
      modifies `streams, `marks, `attempts, `past
      ensures Valid() && streams.Keys == old(streams.Keys)
      ensures old(Survives(skey, now)) ==>
        Survives(skey, now) && View(skey) == ResidualIngested(cfg, env, old(View(skey)), b, now)
      ensures Spared(ResidualIngested(cfg, env, old(View(skey)), b, now), View(skey))
      ensures forall k :: k != skey ==> Spared(old(View(k)), View(k))
      ensures old(Room(skey)) ==> Room(skey) && forall k :: k != skey ==> View(k) == old(View(k))
    {
      var ingested, failed := ClaimRest(cfg, env, skey, b);
      NoteStreamResult(skey, ingested, failed, now);
    }

    /** flushStreamBuf, and noteStreamResult of its result. */
    method FlushStreamBuf(cfg: Config, env: nat -> Answer, skey: string, now: int)
      requires Valid() && skey != "" && skey in streams
      modifies `streams, `marks, `attempts, `past
      ensures Valid()
      ensures old(Survives(skey, now)) ==>
        Survives(skey, now) && skey in streams && View(skey) == Flush(cfg, env, old(View(skey)), now)
      ensures Spared(Flush(cfg, env, old(View(skey)), now), View(skey))
      ensures forall k :: k != skey ==> Spared(old(View(k)), View(k))
      ensures old(Room(skey)) ==> Room(skey) && forall k :: k != skey ==> View(k) == old(View(k))
    {
      ghost var before := View(skey);
      var b := Drain(skey);
      if !b.conflicted { FlushIngests(cfg, env, before, now); }
      if b.conflicted { return; }
      IngestResidual(cfg, env, skey, b, now);
    }

    /** takeStreamWhole, and the claim of what it returns. */
    method TakeStreamWhole(skey: string, now: int)
      requires Valid()
      modifies `streams, `past
      ensures Valid() && streams.Keys == old(streams.Keys) && View(skey) == TakeWhole(old(View(skey)), now)
      ensures forall k :: k != skey ==> View(k) == old(View(k))
    {
      if skey !in streams { return; }
      var whole, storedAny := FlattenWS(streams[skey].whole), streams[skey].storedAny;
      streams := streams[skey := streams[skey].(whole := "")];
      var marked := skey in marks && !marks[skey].failed && now - marks[skey].at < STREAM_INGESTED_TTL;
      if storedAny && whole != "" && marked { ClaimWhole(skey, whole); }
    }

    /** The residual is flushed if there is one and an engine for it. */
    method Rest(cfg: Config, env: nat -> Answer, skey: string, engine: bool, now: int)
      requires Valid() && skey != ""
      modifies `streams, `marks, `attempts, `past
      ensures Valid()
      ensures old(Survives(skey, now)) ==> View(skey) == Rested(cfg, env, old(View(skey)), engine, now)
      ensures Spared(Rested(cfg, env, old(View(skey)), engine, now), View(skey))
      ensures forall k :: k != skey ==> Spared(old(View(k)), View(k))
      ensures old(Room(skey)) ==> Room(skey) && forall k :: k != skey ==> View(k) == old(View(k))
    {
      if skey in streams && Buffers(streams[skey]) && engine { FlushStreamBuf(cfg, env, skey, now); }
    }

    method HandleEndText(cfg: Config, env: nat -> Answer, skey: string, id: int, ds: seq<Delta>, opens: bool,
                         reopens: bool,
                         now: int)
      requires Valid() && skey != "" && !Conflicted(View(skey))
      modifies `streams, `marks, `attempts, `past
      ensures Valid()
      ensures old(Survives(skey, now)) ==> View(skey) == EndText(cfg, env, old(View(skey)), id, ds, opens, reopens, now)
      ensures EndMay(cfg, env, old(View(skey)), id, ds, opens, reopens, now, View(skey))
      ensures forall k :: k != skey ==> Spared(old(View(k)), View(k))
      ensures old(Room(skey)) ==> Room(skey) && forall k :: k != skey ==> View(k) == old(View(k))
    {
      ghost var before := View(skey);
      var engine, ended := HandleDeltas(cfg, env, skey, id, ds, opens, now);
      ghost var k1 := View(skey);
      Rest(cfg, env, skey, engine || reopens, now);
      EndsSo(cfg, env, before, id, ds, opens, reopens, now, k1, View(skey));
      TakeStreamWhole(skey, now);
    }

    method ClearStreamBuf(skey: string)
      requires Valid()
      modifies `streams
      ensures Valid() && (old(Room(skey)) ==> Room(skey))
      ensures View(skey) == old(View(skey)).(buf := None)
      ensures forall k :: k != skey ==> View(k) == old(View(k))
    {
      streams := streams - {skey};
    }

    /** The terminal chunk. */
    method HandleEnd(cfg: Config, env: nat -> Answer, skey: string, id: int, ds: seq<Delta>, opens: bool, reopens: bool,
                     now: int)
      requires Valid() && skey != ""
      modifies `streams, `marks, `attempts, `past
      ensures Valid()
      ensures old(Survives(skey, now)) ==> View(skey) == Finish(cfg, env, old(View(skey)), id, ds, opens, reopens, now)
      ensures FinishMay(cfg, env, old(View(skey)), id, ds, opens, reopens, now, View(skey))
      ensures forall k :: k != skey ==> Spared(old(View(k)), View(k))
      ensures old(Room(skey)) ==> Room(skey) && forall k :: k != skey ==> View(k) == old(View(k))
    {
      if skey in streams && streams[skey].conflicted {
        NoteStreamResult(skey, false, true, now);
        return;
      }
      if cfg.ingestAssistant || cfg.ingestReasoning || cfg.interruptGate {
        HandleEndText(cfg, env, skey, id, ds, opens, reopens, now);
      }
      ClearStreamBuf(skey);
    }
  }
}
