/** What becomes of the rows a stream hands on: blank text and text nobody remembers are left
    out, and each other row is answered by the store and the engine in turn. */
module StreamFates {
  import opened Configs
  import opened Whitespace
  import opened Wrappers
  import opened Streams
  import opened StreamConservation

  /** Text of this kind is remembered at all. */
  predicate Remembered(cfg: Config, kind: Kind) {
    (kind == Reasoning && cfg.ingestReasoning) || (kind != Reasoning && cfg.ingestAssistant)
  }

  predicate Tried(cfg: Config, h: Handed) { TrimSpace(h.text) != "" && Remembered(cfg, h.kind) }

  /** How many of the rows were tried. */
  function Tries(cfg: Config, log: seq<Handed>): nat {
    if log == [] then 0
    else Tries(cfg, log[..|log| - 1]) + if Tried(cfg, log[|log| - 1]) then 1 else 0
  }

  /** The outcome of a row: it is tried, and then has the fate it is given, or not. */
  predicate FateOf(cfg: Config, answer: Answer, h: Handed) {
    match h.outcome
    case Blank => TrimSpace(h.text) == ""
    case Unwanted => TrimSpace(h.text) != "" && !Remembered(cfg, h.kind)
    case Already => Tried(cfg, h) && answer == Taken
    case Stored => Tried(cfg, h) && answer == Accepted
    case Failed => Tried(cfg, h) && answer == Rejected
  }

  /** Each row handed on has the next answer as its fate, `first` being the first of them. */
  ghost predicate FatesOk(cfg: Config, env: nat -> Answer, first: nat, log: seq<Handed>) {
    log != [] ==>
      var init := log[..|log| - 1];
      FatesOk(cfg, env, first, init) && FateOf(cfg, env(first + Tries(cfg, init)), log[|log| - 1])
  }

  ghost predicate Fated(cfg: Config, env: nat -> Answer, first: nat, k: Key) {
    k.calls == first + Tries(cfg, k.log) && FatesOk(cfg, env, first, k.log)
  }

  lemma FateAppends(cfg: Config, env: nat -> Answer, first: nat, log: seq<Handed>, h: Handed)
    requires FatesOk(cfg, env, first, log) && FateOf(cfg, env(first + Tries(cfg, log)), h)
    ensures FatesOk(cfg, env, first, log + [h])
    ensures Tries(cfg, log + [h]) == Tries(cfg, log) + if Tried(cfg, h) then 1 else 0
  {
    assert (log + [h])[..|log|] == log;
  }

  lemma OutcomeIsFate(cfg: Config, answer: Answer, kind: Kind, text: string)
    ensures var h := Handed(kind, text, OutcomeOf(cfg, answer, kind, text));
      FateOf(cfg, answer, h) && (Tried(cfg, h) <==> h.outcome != Blank && h.outcome != Unwanted)
  {
  }

  lemma HandFated(cfg: Config, env: nat -> Answer, first: nat, k: Key, kind: Kind, text: string)
    requires Fated(cfg, env, first, k)
    ensures Fated(cfg, env, first, Hand(cfg, env, k, kind, text))
  {
    OutcomeIsFate(cfg, env(k.calls), kind, text);
    FateAppends(cfg, env, first, k.log, Handed(kind, text, OutcomeOf(cfg, env(k.calls), kind, text)));
  }

  lemma SameFates(cfg: Config, env: nat -> Answer, first: nat, k: Key, k': Key)
    requires Fated(cfg, env, first, k) && k'.log == k.log && k'.calls == k.calls
    ensures Fated(cfg, env, first, k')
  {
  }

  lemma NotingFated(cfg: Config, env: nat -> Answer, first: nat, k: Key, kind: Kind, text: string, now: int)
    requires Fated(cfg, env, first, k)
    ensures Fated(cfg, env, first, HandNoting(cfg, env, k, kind, text, now))
  {
    HandFated(cfg, env, first, k, kind, text);
    SameFates(cfg, env, first, Hand(cfg, env, k, kind, text), HandNoting(cfg, env, k, kind, text, now));
  }

  lemma OneDeltaFated(cfg: Config, env: nat -> Answer, first: nat, k: Key, id: int, d: Delta, now: int)
    requires Fated(cfg, env, first, k) && k.buf.Some?
    ensures Fated(cfg, env, first, OneDelta(cfg, env, k, id, d, now)) && OneDelta(cfg, env, k, id, d, now).buf.Some?
  {
    if d.text != "" && Admits(cfg, d.kind) {
      var k1 := Admitted(k, id, d, now);
      SameFates(cfg, env, first, k, k1);
      NotingFated(cfg, env, first, k1, d.kind, Held(k.buf.value, d.kind) + d.text, now);
      var o := HandNotingFrame(cfg, env, k1, d.kind, Held(k.buf.value, d.kind) + d.text, now);
    }
  }

  lemma {:induction false} DeltasFated(cfg: Config, env: nat -> Answer, first: nat, k: Key, id: int, ds: seq<Delta>,
                                       now: int)
    requires Fated(cfg, env, first, k) && k.buf.Some?
    ensures Fated(cfg, env, first, Deltas(cfg, env, k, id, ds, now)) && Deltas(cfg, env, k, id, ds, now).buf.Some?
  {
    if ds != [] {
      DeltasFated(cfg, env, first, k, id, ds[..|ds| - 1], now);
      OneDeltaFated(cfg, env, first, Deltas(cfg, env, k, id, ds[..|ds| - 1], now), id, ds[|ds| - 1], now);
    }
  }

  lemma {:induction false} ChunksFated(cfg: Config, env: nat -> Answer, first: nat, k: Key, id: int, pieces: seq<Piece>)
    requires Fated(cfg, env, first, k) && k.buf.Some?
    ensures Fated(cfg, env, first, Chunks(cfg, env, k, id, pieces)) && Chunks(cfg, env, k, id, pieces).buf.Some?
  {
    if pieces != [] {
      var p := pieces[|pieces| - 1];
      ChunksFated(cfg, env, first, k, id, pieces[..|pieces| - 1]);
      DeltasFated(cfg, env, first, Chunks(cfg, env, k, id, pieces[..|pieces| - 1]), id, p.deltas, p.now);
    }
  }

  lemma RestFated(cfg: Config, env: nat -> Answer, first: nat, k: Key, b: Buf)
    requires Fated(cfg, env, first, k)
    ensures Fated(cfg, env, first, HandRest(cfg, env, k, b))
  {
    HandFated(cfg, env, first, k, Text, b.assistant);
    var k1 := Hand(cfg, env, k, Text, b.assistant);
    HandFated(cfg, env, first, k1, Reasoning, b.reasoning);
    HandFated(cfg, env, first, Hand(cfg, env, k1, Reasoning, b.reasoning), ToolArgs, b.toolcalls);
  }

  lemma FlushCalls(cfg: Config, env: nat -> Answer, k: Key, now: int)
    requires k.buf.Some?
    ensures var k0 := k.(buf := Some(Drained(k.buf.value)));
      var k1, k' := if k.buf.value.conflicted then k0 else HandRest(cfg, env, k0, k.buf.value), Flush(cfg, env, k, now);
      k'.log == k1.log && k'.calls == k1.calls
  {
  }

  lemma EndFated(cfg: Config, env: nat -> Answer, first: nat, k: Key, engine: bool, now: int)
    requires Fated(cfg, env, first, k) && k.buf.Some?
    ensures Fated(cfg, env, first, TakeWhole(Rested(cfg, env, k, engine, now), now))
  {
    if HasBuf(k) && engine {
      var k0 := k.(buf := Some(Drained(k.buf.value)));
      SameFates(cfg, env, first, k, k0);
      RestFated(cfg, env, first, k0, k.buf.value);
      FlushCalls(cfg, env, k, now);
    }
    SameFates(cfg, env, first, if HasBuf(k) && engine && !k.buf.value.conflicted
      then HandRest(cfg, env, k.(buf := Some(Drained(k.buf.value))), k.buf.value) else k,
      TakeWhole(Rested(cfg, env, k, engine, now), now));
  }

  /** In every stream alone on its key, with whatever chunks, settings and answers: each row
      handed on is left out if it is blank or nobody remembers its kind, and otherwise has the
      next answer as its fate, none being asked for twice or passed over. */
  lemma StreamIsFated(cfg: Config, env: nat -> Answer, k: Key, id: int, start: int, pieces: seq<Piece>, end: Piece,
                      reopens: bool)
    requires k.buf.None? || (k.buf.value.conflicted && start - k.buf.value.last > 60_000)
    ensures Fated(cfg, env, k.calls, Stream(cfg, env, k, id, start, pieces, end, reopens))
  {
    var k0 := Reset(k, start);
    ResetConserved(k, start);
    ChunksConserve(cfg, env, k0, id, pieces);
    ChunksFated(cfg, env, k.calls, k0, id, pieces);
    var k1 := Chunks(cfg, env, k0, id, pieces);
    DeltasFated(cfg, env, k.calls, k1, id, end.deltas, end.now);
    EndFated(cfg, env, k.calls, LastDeltas(cfg, env, k1, id, end.deltas, end.opens, end.now),
      HasEngine(cfg, end.deltas, end.opens, reopens), end.now);
    var k' := Finish(cfg, env, k1, id, end.deltas, end.opens, reopens, end.now);
    if HasConsumers(cfg) {
      SameFates(cfg, env, k.calls, EndText(cfg, env, k1, id, end.deltas, end.opens, reopens, end.now), k');
    } else {
      SameFates(cfg, env, k.calls, k1, k');
    }
  }

  // Streams that share a key

  /** A stream that begins while another's buffer is in use poisons it, and it stays poisoned,
      whoever begins then, until no stream has begun for more than 60 seconds; then it is replaced. */
  lemma PoisonLasts(k: Key, first: int, second: int)
    requires k.buf.Some? && !(k.buf.value.conflicted && first - k.buf.value.last > 60_000)
    ensures var k1 := Reset(k, first); var k2 := Reset(k1, second);
      && Conflicted(k1) && k1.sent == k.sent && k1.log == k.log
      && (second - first <= 60_000 ==> Conflicted(k2) && k2.sent == k.sent && k2.log == k.log)
      && (second - first > 60_000 ==> !Conflicted(k2) && k2.sent == [] && k2.log == [])
  {
  }
}
