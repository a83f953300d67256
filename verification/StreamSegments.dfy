/** Where a stream is cut into rows: a text or reasoning segment is handed on when it is long
    enough or a sentence or a line ends in its last delta, and at no other place before the
    stream ends. */
module StreamSegments {
  import opened Configs
  import opened Wrappers
  import opened Streams
  import opened StreamConservation
  import B = Bytes

  /** A segment may end with this delta: 120 bytes are reached, or a sentence or line ends. */
  predicate MayEnd(segment: string, last: string) {
    |B.Encode(segment)| >= 120 || '.' in last || '!' in last || '?' in last || '\n' in last
  }

  /** The segment `i` handed on ends exactly with the delta `j` sent, and may end there. */
  ghost predicate EndsWith(log: seq<Handed>, i: nat, sent: seq<Sent>, j: nat)
    requires i < |log| && j < |sent|
  {
    var h, d := log[i], sent[j].delta;
    && d.kind == h.kind && HandedText(log[..i + 1], h.kind) == SentText(sent[..j + 1], h.kind)
    && MayEnd(h.text, d.text)
  }

  ghost predicate CutRight(log: seq<Handed>, i: nat, sent: seq<Sent>)
    requires i < |log|
  {
    exists j :: 0 <= j < |sent| && EndsWith(log, i, sent, j)
  }

  /** No tool arguments were handed on, and every segment was cut at its right place. */
  ghost predicate Segmented(k: Key) {
    forall i :: 0 <= i < |k.log| ==> k.log[i].kind != ToolArgs && CutRight(k.log, i, k.sent)
  }

  lemma CutStays(log: seq<Handed>, i: nat, sent: seq<Sent>, log': seq<Handed>, sent': seq<Sent>)
    requires i < |log| && CutRight(log, i, sent) && log <= log' && sent <= sent'
    ensures CutRight(log', i, sent')
  {
    var j :| 0 <= j < |sent| && EndsWith(log, i, sent, j);
    assert log'[..i + 1] == log[..i + 1] && sent'[..j + 1] == sent[..j + 1];
    assert EndsWith(log', i, sent', j);
  }

  /** The segment just completed ends with the delta just sent. */
  lemma NewCut(k: Key, id: int, d: Delta, k': Key, o: Outcome)
    requires k.buf.Some? && d.kind != ToolArgs && k'.buf.Some?
    requires k'.sent == k.sent + [Sent(id, d)] && k'.log == k.log + [Handed(d.kind, Segment(k.buf.value, d), o)]
    requires Balanced(k'.log, k'.sent, k'.buf.value, d.kind) && Held(k'.buf.value, d.kind) == ""
    requires MayEnd(Segment(k.buf.value, d), d.text)
    ensures CutRight(k'.log, |k.log|, k'.sent)
  {
    assert k'.log[..|k.log| + 1] == k'.log && k'.sent[..|k.sent| + 1] == k'.sent;
    assert EndsWith(k'.log, |k.log|, k'.sent, |k.sent|);
  }

  lemma OneMoreCut(k: Key, k': Key)
    requires Segmented(k) && k.log <= k'.log && k.sent <= k'.sent && |k'.log| <= |k.log| + 1
    requires |k'.log| > |k.log| ==> k'.log[|k.log|].kind != ToolArgs && CutRight(k'.log, |k.log|, k'.sent)
    ensures Segmented(k')
  {
    forall i | 0 <= i < |k.log| ensures CutRight(k'.log, i, k'.sent) {
      CutStays(k.log, i, k.sent, k'.log, k'.sent);
    }
  }

  lemma OneDeltaCuts(cfg: Config, env: nat -> Answer, k: Key, id: int, d: Delta, now: int)
    requires Segmented(k) && Conserved(k) && !Conflicted(k)
    ensures Segmented(OneDelta(cfg, env, k, id, d, now))
  {
    var k' := OneDelta(cfg, env, k, id, d, now);
    OneDeltaConserves(cfg, env, k, id, d, now);
    if d.text != "" && Admits(cfg, d.kind) {
      if Completes(k.buf.value, d) {
        var o := HandNotingFrame(cfg, env, Admitted(k, id, d, now), d.kind, Segment(k.buf.value, d), now);
        HeldAppended(k.buf.value, d, now, d.kind);
        NewCut(k, id, d, k', o);
      }
      OneMoreCut(k, k');
    }
  }

  lemma {:induction false} DeltasCut(cfg: Config, env: nat -> Answer, k: Key, id: int, ds: seq<Delta>, now: int)
    requires Segmented(k) && Conserved(k) && !Conflicted(k)
    ensures Segmented(Deltas(cfg, env, k, id, ds, now))
  {
    if ds != [] {
      DeltasCut(cfg, env, k, id, ds[..|ds| - 1], now);
      DeltasConserve(cfg, env, k, id, ds[..|ds| - 1], now);
      OneDeltaCuts(cfg, env, Deltas(cfg, env, k, id, ds[..|ds| - 1], now), id, ds[|ds| - 1], now);
    }
  }

  /** At every moment of a stream each row handed on so far was cut at its right place, and what
      is buffered of text and reasoning could not be cut anywhere. */
  lemma {:induction false} ChunksCut(cfg: Config, env: nat -> Answer, k: Key, id: int, pieces: seq<Piece>)
    requires Segmented(k) && Conserved(k) && !Conflicted(k)
    ensures var k' := Chunks(cfg, env, k, id, pieces);
      Segmented(k') && k'.buf.Some? && Residual(k'.buf.value.assistant) && Residual(k'.buf.value.reasoning)
  {
    ChunksConserve(cfg, env, k, id, pieces);
    if pieces != [] {
      var p, k1 := pieces[|pieces| - 1], Chunks(cfg, env, k, id, pieces[..|pieces| - 1]);
      ChunksCut(cfg, env, k, id, pieces[..|pieces| - 1]);
      ChunksConserve(cfg, env, k, id, pieces[..|pieces| - 1]);
      if HasConsumers(cfg) && p.opens { DeltasCut(cfg, env, k1, id, p.deltas, p.now); }
    }
  }

  /** What is handed on at the end of a stream: nothing, or the rest of each kind, text first and
      tool arguments last, the text and reasoning short of a segment. */
  ghost predicate RestOf(log: seq<Handed>, b: Buf) {
    || log == []
    || (&& |log| == 3 && log[0].kind == Text && log[1].kind == Reasoning && log[2].kind == ToolArgs
        && log[0].text == b.assistant && log[1].text == b.reasoning && log[2].text == b.toolcalls
        && Residual(b.assistant) && Residual(b.reasoning))
  }

  /** The first `n` rows were cut at their right places, the others are the rest. */
  ghost predicate CutUpTo(log: seq<Handed>, sent: seq<Sent>, n: nat, b: Buf) {
    && n <= |log| && RestOf(log[n..], b)
    && forall i :: 0 <= i < n ==> log[i].kind != ToolArgs && CutRight(log, i, sent)
  }

  ghost predicate WellCut(log: seq<Handed>, sent: seq<Sent>) { exists n, b :: CutUpTo(log, sent, n, b) }

  lemma RestIsResidual(cfg: Config, env: nat -> Answer, k: Key, engine: bool, now: int)
    requires Conserved(k) && !Conflicted(k)
    ensures var k' := TakeWhole(Rested(cfg, env, k, engine, now), now);
      k.log <= k'.log && RestOf(k'.log[|k.log|..], k.buf.value)
  {
    TakeFrame(Rested(cfg, env, k, engine, now), now);
    if HasBuf(k) && engine {
      var b := k.buf.value;
      FlushFrame(cfg, env, k, now);
      var o1, o2, o3 := HandRestFrame(cfg, env, k.(buf := Some(Drained(b))), b);
      var rest :=
        [Handed(Text, b.assistant, o1), Handed(Reasoning, b.reasoning, o2), Handed(ToolArgs, b.toolcalls, o3)];
      assert Flush(cfg, env, k, now).log == k.log + rest;
    }
  }

  lemma EndIsSegmented(cfg: Config, env: nat -> Answer, k: Key, engine: bool, now: int)
    requires Segmented(k) && Conserved(k) && !Conflicted(k)
    ensures var k' := TakeWhole(Rested(cfg, env, k, engine, now), now); WellCut(k'.log, k'.sent)
  {
    var k' := TakeWhole(Rested(cfg, env, k, engine, now), now);
    RestIsResidual(cfg, env, k, engine, now);
    TakeFrame(Rested(cfg, env, k, engine, now), now);
    if HasBuf(k) && engine { FlushFrame(cfg, env, k, now); }
    forall i | 0 <= i < |k.log| ensures k'.log[i].kind != ToolArgs && CutRight(k'.log, i, k'.sent) {
      CutStays(k.log, i, k.sent, k'.log, k'.sent);
    }
    assert CutUpTo(k'.log, k'.sent, |k.log|, k.buf.value);
  }

  lemma LastDeltasCut(cfg: Config, env: nat -> Answer, k: Key, id: int, pieces: seq<Piece>, end: Piece)
    requires Segmented(k) && Conserved(k) && !Conflicted(k)
    ensures var k' := LastDeltas(cfg, env, Chunks(cfg, env, k, id, pieces), id, end.deltas, end.opens, end.now);
      Segmented(k') && Conserved(k') && !Conflicted(k')
  {
    ChunksCut(cfg, env, k, id, pieces);
    ChunksConserve(cfg, env, k, id, pieces);
    DeltasCut(cfg, env, Chunks(cfg, env, k, id, pieces), id, end.deltas, end.now);
    DeltasConserve(cfg, env, Chunks(cfg, env, k, id, pieces), id, end.deltas, end.now);
  }

  lemma FinishRests(cfg: Config, env: nat -> Answer, k: Key, id: int, end: Piece, reopens: bool)
    requires !Conflicted(k) && HasConsumers(cfg)
    ensures var k1 := LastDeltas(cfg, env, k, id, end.deltas, end.opens, end.now);
      Finish(cfg, env, k, id, end.deltas, end.opens, reopens, end.now) ==
        TakeWhole(Rested(cfg, env, k1, HasEngine(cfg, end.deltas, end.opens, reopens), end.now), end.now).(buf := None)
  {
  }

  /** Of every stream, whatever its chunks and whatever fails: the rows handed on before its end
      were each cut where 120 bytes were reached or a sentence or line ended, in the last delta
      they hold; at its end comes the rest of each kind, or nothing. */
  lemma StreamIsSegmented(cfg: Config, env: nat -> Answer, k: Key, id: int, start: int, pieces: seq<Piece>, end: Piece,
                          reopens: bool)
    requires (k.buf.None? || Decayed(k, start)) && Consumes(cfg)
    ensures var k' := Stream(cfg, env, k, id, start, pieces, end, reopens); WellCut(k'.log, k'.sent)
  {
    var k0 := Reset(k, start);
    ResetConserved(k, start);
    ChunksConserve(cfg, env, k0, id, pieces);
    LastDeltasCut(cfg, env, k0, id, pieces, end);
    FinishRests(cfg, env, Chunks(cfg, env, k0, id, pieces), id, end, reopens);
    EndIsSegmented(cfg, env, LastDeltas(cfg, env, Chunks(cfg, env, k0, id, pieces), id, end.deltas, end.opens, end.now),
      HasEngine(cfg, end.deltas, end.opens, reopens), end.now);
  }
}
