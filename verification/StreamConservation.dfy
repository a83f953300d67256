/** Every admitted delta of a stream reaches durable ingest once, in order: segment by
    segment, and the residual at stream end. */
module StreamConservation {
  import opened Configs
  import opened Wrappers
  import opened Streams
  import B = Bytes

  // The text of each kind, as sent and as handed on

  function SentText(sent: seq<Sent>, kind: Kind): string {
    if sent == [] then ""
    else
      var d := sent[|sent| - 1].delta;
      SentText(sent[..|sent| - 1], kind) + if d.kind == kind then d.text else ""
  }

  function HandedText(log: seq<Handed>, kind: Kind): string {
    if log == [] then ""
    else
      var h := log[|log| - 1];
      HandedText(log[..|log| - 1], kind) + if h.kind == kind then h.text else ""
  }

  lemma SentAppend(sent: seq<Sent>, s: Sent, kind: Kind)
    ensures SentText(sent + [s], kind) == SentText(sent, kind) + if s.delta.kind == kind then s.delta.text else ""
  {
    assert (sent + [s])[..|sent|] == sent;
  }

  lemma HandedAppend(log: seq<Handed>, h: Handed, kind: Kind)
    ensures HandedText(log + [h], kind) == HandedText(log, kind) + if h.kind == kind then h.text else ""
  {
    assert (log + [h])[..|log|] == log;
  }

  /** Short of a segment: under 120 bytes, and no sentence or line ends in it. */
  predicate Residual(s: string) {
    |B.Encode(s)| < 120 && '.' !in s && '!' !in s && '?' !in s && '\n' !in s
  }

  /** What was handed on and what is buffered is what was sent. */
  ghost predicate Balanced(log: seq<Handed>, sent: seq<Sent>, b: Buf, kind: Kind) {
    HandedText(log, kind) + Held(b, kind) == SentText(sent, kind)
  }

  ghost predicate NoTools(log: seq<Handed>) { forall h :: h in log ==> h.kind != ToolArgs }

  ghost predicate Conserved(k: Key) {
    && k.buf.Some?
    && (forall kind :: Balanced(k.log, k.sent, k.buf.value, kind))
    && k.buf.value.whole == SentText(k.sent, Text)
    && Residual(k.buf.value.assistant) && Residual(k.buf.value.reasoning)
    && NoTools(k.log)
  }

  /** A buffer just made holds nothing and owes nothing. */
  lemma FreshConserved(k: Key, now: int)
    requires k.buf == Some(Fresh(now)) && k.sent == [] && k.log == []
    ensures Conserved(k)
  {
  }

  lemma AppendKeepsResidual(b: Buf, d: Delta, now: int)
    requires Residual(b.assistant) && Residual(b.reasoning)
    ensures Residual(Appended(b, d, now).assistant) && Residual(Appended(b, d, now).reasoning)
  {
  }

  /** The text of a completed segment. */
  function Segment(b: Buf, d: Delta): string { Held(b, d.kind) + d.text }

  lemma HeldAppended(b: Buf, d: Delta, now: int, kind: Kind)
    ensures Held(Appended(b, d, now), kind) ==
      if kind != d.kind then Held(b, kind) else if Completes(b, d) then "" else Segment(b, d)
  {
  }

  lemma BufferBalances(log: seq<Handed>, sent: seq<Sent>, b: Buf, b': Buf, id: int, d: Delta, kind: Kind)
    requires Balanced(log, sent, b, kind)
    requires Held(b', kind) == if kind == d.kind then Segment(b, d) else Held(b, kind)
    ensures Balanced(log, sent + [Sent(id, d)], b', kind)
  {
    SentAppend(sent, Sent(id, d), kind);
  }

  lemma EmitBalances(log: seq<Handed>, sent: seq<Sent>, b: Buf, b': Buf, id: int, d: Delta, o: Outcome, kind: Kind)
    requires Balanced(log, sent, b, kind)
    requires Held(b', kind) == if kind == d.kind then "" else Held(b, kind)
    ensures Balanced(log + [Handed(d.kind, Segment(b, d), o)], sent + [Sent(id, d)], b', kind)
  {
    SentAppend(sent, Sent(id, d), kind);
    HandedAppend(log, Handed(d.kind, Segment(b, d), o), kind);
    Regroup(HandedText(log, kind), Held(b, d.kind), d.text);
  }

  lemma Regroup(a: string, b: string, c: string)
    ensures a + (b + c) == a + b + c
  {
  }

  /** Handing a text on and noting the result touch only the log and the marks. */
  lemma HandNotingFrame(cfg: Config, env: nat -> Answer, k: Key, kind: Kind, text: string,
                        now: int) returns (o: Outcome)
    requires k.buf.Some?
    ensures var k' := HandNoting(cfg, env, k, kind, text, now);
      && k'.buf.Some? && k'.sent == k.sent && k'.log == k.log + [Handed(kind, text, o)]
      && k'.buf.value.(storedAny := k.buf.value.storedAny) == k.buf.value
      && k'.claims == k.claims && k'.calls >= k.calls
  {
    o := OutcomeOf(cfg, env(k.calls), kind, text);
  }

  lemma BalancedFrame(log: seq<Handed>, sent: seq<Sent>, b: Buf, b': Buf, kind: Kind)
    requires Balanced(log, sent, b, kind) && b'.(storedAny := b.storedAny) == b
    ensures Balanced(log, sent, b', kind)
  {
  }

  lemma OneDeltaConserves(cfg: Config, env: nat -> Answer, k: Key, id: int, d: Delta, now: int)
    requires Conserved(k) && !Conflicted(k)
    ensures Conserved(OneDelta(cfg, env, k, id, d, now)) && !Conflicted(OneDelta(cfg, env, k, id, d, now))
  {
    if d.text != "" && Admits(cfg, d.kind) {
      var b, k1 := k.buf.value, Admitted(k, id, d, now);
      var k2 := OneDelta(cfg, env, k, id, d, now);
      AppendKeepsResidual(b, d, now);
      SentAppend(k.sent, Sent(id, d), Text);
      if Completes(b, d) {
        var o := HandNotingFrame(cfg, env, k1, d.kind, Segment(b, d), now);
        forall kind ensures Balanced(k2.log, k2.sent, k2.buf.value, kind) {
          HeldAppended(b, d, now, kind);
          EmitBalances(k.log, k.sent, b, Appended(b, d, now), id, d, o, kind);
          BalancedFrame(k2.log, k2.sent, Appended(b, d, now), k2.buf.value, kind);
        }
      } else {
        forall kind ensures Balanced(k2.log, k2.sent, k2.buf.value, kind) {
          HeldAppended(b, d, now, kind);
          BufferBalances(k.log, k.sent, b, Appended(b, d, now), id, d, kind);
        }
      }
    }
  }

  lemma {:induction false} DeltasConserve(cfg: Config, env: nat -> Answer, k: Key, id: int, ds: seq<Delta>, now: int)
    requires Conserved(k) && !Conflicted(k)
    ensures Conserved(Deltas(cfg, env, k, id, ds, now)) && !Conflicted(Deltas(cfg, env, k, id, ds, now))
  {
    if ds != [] {
      DeltasConserve(cfg, env, k, id, ds[..|ds| - 1], now);
      OneDeltaConserves(cfg, env, Deltas(cfg, env, k, id, ds[..|ds| - 1], now), id, ds[|ds| - 1], now);
    }
  }

  /** At every moment of a stream, what was handed on and what is buffered is what was sent,
      the whole message is all its text, and the residual is short of a segment. */
  lemma ChunkConserves(cfg: Config, env: nat -> Answer, k: Key, id: int, ds: seq<Delta>, opens: bool, now: int)
    requires Conserved(k) && !Conflicted(k)
    ensures Conserved(Chunk(cfg, env, k, id, ds, opens, now)) && !Conflicted(Chunk(cfg, env, k, id, ds, opens, now))
  {
    if HasConsumers(cfg) && opens { DeltasConserve(cfg, env, k, id, ds, now); }
  }

  // Stream end

  /** Everything sent has been handed on. */
  ghost predicate AllHanded(k: Key) { forall kind :: HandedText(k.log, kind) == SentText(k.sent, kind) }

  lemma HandFrame(cfg: Config, env: nat -> Answer, k: Key, kind: Kind, text: string) returns (o: Outcome)
    ensures var k' := Hand(cfg, env, k, kind, text);
      k' == k.(calls := k'.calls, log := k.log + [Handed(kind, text, o)])
    ensures o == OutcomeOf(cfg, env(k.calls), kind, text)
  {
    o := OutcomeOf(cfg, env(k.calls), kind, text);
  }

  lemma HandRestFrame(cfg: Config, env: nat -> Answer, k: Key, b: Buf) returns (o1: Outcome, o2: Outcome, o3: Outcome)
    ensures var k' := HandRest(cfg, env, k, b);
      k' == k.(calls := k'.calls,
        log := k.log + [Handed(Text, b.assistant, o1)] + [Handed(Reasoning, b.reasoning, o2)]
          + [Handed(ToolArgs, b.toolcalls, o3)])
  {
    o1 := HandFrame(cfg, env, k, Text, b.assistant);
    var k1 := Hand(cfg, env, k, Text, b.assistant);
    o2 := HandFrame(cfg, env, k1, Reasoning, b.reasoning);
    var k2 := Hand(cfg, env, k1, Reasoning, b.reasoning);
    o3 := HandFrame(cfg, env, k2, ToolArgs, b.toolcalls);
  }

  lemma RestBalances(log: seq<Handed>, sent: seq<Sent>, b: Buf, o1: Outcome, o2: Outcome, o3: Outcome, kind: Kind)
    requires Balanced(log, sent, b, kind)
    ensures HandedText(
      log + [Handed(Text, b.assistant, o1)] + [Handed(Reasoning, b.reasoning, o2)]
      + [Handed(ToolArgs, b.toolcalls, o3)],
      kind) == SentText(sent, kind)
  {
    var log1 := log + [Handed(Text, b.assistant, o1)];
    HandedAppend(log, Handed(Text, b.assistant, o1), kind);
    HandedAppend(log1, Handed(Reasoning, b.reasoning, o2), kind);
    HandedAppend(log1 + [Handed(Reasoning, b.reasoning, o2)], Handed(ToolArgs, b.toolcalls, o3), kind);
  }

  lemma FlushFrame(cfg: Config, env: nat -> Answer, k: Key, now: int)
    requires k.buf.Some? && !Conflicted(k)
    ensures var k' := Flush(cfg, env, k, now);
      && k'.sent == k.sent && k'.log == HandRest(cfg, env, k.(buf := Some(Drained(k.buf.value))), k.buf.value).log
      && k'.buf.Some? && k'.buf.value.(storedAny := k.buf.value.storedAny) == Drained(k.buf.value)
  {
    var o1, o2, o3 := HandRestFrame(cfg, env, k.(buf := Some(Drained(k.buf.value))), k.buf.value);
  }

  /** At most one tool-argument text is ever handed on. */
  ghost predicate ToolsOnce(log: seq<Handed>) {
    forall i, j :: 0 <= i < j < |log| ==> log[i].kind != ToolArgs || log[j].kind != ToolArgs
  }

  lemma FlushConserves(cfg: Config, env: nat -> Answer, k: Key, now: int)
    requires Conserved(k) && !Conflicted(k)
    ensures AllHanded(Flush(cfg, env, k, now)) && ToolsOnce(Flush(cfg, env, k, now).log)
  {
    var b := k.buf.value;
    FlushFrame(cfg, env, k, now);
    var o1, o2, o3 := HandRestFrame(cfg, env, k.(buf := Some(Drained(b))), b);
    forall kind ensures HandedText(Flush(cfg, env, k, now).log, kind) == SentText(k.sent, kind) {
      RestBalances(k.log, k.sent, b, o1, o2, o3, kind);
    }
    assert forall i :: 0 <= i < |k.log| ==> k.log[i] in k.log;
  }

  lemma EmptyConserves(k: Key)
    requires Conserved(k) && !HasBuf(k)
    ensures AllHanded(k) && ToolsOnce(k.log)
  {
    forall kind ensures HandedText(k.log, kind) == SentText(k.sent, kind) {
      assert Balanced(k.log, k.sent, k.buf.value, kind);
    }
    assert forall i :: 0 <= i < |k.log| ==> k.log[i] in k.log;
  }

  lemma TakeFrame(k: Key, now: int)
    ensures TakeWhole(k, now).log == k.log && TakeWhole(k, now).sent == k.sent
  {
  }

  /** Somebody wants text of this kind: the memory of it, or the gate that looks at all prose. */
  predicate Wants(cfg: Config, kind: Kind) {
    || (cfg.ingestAssistant && kind != Reasoning) || (cfg.ingestReasoning && kind == Reasoning)
    || (cfg.interruptGate && kind != ToolArgs)
  }

  /** An engine opens at the end of a stream: for its last deltas, if some text of them is
      wanted, or else for the residual. */
  ghost predicate Opens(cfg: Config, ds: seq<Delta>, opens: bool, reopens: bool) {
    reopens || (opens && exists i :: 0 <= i < |ds| && ds[i].text != "" && Wants(cfg, ds[i].kind))
  }

  /** The plugin does something with streams. */
  predicate Consumes(cfg: Config) { cfg.ingestAssistant || cfg.ingestReasoning || cfg.interruptGate }

  /** Stream end: with an engine for the residual, everything sent has been handed on, each
      byte once and in order, tool arguments in one piece; the buffer is gone. */
  lemma FinishConserves(cfg: Config, env: nat -> Answer, k: Key, id: int, ds: seq<Delta>, opens: bool, reopens: bool,
                        now: int)
    requires Conserved(k) && !Conflicted(k) && Consumes(cfg) && Opens(cfg, ds, opens, reopens)
    ensures var k' := Finish(cfg, env, k, id, ds, opens, reopens, now);
      && AllHanded(k') && ToolsOnce(k'.log) && k'.buf.None?
      && k'.sent == LastDeltas(cfg, env, k, id, ds, opens, now).sent
  {
    var k1 := LastDeltas(cfg, env, k, id, ds, opens, now);
    DeltasConserve(cfg, env, k, id, ds, now);
    if HasBuf(k1) {
      FlushConserves(cfg, env, k1, now);
      FlushFrame(cfg, env, k1, now);
      TakeFrame(Flush(cfg, env, k1, now), now);
    } else {
      EmptyConserves(k1);
      TakeFrame(k1, now);
    }
  }

  // A whole stream

  /** A chunk: its deltas, whether the engine opens for them, and when it comes. */
  datatype Piece = Piece(deltas: seq<Delta>, opens: bool, now: int)

  /** Chunks of one stream. */
  function Chunks(cfg: Config, env: nat -> Answer, k: Key, id: int, pieces: seq<Piece>): Key {
    if pieces == [] then k
    else
      var p := pieces[|pieces| - 1];
      Chunk(cfg, env, Chunks(cfg, env, k, id, pieces[..|pieces| - 1]), id, p.deltas, p.opens, p.now)
  }

  /** Init, chunks, and the terminal chunk. */
  function Stream(cfg: Config, env: nat -> Answer, k: Key, id: int, start: int, pieces: seq<Piece>, end: Piece,
                  reopens: bool): Key {
    Finish(cfg, env, Chunks(cfg, env, Reset(k, start), id, pieces), id, end.deltas, end.opens, reopens, end.now)
  }

  /** The text of a kind among deltas. */
  function TextOf(ds: seq<Delta>, kind: Kind): string {
    if ds == [] then ""
    else TextOf(ds[..|ds| - 1], kind) + if ds[|ds| - 1].kind == kind then ds[|ds| - 1].text else ""
  }

  /** The text of a chunk that the buffer gets: all, or none if the engine does not open. */
  function TextOfPiece(p: Piece, kind: Kind): string { if p.opens then TextOf(p.deltas, kind) else "" }

  function TextIn(pieces: seq<Piece>, kind: Kind): string {
    if pieces == [] then "" else TextIn(pieces[..|pieces| - 1], kind) + TextOfPiece(pieces[|pieces| - 1], kind)
  }

  function Wanted(cfg: Config, kind: Kind, text: string): string { if Wants(cfg, kind) then text else "" }

  lemma OneDeltaSends(cfg: Config, env: nat -> Answer, k: Key, id: int, d: Delta, now: int, kind: Kind)
    requires k.buf.Some?
    ensures OneDelta(cfg, env, k, id, d, now).buf.Some?
    ensures SentText(OneDelta(cfg, env, k, id, d, now).sent, kind) ==
      SentText(k.sent, kind) + Wanted(cfg, kind, if d.kind == kind then d.text else "")
  {
    if d.text != "" && Admits(cfg, d.kind) {
      var k1 := Admitted(k, id, d, now);
      SentAppend(k.sent, Sent(id, d), kind);
      var o := HandNotingFrame(cfg, env, k1, d.kind, Segment(k.buf.value, d), now);
    }
  }

  lemma {:induction false} DeltasSend(cfg: Config, env: nat -> Answer, k: Key, id: int, ds: seq<Delta>,
                                      now: int, kind: Kind)
    requires k.buf.Some?
    ensures Deltas(cfg, env, k, id, ds, now).buf.Some?
    ensures SentText(Deltas(cfg, env, k, id, ds, now).sent, kind) ==
      SentText(k.sent, kind) + Wanted(cfg, kind, TextOf(ds, kind))
  {
    if ds != [] {
      DeltasSend(cfg, env, k, id, ds[..|ds| - 1], now, kind);
      OneDeltaSends(cfg, env, Deltas(cfg, env, k, id, ds[..|ds| - 1], now), id, ds[|ds| - 1], now, kind);
    }
  }

  lemma ChunkSends(cfg: Config, env: nat -> Answer, k: Key, id: int, p: Piece, kind: Kind)
    requires k.buf.Some? && !Conflicted(k) && HasConsumers(cfg)
    ensures SentText(Chunk(cfg, env, k, id, p.deltas, p.opens, p.now).sent, kind) ==
      SentText(k.sent, kind) + Wanted(cfg, kind, TextOfPiece(p, kind))
  {
    DeltasSend(cfg, env, k, id, p.deltas, p.now, kind);
  }

  lemma {:induction false} ChunksConserve(cfg: Config, env: nat -> Answer, k: Key, id: int, pieces: seq<Piece>)
    requires Conserved(k) && !Conflicted(k)
    ensures Conserved(Chunks(cfg, env, k, id, pieces)) && !Conflicted(Chunks(cfg, env, k, id, pieces))
  {
    if pieces != [] {
      var p := pieces[|pieces| - 1];
      ChunksConserve(cfg, env, k, id, pieces[..|pieces| - 1]);
      ChunkConserves(cfg, env, Chunks(cfg, env, k, id, pieces[..|pieces| - 1]), id, p.deltas, p.opens, p.now);
    }
  }

  lemma {:induction false} ChunksSend(cfg: Config, env: nat -> Answer, k: Key, id: int, pieces: seq<Piece>, kind: Kind)
    requires Conserved(k) && !Conflicted(k) && HasConsumers(cfg)
    ensures SentText(Chunks(cfg, env, k, id, pieces).sent, kind) ==
      SentText(k.sent, kind) + Wanted(cfg, kind, TextIn(pieces, kind))
  {
    if pieces != [] {
      ChunksSend(cfg, env, k, id, pieces[..|pieces| - 1], kind);
      ChunksConserve(cfg, env, k, id, pieces[..|pieces| - 1]);
      ChunkSends(cfg, env, Chunks(cfg, env, k, id, pieces[..|pieces| - 1]), id, pieces[|pieces| - 1], kind);
      WantedAdds(cfg, kind, SentText(k.sent, kind), TextIn(pieces[..|pieces| - 1], kind),
        TextOfPiece(pieces[|pieces| - 1], kind));
    }
  }

  lemma WantedAdds(cfg: Config, kind: Kind, before: string, a: string, b: string)
    ensures before + Wanted(cfg, kind, a) + Wanted(cfg, kind, b) == before + Wanted(cfg, kind, a + b)
  {
  }

  lemma LastSends(cfg: Config, env: nat -> Answer, k: Key, id: int, end: Piece, reopens: bool, kind: Kind)
    requires Conserved(k) && !Conflicted(k) && Consumes(cfg) && Opens(cfg, end.deltas, end.opens, reopens)
    ensures var k' := Finish(cfg, env, k, id, end.deltas, end.opens, reopens, end.now);
      && HandedText(k'.log, kind) == SentText(k.sent, kind) + Wanted(cfg, kind, TextOfPiece(end, kind))
      && ToolsOnce(k'.log) && k'.buf.None?
  {
    FinishConserves(cfg, env, k, id, end.deltas, end.opens, reopens, end.now);
    DeltasSend(cfg, env, k, id, end.deltas, end.now, kind);
  }

  lemma ResetConserved(k: Key, start: int)
    requires k.buf.None? || Decayed(k, start)
    ensures Conserved(Reset(k, start)) && !Conflicted(Reset(k, start)) && Reset(k, start).sent == []
  {
    FreshConserved(Reset(k, start), start);
  }

  /** A stream alone on its key, with an engine at its end: of each kind, what reaches durable
      ingest is exactly the text of the chunks for which the engine opened, in order; nothing
      of a kind nobody wants. */
  lemma StreamConserves(cfg: Config, env: nat -> Answer, k: Key, id: int, start: int,
                        pieces: seq<Piece>, end: Piece, reopens: bool, kind: Kind)
    requires k.buf.None? || (k.buf.value.conflicted && start - k.buf.value.last > 60_000)
    requires Consumes(cfg) && Opens(cfg, end.deltas, end.opens, reopens)
    ensures var k' := Stream(cfg, env, k, id, start, pieces, end, reopens);
      && HandedText(k'.log, kind) == Wanted(cfg, kind, TextIn(pieces, kind) + TextOfPiece(end, kind))
      && ToolsOnce(k'.log) && k'.buf.None?
  {
    var k0 := Reset(k, start);
    ResetConserved(k, start);
    ChunksSend(cfg, env, k0, id, pieces, kind);
    ChunksConserve(cfg, env, k0, id, pieces);
    LastSends(cfg, env, Chunks(cfg, env, k0, id, pieces), id, end, reopens, kind);
    WantedAdds(cfg, kind, "", TextIn(pieces, kind), TextOfPiece(end, kind));
  }
}
