/** The whole-message claim at stream end, which suppresses a later resubmission of the
    message: when it is made, and when the message is really all in memory. */
module StreamClaims {
  import opened Configs
  import opened Whitespace
  import opened Wrappers
  import opened Streams
  import opened StreamConservation
  import P = StreamPurity

  ghost predicate HasOutcome(log: seq<Handed>, o: Outcome) { exists h :: h in log && h.outcome == o }

  /** Every assistant text handed on is stored, was stored before, or is blank. */
  ghost predicate Safe(log: seq<Handed>) {
    forall h :: h in log && h.kind == Text ==> h.outcome == Stored || h.outcome == Already || h.outcome == Blank
  }

  ghost predicate NothingUnwanted(log: seq<Handed>) { forall h :: h in log && h.kind == Text ==> h.outcome != Unwanted }

  /** The marks tell what happened: a failure is never forgotten, and storedAny means what it says. */
  ghost predicate Accounted(k: Key) {
    && k.buf.Some?
    && (HasOutcome(k.log, Failed) ==> k.mark.Some? && k.mark.value.failed)
    && (k.buf.value.storedAny <==> HasOutcome(k.log, Stored))
    && NothingUnwanted(k.log)
  }

  lemma OutcomeAppend(log: seq<Handed>, h: Handed, o: Outcome)
    ensures HasOutcome(log + [h], o) <==> HasOutcome(log, o) || h.outcome == o
    ensures NothingUnwanted(log + [h]) <==> NothingUnwanted(log) && !(h.kind == Text && h.outcome == Unwanted)
  {
    assert h in log + [h];
    assert forall x :: x in log + [h] <==> x in log || x == h;
    if HasOutcome(log, o) {
      var x :| x in log && x.outcome == o;
      assert x in log + [h];
    }
  }

  lemma HandNotingAccounts(cfg: Config, env: nat -> Answer, k: Key, kind: Kind, text: string, now: int)
    requires Accounted(k) && cfg.ingestAssistant
    ensures Accounted(HandNoting(cfg, env, k, kind, text, now))
  {
    var o := OutcomeOf(cfg, env(k.calls), kind, text);
    OutcomeAppend(k.log, Handed(kind, text, o), Failed);
    OutcomeAppend(k.log, Handed(kind, text, o), Stored);
  }

  lemma OneDeltaAccounts(cfg: Config, env: nat -> Answer, k: Key, id: int, d: Delta, now: int)
    requires Accounted(k) && cfg.ingestAssistant
    ensures Accounted(OneDelta(cfg, env, k, id, d, now))
  {
    if d.text != "" && Admits(cfg, d.kind) {
      var k1 := Admitted(k, id, d, now);
      assert k1.buf.value.storedAny == k.buf.value.storedAny;
      HandNotingAccounts(cfg, env, k1, d.kind, Segment(k.buf.value, d), now);
    }
  }

  lemma {:induction false} DeltasAccount(cfg: Config, env: nat -> Answer, k: Key, id: int, ds: seq<Delta>, now: int)
    requires Accounted(k) && cfg.ingestAssistant
    ensures Accounted(Deltas(cfg, env, k, id, ds, now))
  {
    if ds != [] {
      DeltasAccount(cfg, env, k, id, ds[..|ds| - 1], now);
      OneDeltaAccounts(cfg, env, Deltas(cfg, env, k, id, ds[..|ds| - 1], now), id, ds[|ds| - 1], now);
    }
  }

  /** What every moment of a stream keeps. */
  lemma ChunkAccounts(cfg: Config, env: nat -> Answer, k: Key, id: int, ds: seq<Delta>, opens: bool, now: int)
    requires Accounted(k) && cfg.ingestAssistant
    ensures Accounted(Chunk(cfg, env, k, id, ds, opens, now))
  {
    if !Conflicted(k) && opens { DeltasAccount(cfg, env, k, id, ds, now); }
  }

  lemma FreshAccounted(k: Key, now: int)
    requires k.buf == Some(Fresh(now)) && k.log == []
    ensures Accounted(k)
  {
  }

  // The claim with a residual left

  lemma HandUnwanted(cfg: Config, env: nat -> Answer, k: Key, kind: Kind, text: string)
    requires NothingUnwanted(k.log) && cfg.ingestAssistant
    ensures NothingUnwanted(Hand(cfg, env, k, kind, text).log)
  {
    var o := HandFrame(cfg, env, k, kind, text);
    OutcomeAppend(k.log, Handed(kind, text, o), Unwanted);
  }

  lemma RestUnwanted(cfg: Config, env: nat -> Answer, k: Key, b: Buf)
    requires NothingUnwanted(k.log) && cfg.ingestAssistant
    ensures NothingUnwanted(HandRest(cfg, env, k, b).log)
  {
    HandUnwanted(cfg, env, k, Text, b.assistant);
    var k1 := Hand(cfg, env, k, Text, b.assistant);
    HandUnwanted(cfg, env, k1, Reasoning, b.reasoning);
    HandUnwanted(cfg, env, Hand(cfg, env, k1, Reasoning, b.reasoning), ToolArgs, b.toolcalls);
  }

  lemma AmongRest(before: seq<Handed>, log: seq<Handed>, o: Outcome)
    requires before <= log
    ensures HasOutcome(log, o) <==> HasOutcome(before, o) || Among(log, |before|, o)
  {
    if HasOutcome(log, o) {
      var h :| h in log && h.outcome == o;
      var i :| 0 <= i < |log| && log[i] == h;
      assert i < |before| ==> before[i] == h;
    }
    if HasOutcome(before, o) {
      var h :| h in before && h.outcome == o;
      var i :| 0 <= i < |before| && before[i] == h;
      assert log[i] == h;
    }
    if Among(log, |before|, o) {
      var i :| |before| <= i < |log| && log[i].outcome == o;
      assert log[i] in log;
    }
  }

  /** Assistant text lost before the residual was reached. */
  ghost predicate LostBefore(log: seq<Handed>) { exists h :: h in log && h.kind == Text && h.outcome == Failed }

  lemma SafeRest(before: seq<Handed>, log: seq<Handed>)
    requires before <= log && NothingUnwanted(log) && !Among(log, |before|, Failed)
    ensures Safe(log) <==> !LostBefore(before)
  {
    if LostBefore(before) {
      var h :| h in before && h.kind == Text && h.outcome == Failed;
      assert h in log;
    }
    if !Safe(log) {
      var h :| h in log && h.kind == Text && h.outcome == Failed;
      var i :| 0 <= i < |log| && log[i] == h;
      assert i < |before| && before[i] == h;
    }
  }

  lemma RestExtends(cfg: Config, env: nat -> Answer, k: Key, b: Buf)
    ensures k.log <= HandRest(cfg, env, k, b).log
  {
    var o1, o2, o3 := HandRestFrame(cfg, env, k, b);
  }

  /** With a residual left, a message is claimed exactly when something of the stream was
      stored, no part of the residual failed, and there is text; failures before do not count. */
  lemma FlushClaims(cfg: Config, env: nat -> Answer, k: Key, now: int)
    requires Accounted(k) && Conserved(k) && !Conflicted(k) && cfg.ingestAssistant
    ensures var k' := Flush(cfg, env, k, now);
      && k.log <= k'.log && NothingUnwanted(k'.log)
      && k'.claims == (if HasOutcome(k'.log, Stored) && !Among(k'.log, |k.log|, Failed) && SentText(k.sent, Text) != ""
                       then k.claims + [FlattenWS(SentText(k.sent, Text))] else k.claims)
  {
    var k0 := k.(buf := Some(Drained(k.buf.value)));
    var k1 := HandRest(cfg, env, k0, k.buf.value);
    RestExtends(cfg, env, k0, k.buf.value);
    RestUnwanted(cfg, env, k0, k.buf.value);
    var o1, o2, o3 := HandRestFrame(cfg, env, k0, k.buf.value);
    AmongRest(k.log, k1.log, Stored);
    FlattenEdges(k.buf.value.whole);
    FlattenIdempotent(k.buf.value.whole);
  }

  // The claim at stream end

  lemma OneDeltaClaimsNothing(cfg: Config, env: nat -> Answer, k: Key, id: int, d: Delta, now: int)
    requires k.buf.Some?
    ensures OneDelta(cfg, env, k, id, d, now).claims == k.claims && OneDelta(cfg, env, k, id, d, now).buf.Some?
  {
    if d.text != "" && Admits(cfg, d.kind) {
      var o := HandNotingFrame(cfg, env, Admitted(k, id, d, now), d.kind, Segment(k.buf.value, d), now);
    }
  }

  lemma {:induction false} DeltasClaimNothing(cfg: Config, env: nat -> Answer, k: Key, id: int, ds: seq<Delta>,
                                              now: int)
    requires k.buf.Some?
    ensures Deltas(cfg, env, k, id, ds, now).claims == k.claims && Deltas(cfg, env, k, id, ds, now).buf.Some?
  {
    if ds != [] {
      DeltasClaimNothing(cfg, env, k, id, ds[..|ds| - 1], now);
      OneDeltaClaimsNothing(cfg, env, Deltas(cfg, env, k, id, ds[..|ds| - 1], now), id, ds[|ds| - 1], now);
    }
  }

  lemma LastDeltasKeep(cfg: Config, env: nat -> Answer, k: Key, id: int, ds: seq<Delta>, opens: bool, now: int)
    requires Accounted(k) && Conserved(k) && !Conflicted(k) && cfg.ingestAssistant
    ensures var k1 := LastDeltas(cfg, env, k, id, ds, opens, now);
      Accounted(k1) && Conserved(k1) && !Conflicted(k1) && k1.claims == k.claims
  {
    DeltasAccount(cfg, env, k, id, ds, now);
    DeltasConserve(cfg, env, k, id, ds, now);
    DeltasClaimNothing(cfg, env, k, id, ds, now);
  }

  /** Whether the whole message is claimed, given the state `k` after the last deltas, whether
      there is an engine for the residual, and the log at the end. */
  ghost predicate Claims(k: Key, engine: bool, log: seq<Handed>, now: int) {
    && HasOutcome(log, Stored) && SentText(k.sent, Text) != ""
    && (if HasBuf(k) && engine then !Among(log, |k.log|, Failed)
        else k.mark.Some? && !k.mark.value.failed && now - k.mark.value.at < 300_000)
  }

  lemma TakeDrained(k: Key, now: int)
    requires k.buf.Some? && k.buf.value.whole == ""
    ensures TakeWhole(k, now).claims == k.claims
  {
    FlattenEdges("");
  }

  lemma TakeClaims(k: Key, now: int)
    requires Accounted(k) && Conserved(k)
    ensures TakeWhole(k, now).claims ==
      if HasOutcome(k.log, Stored) && SentText(k.sent, Text) != "" && Marked(k, now)
      then k.claims + [FlattenWS(SentText(k.sent, Text))] else k.claims
  {
    FlattenEdges(k.buf.value.whole);
    FlattenIdempotent(k.buf.value.whole);
  }

  lemma RestedClaims(cfg: Config, env: nat -> Answer, k: Key, engine: bool, now: int)
    requires Accounted(k) && Conserved(k) && !Conflicted(k) && cfg.ingestAssistant
    ensures var k' := TakeWhole(Rested(cfg, env, k, engine, now), now);
      && k'.log == Rested(cfg, env, k, engine, now).log && k'.sent == k.sent
      && k.log <= k'.log && NothingUnwanted(k'.log)
      && k'.claims == k.claims + if Claims(k, engine, k'.log, now) then [FlattenWS(SentText(k.sent, Text))] else []
  {
    TakeFrame(Rested(cfg, env, k, engine, now), now);
    if HasBuf(k) && engine {
      FlushClaims(cfg, env, k, now);
      FlushFrame(cfg, env, k, now);
      TakeDrained(Flush(cfg, env, k, now), now);
    } else {
      TakeClaims(k, now);
    }
  }

  /** At the end of a stream, whether or not an engine opens for it, the claim is made exactly so. */
  lemma FinishClaims(cfg: Config, env: nat -> Answer, k: Key, id: int, ds: seq<Delta>, opens: bool,
                     reopens: bool, now: int)
    requires Accounted(k) && Conserved(k) && !Conflicted(k) && cfg.ingestAssistant
    ensures var k1, k' := LastDeltas(cfg, env, k, id, ds, opens, now), Finish(cfg, env, k, id, ds, opens, reopens, now);
      var engine := Opens(cfg, ds, opens, reopens);
      && k'.log == Rested(cfg, env, k1, engine, now).log && k'.sent == k1.sent
      && k1.log <= k'.log && NothingUnwanted(k'.log)
      && k'.claims == k.claims + if Claims(k1, engine, k'.log, now) then [FlattenWS(SentText(k1.sent, Text))] else []
  {
    LastDeltasKeep(cfg, env, k, id, ds, opens, now);
    RestedClaims(cfg, env, LastDeltas(cfg, env, k, id, ds, opens, now), HasEngine(cfg, ds, opens, reopens), now);
    assert Opens(cfg, ds, opens, reopens) <==> HasEngine(cfg, ds, opens, reopens);
  }

  lemma MarkedIsSafe(k: Key, now: int)
    requires Accounted(k) && Marked(k, now)
    ensures Safe(k.log)
  {
  }

  /** All the text of the message is in memory: it has been handed on, and each part of it is
      stored, was stored before, or is blank. */
  ghost predicate InMemory(k: Key) {
    HandedText(k.log, Text) == SentText(k.sent, Text) && Safe(k.log)
  }

  /** What loses text of a message that is claimed: with an engine for the residual, text that
      was lost before it; without one, the assistant residual itself. */
  ghost predicate Loses(k: Key, engine: bool) {
    HasBuf(k) && if engine then LostBefore(k.log) else k.buf.value.assistant != ""
  }

  lemma EngineInMemory(cfg: Config, env: nat -> Answer, k: Key, now: int)
    requires Accounted(k) && Conserved(k) && !Conflicted(k) && cfg.ingestAssistant
    requires !Among(Flush(cfg, env, k, now).log, |k.log|, Failed)
    ensures InMemory(Flush(cfg, env, k, now)) <==> !LostBefore(k.log)
  {
    var k' := Flush(cfg, env, k, now);
    FlushConserves(cfg, env, k, now);
    FlushClaims(cfg, env, k, now);
    SafeRest(k.log, k'.log);
  }

  lemma NoEngineInMemory(k: Key, now: int)
    requires Accounted(k) && Conserved(k) && Marked(k, now)
    ensures InMemory(k) <==> k.buf.value.assistant == ""
  {
    MarkedIsSafe(k, now);
    assert Balanced(k.log, k.sent, k.buf.value, Text);
  }

  /** A claimed message is all in memory unless, and exactly unless, a residual was left and
      text had been lost before it, or no engine opened for an assistant residual. */
  lemma ClaimIsSafeExactly(cfg: Config, env: nat -> Answer, k: Key, id: int, ds: seq<Delta>, opens: bool,
                           reopens: bool, now: int)
    requires Accounted(k) && Conserved(k) && !Conflicted(k) && cfg.ingestAssistant
    requires Finish(cfg, env, k, id, ds, opens, reopens, now).claims != k.claims
    ensures InMemory(Finish(cfg, env, k, id, ds, opens, reopens, now)) <==>
      !Loses(LastDeltas(cfg, env, k, id, ds, opens, now), Opens(cfg, ds, opens, reopens))
  {
    var k1, engine := LastDeltas(cfg, env, k, id, ds, opens, now), Opens(cfg, ds, opens, reopens);
    FinishClaims(cfg, env, k, id, ds, opens, reopens, now);
    LastDeltasKeep(cfg, env, k, id, ds, opens, now);
    if HasBuf(k1) && engine {
      EngineInMemory(cfg, env, k1, now);
      FlushFrame(cfg, env, k1, now);
    } else {
      NoEngineInMemory(k1, now);
    }
  }

  /** The text a resubmitted message is deduplicated by, as durableIngest computes it. */
  function ResubmittedKey(message: string): string { FlattenWS(TrimSpace(message)) }

  /** The claim suppresses the resubmission exactly when the message has no edge whitespace. */
  lemma ClaimMatchesResubmission(cfg: Config, env: nat -> Answer, k: Key, id: int, ds: seq<Delta>,
                                 opens: bool, reopens: bool, now: int)
    requires Accounted(k) && Conserved(k) && !Conflicted(k) && cfg.ingestAssistant
    requires Finish(cfg, env, k, id, ds, opens, reopens, now).claims != k.claims
    ensures var k' := Finish(cfg, env, k, id, ds, opens, reopens, now);
      var message := SentText(k'.sent, Text);
      |k'.claims| == |k.claims| + 1 && (k'.claims[|k.claims|] == ResubmittedKey(message) <==> !EdgeSpace(message))
  {
    FinishClaims(cfg, env, k, id, ds, opens, reopens, now);
    FlattenAgreesWithTrimmed(SentText(LastDeltas(cfg, env, k, id, ds, opens, now).sent, Text));
  }

  // Whole streams

  /** The state after the last deltas of a whole stream. */
  function BeforeEnd(cfg: Config, env: nat -> Answer, k: Key, id: int, start: int, pieces: seq<Piece>,
                     end: Piece): Key {
    LastDeltas(cfg, env, Chunks(cfg, env, Reset(k, start), id, pieces), id, end.deltas, end.opens, end.now)
  }

  lemma {:induction false} ChunksAccount(cfg: Config, env: nat -> Answer, k: Key, id: int, pieces: seq<Piece>)
    requires Accounted(k) && Conserved(k) && !Conflicted(k) && cfg.ingestAssistant
    ensures var k' := Chunks(cfg, env, k, id, pieces);
      Accounted(k') && Conserved(k') && !Conflicted(k') && k'.claims == k.claims
  {
    if pieces != [] {
      var p, k1 := pieces[|pieces| - 1], Chunks(cfg, env, k, id, pieces[..|pieces| - 1]);
      ChunksAccount(cfg, env, k, id, pieces[..|pieces| - 1]);
      ChunkAccounts(cfg, env, k1, id, p.deltas, p.opens, p.now);
      ChunkConserves(cfg, env, k1, id, p.deltas, p.opens, p.now);
      if p.opens { DeltasClaimNothing(cfg, env, k1, id, p.deltas, p.now); }
    }
  }

  /** From the first chunk of a stream to its end, whatever opens and whatever is stored: the
      message claimed is all in memory exactly unless it `Loses` text in one of the two ways,
      and what is claimed is the resubmitted message exactly if that has no edge whitespace. */
  lemma StreamClaimIsSafeExactly(cfg: Config, env: nat -> Answer, k: Key, id: int, start: int,
                                 pieces: seq<Piece>, end: Piece, reopens: bool)
    requires (k.buf.None? || Decayed(k, start)) && cfg.ingestAssistant
    requires Stream(cfg, env, k, id, start, pieces, end, reopens).claims != k.claims
    ensures var k' := Stream(cfg, env, k, id, start, pieces, end, reopens);
      var message := SentText(k'.sent, Text);
      && (InMemory(k') <==>
          !Loses(BeforeEnd(cfg, env, k, id, start, pieces, end), Opens(cfg, end.deltas, end.opens, reopens)))
      && |k'.claims| == |k.claims| + 1
      && (k'.claims[|k.claims|] == ResubmittedKey(message) <==> !EdgeSpace(message))
  {
    var k0 := Reset(k, start);
    ResetConserved(k, start);
    FreshAccounted(k0, start);
    ChunksAccount(cfg, env, k0, id, pieces);
    var k1 := Chunks(cfg, env, k0, id, pieces);
    ClaimIsSafeExactly(cfg, env, k1, id, end.deltas, end.opens, reopens, end.now);
    ClaimMatchesResubmission(cfg, env, k1, id, end.deltas, end.opens, reopens, end.now);
  }

  // Where it fails

  predicate Solid(s: string) { !AllBlank(s) }

  lemma FreshChunk(cfg: Config, env: nat -> Answer, k: Key, id: int, a: Delta, now: int)
    requires k.buf == Some(Fresh(now)) && k.sent == [] && k.log == [] && cfg.ingestAssistant
    ensures var k' := Chunk(cfg, env, k, id, [a], true, now);
      && k' == OneDelta(cfg, env, k, id, a, now)
      && Accounted(k') && Conserved(k') && !Conflicted(k') && k'.claims == k.claims
  {
    P.SingleDelta(cfg, env, k, id, a, now);
    FreshConserved(k, now);
    FreshAccounted(k, now);
    OneDeltaConserves(cfg, env, k, id, a, now);
    OneDeltaAccounts(cfg, env, k, id, a, now);
    OneDeltaClaimsNothing(cfg, env, k, id, a, now);
  }

  lemma HandedSentence(cfg: Config, env: nat -> Answer, k: Key, id: int, a: Delta, now: int)
    requires k.buf == Some(Fresh(now)) && k.sent == [] && k.log == []
    requires cfg.ingestAssistant && a.kind == Text && EndsSentence(a.text) && Solid(a.text)
    ensures var k' := OneDelta(cfg, env, k, id, a, now);
      && !HasBuf(k') && k'.sent == [Sent(id, a)] && k'.calls == k.calls + 1
      && k'.log == [Handed(Text, a.text, OutcomeOf(cfg, env(k.calls), Text, a.text))]
  {
    assert "" + a.text == a.text;
    assert Completes(k.buf.value, a);
  }

  lemma StoredMark(cfg: Config, env: nat -> Answer, k: Key, id: int, a: Delta, now: int)
    requires k.buf == Some(Fresh(now)) && k.mark.None?
    requires cfg.ingestAssistant && a.kind == Text && EndsSentence(a.text) && Solid(a.text) && env(k.calls) == Accepted
    ensures OneDelta(cfg, env, k, id, a, now).mark == Some(Mark(now, false))
  {
    assert "" + a.text == a.text;
    assert Completes(k.buf.value, a);
  }

  lemma BufferedRest(cfg: Config, env: nat -> Answer, k: Key, id: int, b: Delta, now: int)
    requires Accounted(k) && Conserved(k) && !Conflicted(k) && !HasBuf(k)
    requires cfg.ingestAssistant && b.kind == Text && Residual(b.text) && b.text != ""
    ensures var k' := Deltas(cfg, env, k, id, [b], now);
      && k'.buf.Some? && k'.buf.value.assistant == b.text && k'.buf.value.storedAny == k.buf.value.storedAny
      && k'.buf.value.whole == k.buf.value.whole + b.text
      && k'.calls == k.calls && k'.log == k.log && k'.sent == k.sent + [Sent(id, b)]
      && k'.mark == k.mark && k'.claims == k.claims && !Conflicted(k') && HasBuf(k')
  {
    P.SingleDelta(cfg, env, k, id, b, now);
    assert "" + b.text == b.text;
  }

  lemma FlushStores(cfg: Config, env: nat -> Answer, k: Key, now: int)
    requires k.buf.Some? && !Conflicted(k) && k.buf.value.reasoning == "" && k.buf.value.toolcalls == ""
    requires cfg.ingestAssistant && Solid(k.buf.value.assistant) && env(k.calls) == Accepted
    ensures var k' := Flush(cfg, env, k, now);
      |k'.log| == |k.log| + 3 && k'.log[|k.log|].outcome == Stored && !Among(k'.log, |k.log|, Failed)
  {
    var k0 := k.(buf := Some(Drained(k.buf.value)));
    FlushFrame(cfg, env, k, now);
    assert AllBlank("");
    var o1 := HandFrame(cfg, env, k0, Text, k.buf.value.assistant);
    var k1 := Hand(cfg, env, k0, Text, k.buf.value.assistant);
    var o2 := HandFrame(cfg, env, k1, Reasoning, "");
    var o3 := HandFrame(cfg, env, Hand(cfg, env, k1, Reasoning, ""), ToolArgs, "");
  }

  /** A sentence whose write failed, then a residual that is stored: the message is claimed,
      and its resubmission, which would have brought the sentence back, is suppressed. */
  lemma EarlierFailureIsForgotten(cfg: Config, env: nat -> Answer, k: Key, id: int, a: Delta, b: Delta, now: int)
    requires k.buf == Some(Fresh(now)) && k.sent == [] && k.log == [] && cfg.ingestAssistant
    requires a.kind == Text && EndsSentence(a.text) && Solid(a.text) && env(k.calls) == Rejected
    requires b.kind == Text && Residual(b.text) && Solid(b.text) && env(k.calls + 1) == Accepted
    ensures var k' := Finish(cfg, env, Chunk(cfg, env, k, id, [a], true, now), id, [b], true, true, now);
      k'.claims != k.claims && !InMemory(k')
  {
    FreshChunk(cfg, env, k, id, a, now);
    HandedSentence(cfg, env, k, id, a, now);
    var k1 := Chunk(cfg, env, k, id, [a], true, now);
    assert AllBlank("");
    LostThenStored(cfg, env, k1, id, b, now);
  }

  lemma LostThenStored(cfg: Config, env: nat -> Answer, k: Key, id: int, b: Delta, now: int)
    requires Accounted(k) && Conserved(k) && !Conflicted(k) && !HasBuf(k) && cfg.ingestAssistant
    requires |k.log| == 1 && k.log[0].kind == Text && k.log[0].outcome == Failed
    requires b.kind == Text && b.text != "" && Residual(b.text) && Solid(b.text) && env(k.calls) == Accepted
    ensures var k' := Finish(cfg, env, k, id, [b], true, true, now); k'.claims != k.claims && !InMemory(k')
  {
    var k2 := Deltas(cfg, env, k, id, [b], now);
    BufferedRest(cfg, env, k, id, b, now);
    RestOnly(cfg, env, k, id, b, now);
    FlushStores(cfg, env, k2, now);
    FinishClaims(cfg, env, k, id, [b], true, true, now);
    var k' := Finish(cfg, env, k, id, [b], true, true, now);
    assert k'.log[|k.log|] in k'.log;
    SentAppend(k.sent, Sent(id, b), Text);
    assert k2.log[0] in k2.log;
    ClaimIsSafeExactly(cfg, env, k, id, [b], true, true, now);
  }

  lemma RestOnly(cfg: Config, env: nat -> Answer, k: Key, id: int, b: Delta, now: int)
    requires k.buf.Some? && !Conflicted(k) && !HasBuf(k) && cfg.ingestAssistant && b.kind == Text && Residual(b.text)
    ensures var k' := Deltas(cfg, env, k, id, [b], now);
      k'.buf.Some? && k'.buf.value.reasoning == "" && k'.buf.value.toolcalls == ""
  {
    P.SingleDelta(cfg, env, k, id, b, now);
    assert "" + b.text == b.text;
  }

  /** A stored sentence, then a residual for which the engine does not open: the message is
      claimed though the residual was never handed on. */
  lemma FailedOpenClaimsLostText(cfg: Config, env: nat -> Answer, k: Key, id: int, a: Delta, b: Delta, now: int)
    requires k.buf == Some(Fresh(now)) && k.sent == [] && k.log == [] && k.mark.None? && cfg.ingestAssistant
    requires a.kind == Text && EndsSentence(a.text) && Solid(a.text) && env(k.calls) == Accepted
    requires b.kind == Text && Residual(b.text) && b.text != ""
    ensures var k2 := Chunk(cfg, env, Chunk(cfg, env, k, id, [a], true, now), id, [b], true, now);
      var k' := Finish(cfg, env, k2, id, [], false, false, now);
      && k'.claims == k.claims + [FlattenWS(a.text + b.text)]
      && k'.log == [Handed(Text, a.text, Stored)]
  {
    FreshChunk(cfg, env, k, id, a, now);
    HandedSentence(cfg, env, k, id, a, now);
    StoredMark(cfg, env, k, id, a, now);
    var k1 := Chunk(cfg, env, k, id, [a], true, now);
    assert k1.log[0] in k1.log;
    SentAppend([], Sent(id, a), Text);
    BufferedRest(cfg, env, k1, id, b, now);
    LostResidual(cfg, env, Deltas(cfg, env, k1, id, [b], now), id, now);
  }

  lemma LostResidual(cfg: Config, env: nat -> Answer, k: Key, id: int, now: int)
    requires k.buf.Some? && !Conflicted(k) && cfg.ingestAssistant && k.mark == Some(Mark(now, false))
    requires k.buf.value.storedAny && k.buf.value.whole != ""
    ensures var k' := Finish(cfg, env, k, id, [], false, false, now);
      k'.claims == k.claims + [FlattenWS(k.buf.value.whole)] && k'.log == k.log
  {
    FlattenEdges(k.buf.value.whole);
    FlattenIdempotent(k.buf.value.whole);
  }
}
