/** One stream key's buffer of plugin/intercept.go, on values: what a chunk handler does to
    it, and what it hands to durable ingest. */
module Streams {
  import opened Configs
  import opened Whitespace
  import opened Wrappers
  import B = Bytes

  datatype Kind = Text | Reasoning | ToolArgs

  datatype Delta = Delta(text: string, kind: Kind)

  datatype Buf = Buf(
    assistant: string,
    reasoning: string,
    toolcalls: string,
    whole: string,
    storedAny: bool,
    last: int,
    conflicted: bool)

  function Fresh(now: int): Buf { Buf("", "", "", "", false, now, false) }

  // Segments

  const SEGMENT_BYTES := 120

  predicate EndsSentence(delta: string) {
    '.' in delta || '!' in delta || '?' in delta || '\n' in delta
  }

  predicate Flushes(segment: string, delta: string) {
    |B.Encode(segment)| >= SEGMENT_BYTES || EndsSentence(delta)
  }

  /** What is buffered of one kind. */
  function Held(b: Buf, kind: Kind): string {
    match kind
    case Text => b.assistant
    case Reasoning => b.reasoning
    case ToolArgs => b.toolcalls
  }

  function WithHeld(b: Buf, kind: Kind, s: string): Buf {
    match kind
    case Text => b.(assistant := s)
    case Reasoning => b.(reasoning := s)
    case ToolArgs => b.(toolcalls := s)
  }

  /** The delta completes a segment: tool arguments never do. */
  predicate Completes(b: Buf, d: Delta) {
    d.kind != ToolArgs && Flushes(Held(b, d.kind) + d.text, d.text)
  }

  function Appended(b: Buf, d: Delta, now: int): Buf {
    var b1 := b.(last := now, whole := if d.kind == Text then b.whole + d.text else b.whole);
    WithHeld(b1, d.kind, if Completes(b, d) then "" else Held(b, d.kind) + d.text)
  }

  // What becomes of a segment

  /** What the store and the engine answer to one attempt to ingest: the hash is claimed
      already, the row is stored, or the write fails. */
  datatype Answer = Taken | Accepted | Rejected

  datatype Outcome = Blank | Unwanted | Already | Stored | Failed

  datatype Handed = Handed(kind: Kind, text: string, outcome: Outcome)

  predicate Admits(cfg: Config, kind: Kind) {
    match kind
    case Text => cfg.ingestAssistant || cfg.interruptGate
    case Reasoning => cfg.ingestReasoning || cfg.interruptGate
    case ToolArgs => cfg.ingestAssistant
  }

  predicate Ingests(cfg: Config, kind: Kind) {
    if kind == Reasoning then cfg.ingestReasoning else cfg.ingestAssistant
  }

  predicate AllBlank(s: string) { TrimSpace(s) == "" }

  function OutcomeOf(cfg: Config, answer: Answer, kind: Kind, text: string): Outcome {
    if AllBlank(text) then Blank
    else if !Ingests(cfg, kind) then Unwanted
    else match answer case Taken => Already case Accepted => Stored case Rejected => Failed
  }

  // The state of one key

  /** The mark that a stream's text was ingested, or that some of it was lost. */
  datatype Mark = Mark(at: int, failed: bool)

  datatype Sent = Sent(stream: int, delta: Delta)

  /** `calls` counts ingest attempts, `claims` whole messages claimed.  `sent` and `log` are
      history since the buffer was made: the deltas admitted to it, with the stream each came
      from, and what was handed on. */
  datatype Key = Key(
    buf: Option<Buf>,
    mark: Option<Mark>,
    calls: nat,
    claims: seq<string>,
    sent: seq<Sent>,
    log: seq<Handed>)

  const STREAM_CONFLICT_TTL := 60_000
  const STREAM_INGESTED_TTL := 300_000

  predicate Conflicted(k: Key) { k.buf.Some? && k.buf.value.conflicted }

  predicate Decayed(k: Key, now: int) { Conflicted(k) && now - k.buf.value.last > STREAM_CONFLICT_TTL }

  /** resetStreamBuf: another stream on this key poisons the buffer, a decayed one is replaced. */
  function Reset(k: Key, now: int): Key {
    if k.buf.Some? && !Decayed(k, now) then k.(buf := Some(k.buf.value.(conflicted := true, last := now)))
    else k.(buf := Some(Fresh(now)), sent := [], log := [])
  }

  /** A text handed on, and what became of it. */
  function Hand(cfg: Config, env: nat -> Answer, k: Key, kind: Kind, text: string): Key {
    var o := OutcomeOf(cfg, env(k.calls), kind, text);
    k.(calls := if o == Blank || o == Unwanted then k.calls else k.calls + 1, log := k.log + [Handed(kind, text, o)])
  }

  /** noteStreamResult. */
  function Note(k: Key, ingested: bool, failed: bool, now: int): Key {
    if !ingested && !failed then k
    else k.(
      buf := if ingested && k.buf.Some? then Some(k.buf.value.(storedAny := true)) else k.buf,
      mark := Some(Mark(now, failed || (k.mark.Some? && k.mark.value.failed))))
  }

  function Last(k: Key): Outcome
    requires k.log != []
  {
    k.log[|k.log| - 1].outcome
  }

  /** The buffer made ready for a delta. */
  function Ready(k: Key, now: int): Key {
    if k.buf.Some? then k else k.(buf := Some(Fresh(now)), sent := [], log := [])
  }

  function Admitted(k: Key, id: int, d: Delta, now: int): Key
    requires k.buf.Some?
  {
    k.(buf := Some(Appended(k.buf.value, d, now)), sent := k.sent + [Sent(id, d)])
  }

  function HandNoting(cfg: Config, env: nat -> Answer, k: Key, kind: Kind, text: string, now: int): Key {
    var k1 := Hand(cfg, env, k, kind, text);
    Note(k1, Last(k1) == Stored, Last(k1) == Failed, now)
  }

  /** One delta: appended, and the segment handed on if it is complete. */
  function OneDelta(cfg: Config, env: nat -> Answer, k: Key, id: int, d: Delta, now: int): Key {
    if d.text == "" || !Admits(cfg, d.kind) then k
    else
      var k0 := Ready(k, now);
      var k1 := Admitted(k0, id, d, now);
      if Completes(k0.buf.value, d) && !Conflicted(k1)
      then HandNoting(cfg, env, k1, d.kind, Held(k0.buf.value, d.kind) + d.text, now)
      else k1
  }

  function Deltas(cfg: Config, env: nat -> Answer, k: Key, id: int, ds: seq<Delta>, now: int): Key {
    if ds == [] then k
    else OneDelta(cfg, env, Deltas(cfg, env, k, id, ds[..|ds| - 1], now), id, ds[|ds| - 1], now)
  }

  /** The state after a chunk's deltas, which need an engine. */
  function LastDeltas(cfg: Config, env: nat -> Answer, k: Key, id: int, ds: seq<Delta>, opens: bool, now: int): Key {
    if opens then Deltas(cfg, env, k, id, ds, now) else k
  }

  predicate AnyAdmitted(cfg: Config, ds: seq<Delta>) {
    exists i :: 0 <= i < |ds| && ds[i].text != "" && Admits(cfg, ds[i].kind)
  }

  predicate HasConsumers(cfg: Config) { cfg.ingestAssistant || cfg.ingestReasoning || cfg.interruptGate }

  /** A chunk that ends nothing.  The engine is opened for the first admitted delta; if that
      fails the rest of the chunk is lost. */
  function Chunk(cfg: Config, env: nat -> Answer, k: Key, id: int, ds: seq<Delta>, opens: bool, now: int): Key {
    if Conflicted(k) || !HasConsumers(cfg) || !opens then k else Deltas(cfg, env, k, id, ds, now)
  }

  // Stream end

  predicate Buffers(b: Buf) { b.assistant != "" || b.reasoning != "" || b.toolcalls != "" }

  predicate HasBuf(k: Key) { k.buf.Some? && Buffers(k.buf.value) }

  function Drained(b: Buf): Buf { b.(assistant := "", reasoning := "", toolcalls := "", whole := "") }

  /** The residual of each kind handed on, in the order of the source. */
  function HandRest(cfg: Config, env: nat -> Answer, k: Key, b: Buf): Key {
    Hand(cfg, env, Hand(cfg, env, Hand(cfg, env, k, Text, b.assistant), Reasoning, b.reasoning), ToolArgs, b.toolcalls)
  }

  predicate Among(log: seq<Handed>, from: nat, o: Outcome) {
    exists i :: from <= i < |log| && log[i].outcome == o
  }

  /** flushStreamBuf, and noteStreamResult of what it reports.  The claim looks only at the
      failures of the residual itself. */
  function Flush(cfg: Config, env: nat -> Answer, k: Key, now: int): Key
    requires k.buf.Some?
  {
    var b := k.buf.value;
    var k0 := k.(buf := Some(Drained(b)));
    if b.conflicted then k0
    else
      var k1 := HandRest(cfg, env, k0, b);
      var ingested, failed := Among(k1.log, |k.log|, Stored), Among(k1.log, |k.log|, Failed);
      var whole := FlattenWS(b.whole);
      var k2 := if (b.storedAny || ingested) && !failed && whole != "" then Claimed(k1, whole) else k1;
      Note(k2, ingested, failed, now)
  }

  /** ClaimSeen of a whole message: its flattened text, hashed. */
  function Claimed(k: Key, whole: string): Key { k.(claims := k.claims + [FlattenWS(whole)]) }

  /** peekStreamIngested. */
  predicate Marked(k: Key, now: int) {
    k.mark.Some? && !k.mark.value.failed && now - k.mark.value.at < STREAM_INGESTED_TTL
  }

  /** takeStreamWhole, and the claim of what it returns. */
  function TakeWhole(k: Key, now: int): Key {
    if k.buf.None? then k
    else
      var whole := FlattenWS(k.buf.value.whole);
      var k1 := k.(buf := Some(k.buf.value.(whole := "")));
      if k.buf.value.storedAny && whole != "" && Marked(k, now) then Claimed(k1, whole) else k1
  }

  /** There is an engine for the residual. */
  predicate HasEngine(cfg: Config, ds: seq<Delta>, opens: bool, reopens: bool) {
    (opens && AnyAdmitted(cfg, ds)) || reopens
  }

  /** The residual is handed on and drained, or there is none, or no engine for it. */
  function Rested(cfg: Config, env: nat -> Answer, k: Key, engine: bool, now: int): Key {
    if HasBuf(k) && engine then Flush(cfg, env, k, now) else k
  }

  /** What the terminal chunk does with text.  `opens` and `reopens` say whether the engine opens
      for its deltas, and, if there is still none, for the residual. */
  function EndText(cfg: Config, env: nat -> Answer, k: Key, id: int, ds: seq<Delta>, opens: bool,
                   reopens: bool, now: int): Key {
    var k1 := LastDeltas(cfg, env, k, id, ds, opens, now);
    TakeWhole(Rested(cfg, env, k1, HasEngine(cfg, ds, opens, reopens), now), now)
  }

  /** The terminal chunk of a stream. */
  function Finish(cfg: Config, env: nat -> Answer, k: Key, id: int, ds: seq<Delta>, opens: bool, reopens: bool,
                  now: int): Key {
    if Conflicted(k) then Note(k, false, true, now)
    else if !HasConsumers(cfg) then k.(buf := None)
    else EndText(cfg, env, k, id, ds, opens, reopens, now).(buf := None)
  }
}
