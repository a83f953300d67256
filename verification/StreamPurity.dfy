/** Any number of streams with byte-identical requests share one buffer; no text handed to
    durable ingest mixes two of them. */
module StreamPurity {
  import opened Configs
  import opened Wrappers
  import opened Streams
  import opened StreamConservation

  /** What the handlers of one key are called for, one after another.  The configuration may
      change between calls; the plugin stays enabled. */
  datatype Event =
    | Init(id: int, now: int)
    | More(id: int, cfg: Config, deltas: seq<Delta>, opens: bool, now: int)
    | End(id: int, cfg: Config, deltas: seq<Delta>, opens: bool, reopens: bool, now: int)

  /** The key, and the streams that have begun and not ended. */
  datatype Traffic = Traffic(key: Key, flying: set<int>)

  function After(env: nat -> Answer, t: Traffic, e: Event): Traffic {
    match e
    case Init(id, now) => Traffic(Reset(t.key, now), t.flying + {id})
    case More(id, cfg, ds, opens, now) => t.(key := Chunk(cfg, env, t.key, id, ds, opens, now))
    case End(id, cfg, ds, opens, reopens, now) =>
      Traffic(Finish(cfg, env, t.key, id, ds, opens, reopens, now), t.flying - {id})
  }

  /** Each stream begins once, then sends, then ends; a poisoned buffer decays only when no
      stream is in flight. */
  predicate Allowed(t: Traffic, e: Event) {
    match e
    case Init(id, now) => id !in t.flying && (Decayed(t.key, now) ==> t.flying == {})
    case More(id, _, _, _, _) => id in t.flying
    case End(id, _, _, _, _, _) => id in t.flying
  }

  ghost predicate Run(env: nat -> Answer, t: Traffic, es: seq<Event>, t': Traffic)
    decreases |es|
  {
    if es == [] then t == t'
    else Allowed(t, es[0]) && Run(env, After(env, t, es[0]), es[1..], t')
  }

  ghost predicate From(sent: seq<Sent>, owner: int) { forall s :: s in sent ==> s.stream == owner }

  /** What was handed on is the beginning of what was sent. */
  ghost predicate Traced(k: Key) { forall kind :: HandedText(k.log, kind) <= SentText(k.sent, kind) }

  ghost predicate OwnedBy(t: Traffic, owner: int) {
    && From(t.key.sent, owner)
    && (t.key.buf.Some? && !Conflicted(t.key) ==> t.flying <= {owner})
  }

  ghost predicate Pure(t: Traffic) {
    && (t.key.buf.None? ==> t.flying == {})
    && (t.key.buf.Some? ==> Conserved(t.key))
    && Traced(t.key)
    && exists owner :: OwnedBy(t, owner)
  }

  lemma ConservedIsTraced(k: Key)
    requires Conserved(k)
    ensures Traced(k)
  {
    forall kind ensures HandedText(k.log, kind) <= SentText(k.sent, kind) {
      assert Balanced(k.log, k.sent, k.buf.value, kind);
    }
  }

  lemma ResetIsPure(t: Traffic, id: int, now: int)
    requires Pure(t) && Allowed(t, Init(id, now))
    ensures Pure(Traffic(Reset(t.key, now), t.flying + {id}))
  {
    var k := Reset(t.key, now);
    var t' := Traffic(k, t.flying + {id});
    if t.key.buf.Some? && !Decayed(t.key, now) {
      var owner :| OwnedBy(t, owner);
      forall kind ensures Balanced(k.log, k.sent, k.buf.value, kind) {
        assert Balanced(t.key.log, t.key.sent, t.key.buf.value, kind);
      }
      assert OwnedBy(t', owner);
    } else {
      FreshConserved(k, now);
      assert OwnedBy(t', id);
    }
    ConservedIsTraced(k);
  }

  lemma OneDeltaFrom(cfg: Config, env: nat -> Answer, k: Key, id: int, d: Delta, now: int)
    requires k.buf.Some? && From(k.sent, id)
    ensures From(OneDelta(cfg, env, k, id, d, now).sent, id) && OneDelta(cfg, env, k, id, d, now).buf.Some?
  {
    if d.text != "" && Admits(cfg, d.kind) {
      var o := HandNotingFrame(cfg, env, Admitted(k, id, d, now), d.kind, Segment(k.buf.value, d), now);
    }
  }

  lemma {:induction false} DeltasFrom(cfg: Config, env: nat -> Answer, k: Key, id: int, ds: seq<Delta>, now: int)
    requires k.buf.Some? && From(k.sent, id)
    ensures From(Deltas(cfg, env, k, id, ds, now).sent, id) && Deltas(cfg, env, k, id, ds, now).buf.Some?
  {
    if ds != [] {
      DeltasFrom(cfg, env, k, id, ds[..|ds| - 1], now);
      OneDeltaFrom(cfg, env, Deltas(cfg, env, k, id, ds[..|ds| - 1], now), id, ds[|ds| - 1], now);
    }
  }

  lemma ChunkIsPure(env: nat -> Answer, t: Traffic, id: int, cfg: Config, ds: seq<Delta>, opens: bool, now: int)
    requires Pure(t) && id in t.flying
    ensures Pure(t.(key := Chunk(cfg, env, t.key, id, ds, opens, now)))
  {
    if !Conflicted(t.key) && HasConsumers(cfg) && opens {
      var owner :| OwnedBy(t, owner);
      assert id == owner;
      DeltasConserve(cfg, env, t.key, id, ds, now);
      DeltasFrom(cfg, env, t.key, id, ds, now);
      ConservedIsTraced(Deltas(cfg, env, t.key, id, ds, now));
      assert OwnedBy(t.(key := Deltas(cfg, env, t.key, id, ds, now)), id);
    }
  }

  lemma FinishTraced(cfg: Config, env: nat -> Answer, k: Key, id: int, ds: seq<Delta>, opens: bool,
                     reopens: bool, now: int)
    requires Conserved(k) && !Conflicted(k) && From(k.sent, id)
    ensures var k' := Finish(cfg, env, k, id, ds, opens, reopens, now);
      Traced(k') && From(k'.sent, id) && k'.buf.None?
  {
    ConservedIsTraced(k);
    var k1 := if opens then Deltas(cfg, env, k, id, ds, now) else k;
    DeltasConserve(cfg, env, k, id, ds, now);
    DeltasFrom(cfg, env, k, id, ds, now);
    ConservedIsTraced(k1);
    FlushConserves(cfg, env, k1, now);
    FlushFrame(cfg, env, k1, now);
    TakeFrame(k1, now);
    TakeFrame(Flush(cfg, env, k1, now), now);
  }

  lemma EndIsPure(env: nat -> Answer, t: Traffic, e: Event)
    requires Pure(t) && e.End? && e.id in t.flying
    ensures Pure(After(env, t, e))
  {
    var owner :| OwnedBy(t, owner);
    var t' := After(env, t, e);
    if Conflicted(t.key) {
      forall kind ensures Balanced(t'.key.log, t'.key.sent, t'.key.buf.value, kind) {
        assert Balanced(t.key.log, t.key.sent, t.key.buf.value, kind);
      }
      assert OwnedBy(t', owner);
    } else {
      assert e.id == owner;
      FinishTraced(e.cfg, env, t.key, owner, e.deltas, e.opens, e.reopens, e.now);
      assert t'.flying == {};
      assert OwnedBy(t', owner);
    }
  }

  lemma StepIsPure(env: nat -> Answer, t: Traffic, e: Event)
    requires Pure(t) && Allowed(t, e)
    ensures Pure(After(env, t, e))
  {
    match e
    case Init(id, now) => ResetIsPure(t, id, now);
    case More(id, cfg, ds, opens, now) => ChunkIsPure(env, t, id, cfg, ds, opens, now);
    case End(_, _, _, _, _, _) => EndIsPure(env, t, e);
  }

  lemma {:induction false} RunsArePure(env: nat -> Answer, t: Traffic, es: seq<Event>, t': Traffic)
    requires Pure(t) && Run(env, t, es, t')
    ensures Pure(t')
    decreases |es|
  {
    if es != [] {
      StepIsPure(env, t, es[0]);
      RunsArePure(env, After(env, t, es[0]), es[1..], t');
    }
  }

  /** A key nobody has used yet. */
  predicate Unused(k: Key) { k.buf.None? && k.sent == [] && k.log == [] }

  lemma UnusedIsPure(k: Key)
    requires Unused(k)
    ensures Pure(Traffic(k, {}))
  {
    assert OwnedBy(Traffic(k, {}), 0);
  }

  /** However many identical streams overlap on a key, from its first use on and whatever
      fails, at every moment everything admitted to the current buffer came from one stream,
      and what was handed on is the beginning of it. */
  lemma NoTextMixesStreams(env: nat -> Answer, k: Key, es: seq<Event>, t': Traffic)
    requires Unused(k) && Run(env, Traffic(k, {}), es, t')
    ensures Traced(t'.key) && exists owner :: From(t'.key.sent, owner)
  {
    UnusedIsPure(k);
    RunsArePure(env, Traffic(k, {}), es, t');
    var owner :| OwnedBy(t', owner);
  }

  /** The assumption on decay is needed: a stream that outlives the 60 seconds after its buffer
      was poisoned is mixed into the next. */
  lemma EarlyDecayMixes(cfg: Config, env: nat -> Answer, k: Key, a: Delta, b: Delta, now: int)
    requires k.buf.None? && a.kind == Text && b.kind == Text && cfg.ingestAssistant
    requires a.text != "" && Residual(a.text) && EndsSentence(b.text) && now > 60_000
    ensures var k2 := Reset(Reset(k, 0), 0);
      var k4 := Chunk(cfg, env, Chunk(cfg, env, Reset(k2, now), 3, [a], true, now), 2, [b], true, now);
      && Conflicted(k2) && k4.sent == [Sent(3, a), Sent(2, b)]
      && |k4.log| == 1 && k4.log[0].kind == Text && k4.log[0].text == a.text + b.text
  {
    var k3 := Reset(Reset(Reset(k, 0), 0), now);
    assert k3.buf == Some(Fresh(now)) && k3.sent == [] && k3.log == [];
    FirstDelta(cfg, env, k3, 3, a, now);
    var k4 := Chunk(cfg, env, k3, 3, [a], true, now);
    SecondDelta(cfg, env, k4, 2, b, now);
  }

  lemma SingleDelta(cfg: Config, env: nat -> Answer, k: Key, id: int, d: Delta, now: int)
    requires k.buf.Some? && !Conflicted(k) && cfg.ingestAssistant
    ensures Chunk(cfg, env, k, id, [d], true, now) == OneDelta(cfg, env, k, id, d, now)
  {
    assert [d][..0] == [];
    assert Deltas(cfg, env, k, id, [], now) == k;
  }

  lemma FirstDelta(cfg: Config, env: nat -> Answer, k: Key, id: int, a: Delta, now: int)
    requires k.buf == Some(Fresh(now)) && k.sent == [] && k.log == []
    requires a.kind == Text && cfg.ingestAssistant && a.text != "" && Residual(a.text)
    ensures var k' := Chunk(cfg, env, k, id, [a], true, now);
      && k'.buf.Some? && k'.buf.value.assistant == a.text && !Conflicted(k') && k'.sent == [Sent(id, a)] && k'.log == []
  {
    SingleDelta(cfg, env, k, id, a, now);
    assert "" + a.text == a.text;
    assert k.sent + [Sent(id, a)] == [Sent(id, a)];
    var k' := OneDelta(cfg, env, k, id, a, now);
    assert !Completes(k.buf.value, a);
    assert k'.sent == [Sent(id, a)] && k'.log == [];
  }

  lemma SecondDelta(cfg: Config, env: nat -> Answer, k: Key, id: int, b: Delta, now: int)
    requires k.buf.Some? && !Conflicted(k) && k.log == []
    requires b.kind == Text && cfg.ingestAssistant && EndsSentence(b.text)
    ensures var k' := Chunk(cfg, env, k, id, [b], true, now);
      && k'.sent == k.sent + [Sent(id, b)]
      && |k'.log| == 1 && k'.log[0].kind == Text && k'.log[0].text == k.buf.value.assistant + b.text
  {
    SingleDelta(cfg, env, k, id, b, now);
    var o := HandNotingFrame(cfg, env, Admitted(k, id, b, now), Text, Segment(k.buf.value, b), now);
  }
}
