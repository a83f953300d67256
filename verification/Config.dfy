/** The plugin settings that the modelled code reads (plugin/config.go), and the
    test that decides whether a new configuration forces engines to be reopened. */
module Configs {

  datatype MemoryScope = Session | Agent | Global

  datatype Config = Config(
    enabled: bool,
    dataDir: string,
    memoryScope: MemoryScope,
    focus: real,
    sensitivity: real,
    stability: real,
    ingestAssistant: bool,
    ingestReasoning: bool,
    interruptGate: bool,
    autoConsolidate: bool,
    consolidateEvery: int,
    sessionHeader: string,
    agentHeader: string)

  /** Settings changed enough that open engines must be disposed and reopened. */
  predicate MaterialChange(old_: Config, cfg: Config) {
    || old_.dataDir != cfg.dataDir
    || old_.memoryScope != cfg.memoryScope
    || old_.focus != cfg.focus
    || old_.sensitivity != cfg.sensitivity
    || old_.stability != cfg.stability
    || old_.sessionHeader != cfg.sessionHeader
    || old_.agentHeader != cfg.agentHeader
  }

  /** Settings that open engines can go on with are equal but for what is read afresh each time:
      whether the plugin and its consumers are on, and the cadence. */
  lemma ImmaterialExactly(a: Config, b: Config)
    ensures !MaterialChange(a, b) <==>
      b == a.(enabled := b.enabled, ingestAssistant := b.ingestAssistant, ingestReasoning := b.ingestReasoning,
        interruptGate := b.interruptGate, autoConsolidate := b.autoConsolidate, consolidateEvery := b.consolidateEvery)
  {
    var c := a.(enabled := b.enabled, ingestAssistant := b.ingestAssistant, ingestReasoning := b.ingestReasoning,
      interruptGate := b.interruptGate, autoConsolidate := b.autoConsolidate, consolidateEvery := b.consolidateEvery);
    assert MaterialChange(a, b) <==> MaterialChange(c, b);
  }
}
