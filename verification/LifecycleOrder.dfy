/** Close markers order every reopen after the close of the engine it replaces: no scope is
    ever both in the table and pending close, exactly as long as the install section never
    takes an engine whose scope has a close pending. */
module LifecycleOrder {
  import opened Configs
  import opened EngineTable
  import opened Lifecycle
  import opened LifecycleCore

  /** An engine just opened that the install section would take. */
  predicate Welcome(s: State, pc: Pc) { pc.Opened? && !s.closed && !MaterialChange(pc.cfg, s.cfg) }

  /** If the action installs an engine, no close of its scope is pending. */
  predicate CleanInstall(s: State, a: Action) {
    a.Advance? && a.t < |s.threads| && Welcome(s, s.threads[a.t]) ==> s.threads[a.t].key !in s.closings
  }

  ghost predicate CleanInstalls(r: Run) {
    r.Then? ==> CleanInstalls(r.prefix) && (Replay(r.prefix).Some? ==> CleanInstall(Replay(r.prefix).value, r.action))
  }

  /** The marker of `k` belongs to a running batch that has the scope. */
  ghost predicate Marked(s: State, k: string)
    requires k in s.closings
  {
    var t := s.closings[k];
    t < |s.threads| && s.threads[t].Closing? && HasKey(s.threads[t].doomed, k)
  }

  /** A close marker belongs to the one running batch that has the scope. */
  ghost predicate MarkersOk(s: State) {
    && (forall k :: k in s.closings ==> Marked(s, k))
    && (forall t, k :: 0 <= t < |s.threads| && s.threads[t].Closing? && HasKey(s.threads[t].doomed, k) ==>
          k in s.closings && s.closings[k] == t)
  }

  /** A scope with an engine in the table has no close pending. */
  ghost predicate Disjoint(s: State) {
    forall k :: k in s.tab.engines ==> k !in s.closings
  }

  ghost predicate PendingOpen(s: State) {
    forall t, i :: 0 <= t < |s.threads| && s.threads[t].Closing? && s.threads[t].at <= i < |s.threads[t].doomed| ==>
      s.threads[t].doomed[i].eng < |s.handles| && !s.handles[s.threads[t].doomed[i].eng].closed
  }

  predicate AfterBatch(pc: Pc) { pc.Leaving? || pc.Done? || pc.DisposeWait? || pc.Disposed? }

  ghost predicate SignalsOk(s: State) {
    forall k, t :: (k, t) in s.signalled ==> t < |s.threads| && AfterBatch(s.threads[t])
  }

  /** What a ForScope call that holds openMu may rely on about its scope. */
  ghost predicate WaitOk(s: State, pc: Pc) {
    && (pc.Blocked? ==> pc.key !in s.tab.engines)
    && (pc.Blocked? && (pc.key, pc.closer) in s.signalled ==> pc.key !in s.closings)
    && (pc.Blocked? && (pc.key, pc.closer) !in s.signalled ==>
          pc.key in s.closings && s.closings[pc.key] == pc.closer)
    && (pc.WaitCheck? && pc.woken ==> pc.key !in s.tab.engines && pc.key !in s.closings)
  }

  ghost predicate WaitsOk(s: State) {
    forall t :: 0 <= t < |s.threads| ==> WaitOk(s, s.threads[t])
  }

  ghost predicate Ordered(s: State) {
    MarkersOk(s) && Disjoint(s) && PendingOpen(s) && SignalsOk(s) && WaitsOk(s)
  }

  lemma OrderedInit(cfg: Config)
    ensures Ordered(Init(cfg))
  {
  }

  /** A step that starts no batch, ends none and installs nothing. */
  lemma QuietKeeps(s: State, s': State, t: Tid)
    requires Ordered(s) && |s.threads| <= |s'.threads| <= |s.threads| + 1
    requires s'.closings == s.closings && s'.signalled == s.signalled && s'.tab.engines == s.tab.engines
    requires s.closed ==> s'.closed
    requires s'.cfg == s.cfg
    requires forall u :: 0 <= u < |s.threads| && u != t ==> s'.threads[u] == s.threads[u]
    requires |s'.threads| > |s.threads| ==> !s'.threads[|s.threads|].Closing? && WaitOk(s', s'.threads[|s.threads|])
    requires t < |s.threads| ==> WaitOk(s', s'.threads[t]) && !s.threads[t].Closing? && !s'.threads[t].Closing?
    requires t < |s.threads| && AfterBatch(s.threads[t]) ==> AfterBatch(s'.threads[t])
    requires forall u, i ::
      0 <= u < |s.threads| && s.threads[u].Closing? && s.threads[u].at <= i < |s.threads[u].doomed| ==>
        s.threads[u].doomed[i].eng < |s'.handles| && !s'.handles[s.threads[u].doomed[i].eng].closed
    ensures Ordered(s')
  {
    forall k | k in s'.closings ensures Marked(s', k) {
      assert s'.threads[s.closings[k]] == s.threads[s.closings[k]];
    }
    forall u | 0 <= u < |s'.threads| ensures WaitOk(s', s'.threads[u]) {
      if u != t && u < |s.threads| { assert WaitOk(s, s.threads[u]); }
    }
    assert MarkersOk(s');
  }

  /** Thread `t` moves; nothing shared that the order depends on changes. */
  lemma MoveOrdered(s: State, s': State, t: Tid, pc: Pc)
    requires Ordered(s) && t < |s.threads| && !s.threads[t].Closing? && !pc.Closing?
    requires s' == At(s, t, pc).(openMu := s'.openMu, wg := s'.wg, closed := s'.closed, tab := s'.tab)
    requires s'.tab.engines == s.tab.engines && (s.closed ==> s'.closed)
    requires AfterBatch(s.threads[t]) ==> AfterBatch(pc)
    requires WaitOk(s', pc)
    ensures Ordered(s')
  {
    QuietKeeps(s, s', t);
  }

  lemma OpenMuStepsOrdered(s: State, t: Tid)
    requires Ordered(s) && t < |s.threads|
    ensures s.threads[t].WantOpen? ==> Ordered(AcquireOpenMu(s, t))
    ensures s.threads[t].Recheck? ==> Ordered(RecheckTable(s, t))
  {
    assert WaitOk(s, s.threads[t]);
    if s.threads[t].WantOpen? { MoveOrdered(s, AcquireOpenMu(s, t), t, AcquireOpenMu(s, t).threads[t]); }
    if s.threads[t].Recheck? { MoveOrdered(s, RecheckTable(s, t), t, RecheckTable(s, t).threads[t]); }
  }

  lemma WaitStepsOrdered(s: State, t: Tid)
    requires Ordered(s) && CanAdvance(s, t)
    ensures s.threads[t].WaitCheck? ==> Ordered(CheckPendingClose(s, t))
    ensures s.threads[t].Blocked? ==> Ordered(Wake(s, t))
  {
    assert WaitOk(s, s.threads[t]);
    if s.threads[t].WaitCheck? { MoveOrdered(s, CheckPendingClose(s, t), t, CheckPendingClose(s, t).threads[t]); }
    if s.threads[t].Blocked? { MoveOrdered(s, Wake(s, t), t, Wake(s, t).threads[t]); }
  }

  lemma EnterOrdered(s: State, t: Tid)
    requires Ordered(s) && t < |s.threads| && s.threads[t].Called?
    ensures Ordered(Enter(s, t))
  {
    MoveOrdered(s, Enter(s, t), t, Enter(s, t).threads[t]);
  }

  lemma LookUpOrdered(s: State, t: Tid)
    requires Ordered(s) && t < |s.threads| && s.threads[t].Lookup?
    ensures Ordered(LookUp(s, t))
  {
    MoveOrdered(s, LookUp(s, t), t, LookUp(s, t).threads[t]);
  }

  lemma DisposeStepsOrdered(s: State, t: Tid)
    requires Ordered(s) && t < |s.threads|
    ensures s.threads[t].DisposeCalled? ==> Ordered(At(s, t, DisposeDrain).(closed := true))
    ensures s.threads[t].DisposeWait? ==> Ordered(At(s, t, Disposed))
  {
    if s.threads[t].DisposeCalled? { MoveOrdered(s, At(s, t, DisposeDrain).(closed := true), t, DisposeDrain); }
    if s.threads[t].DisposeWait? { MoveOrdered(s, At(s, t, Disposed), t, Disposed); }
  }

  lemma PrewarmStartOrdered(s: State, t: Tid)
    requires Ordered(s) && t < |s.threads| && (s.threads[t].PrewarmCalled? || s.threads[t].PrewarmGate?)
    ensures Ordered(PrewarmStep(s, t))
  {
    MoveOrdered(s, PrewarmStep(s, t), t, PrewarmStep(s, t).threads[t]);
  }

  lemma PrewarmOrdered(s: State, t: Tid)
    requires Ordered(s) && t < |s.threads|
    requires var pc := s.threads[t]; pc.PrewarmWant? || pc.PrewarmOpen? || pc.Leaving?
    ensures Ordered(PrewarmStep(s, t))
  {
    MoveOrdered(s, PrewarmStep(s, t), t, PrewarmStep(s, t).threads[t]);
  }

  lemma OpenOrdered(s: State, t: Tid, ok: bool)
    requires Core(s) && Ordered(s) && t < |s.threads| && s.threads[t].Opening?
    ensures Ordered(Advanced(s, t, ok, []))
  {
    assert WaitOk(s, s.threads[t]);
    if ok { QuietKeeps(s, OpenSucceeds(s, t), t); } else { MoveOrdered(s, OpenFails(s, t), t, Failed); }
  }

  /** Closing an engine that no batch has pending. */
  lemma CloseOrdered(s: State, h: Handle)
    requires Ordered(s) && h < |s.handles|
    requires forall u, i ::
      0 <= u < |s.threads| && s.threads[u].Closing? && s.threads[u].at <= i < |s.threads[u].doomed| ==>
        s.threads[u].doomed[i].eng != h
    ensures Ordered(CloseEngine(s, h))
  {
    QuietKeeps(s, CloseEngine(s, h), |s.threads|);
  }

  lemma DiscardOrdered(s: State, t: Tid)
    requires Core(s) && Ordered(s) && t < |s.threads| && (s.threads[t].Opened? || s.threads[t].Discarding?)
    ensures s.threads[t].Opened? ==> Ordered(Discard(s, t))
    ensures s.threads[t].Discarding? ==> Ordered(At(CloseEngine(s, s.threads[t].eng), t, Done))
  {
    if s.threads[t].Opened? {
      QuietKeeps(s, Discard(s, t), t);
    } else {
      assert ThreadOk(s, s.threads[t]);
      forall u | 0 <= u < |s.threads| && s.threads[u].Closing?
        ensures forall i :: s.threads[u].at <= i < |s.threads[u].doomed| ==>
          s.threads[u].doomed[i].eng != s.threads[t].eng
      {
        assert ThreadOk(s, s.threads[u]);
      }
      CloseOrdered(s, s.threads[t].eng);
      var s1 := CloseEngine(s, s.threads[t].eng);
      MoveOrdered(s1, At(s1, t, Done), t, Done);
    }
  }

  /** A batch advances past engines without touching its list. */
  lemma BatchOrdered(s: State, t: Tid, pc: Pc)
    requires Ordered(s) && t < |s.threads| && s.threads[t].Closing? && pc.Closing?
    requires pc == s.threads[t].(at := pc.at, stage := pc.stage) && s.threads[t].at <= pc.at
    ensures Ordered(At(s, t, pc))
  {
    var s' := At(s, t, pc);
    forall k | k in s'.closings
      ensures Marked(s', k)
    {
      assert HasKey(s.threads[s.closings[k]].doomed, k);
    }
    assert MarkersOk(s');
    forall u | 0 <= u < |s'.threads| ensures WaitOk(s', s'.threads[u]) {
      assert WaitOk(s, s.threads[u]);
    }
  }

  /** Two batches never hold the same engine. */
  lemma BatchesApart(s: State, t: Tid, i: nat, u: Tid, j: nat)
    requires Core(s) && MarkersOk(s)
    requires t < |s.threads| && s.threads[t].Closing? && s.threads[t].at <= i < |s.threads[t].doomed|
    requires u < |s.threads| && s.threads[u].Closing? && s.threads[u].at <= j < |s.threads[u].doomed|
    requires s.threads[t].doomed[i].eng == s.threads[u].doomed[j].eng
    ensures t == u && i == j
  {
    assert ThreadOk(s, s.threads[t]) && ThreadOk(s, s.threads[u]);
    var k := s.threads[t].doomed[i].key;
    assert k == s.threads[u].doomed[j].key;
    assert HasKey(s.threads[t].doomed, k) && HasKey(s.threads[u].doomed, k);
    assert t == s.closings[k] == u;
  }

  lemma FlushedOrdered(s: State, t: Tid, h: Handle)
    requires Ordered(s) && t < |s.threads| && s.threads[t].Closing?
    ensures Ordered(At(Persist(s, h), t, s.threads[t].(stage := Finishing)))
  {
    QuietKeeps(s, Persist(s, h), |s.threads|);
    BatchOrdered(Persist(s, h), t, s.threads[t].(stage := Finishing));
  }

  lemma FinishedOrdered(s: State, t: Tid, next: Pc)
    requires Core(s) && Ordered(s)
    requires t < |s.threads| && s.threads[t].Closing? && s.threads[t].at < |s.threads[t].doomed|
    requires next.Closing? && next == s.threads[t].(at := s.threads[t].at + 1, stage := next.stage)
    requires s.threads[t].doomed[s.threads[t].at].eng < |s.handles|
    ensures Ordered(CloseEngine(At(s, t, next), s.threads[t].doomed[s.threads[t].at].eng))
  {
    var h := s.threads[t].doomed[s.threads[t].at].eng;
    BatchOrdered(s, t, next);
    var s1 := At(s, t, next);
    forall u, j | 0 <= u < |s1.threads| && s1.threads[u].Closing? && s1.threads[u].at <= j < |s1.threads[u].doomed|
      ensures s1.threads[u].doomed[j].eng != h
    {
      if s.threads[u].doomed[j].eng == h { BatchesApart(s, t, s.threads[t].at, u, j); }
    }
    CloseOrdered(s1, h);
  }

  /** The engine a batch is at, and the batch after it. */
  function After(pc: Pc): Pc
    requires pc.Closing?
  {
    pc.(at := pc.at + 1, stage := if pc.auto then Consolidating else Flushing)
  }

  lemma CloseStepForms(s: State, t: Tid)
    requires t < |s.threads| && s.threads[t].Closing? && s.threads[t].at < |s.threads[t].doomed|
    ensures var pc, h := s.threads[t], s.threads[t].doomed[s.threads[t].at].eng;
      CloseStep(s, t) ==
        match pc.stage
        case Consolidating => At(s, t, pc.(stage := Flushing))
        case Flushing => At(Persist(s, h), t, pc.(stage := Finishing))
        case Finishing => CloseEngine(At(s, t, After(pc)), h)
  {
  }

  lemma ClosingOrdered(s: State, t: Tid)
    requires Core(s) && Ordered(s)
    requires t < |s.threads| && s.threads[t].Closing? && s.threads[t].at < |s.threads[t].doomed|
    ensures Ordered(CloseStep(s, t))
  {
    CloseStepForms(s, t);
    match s.threads[t].stage
    case Consolidating => BatchOrdered(s, t, s.threads[t].(stage := Flushing));
    case Flushing => FlushedOrdered(s, t, s.threads[t].doomed[s.threads[t].at].eng);
    case Finishing =>
      assert ThreadOk(s, s.threads[t]);
      FinishedOrdered(s, t, After(s.threads[t]));
  }

  lemma KeysMean(doomed: seq<Doomed<Handle>>, k: string)
    ensures k in Keys(doomed) <==> HasKey(doomed, k)
  {
  }

  /** The keys of a batch are exactly the scopes whose marker it owns. */
  lemma OwnedKeys(s: State, t: Tid)
    requires MarkersOk(s) && t < |s.threads| && s.threads[t].Closing?
    ensures forall k :: k in Keys(s.threads[t].doomed) <==> k in s.closings && s.closings[k] == t
  {
    forall k ensures k in Keys(s.threads[t].doomed) <==> k in s.closings && s.closings[k] == t {
      KeysMean(s.threads[t].doomed, k);
    }
  }

  lemma SignalledMarkers(s: State, t: Tid)
    requires MarkersOk(s) && t < |s.threads| && s.threads[t].Closing?
    ensures MarkersOk(SignalStep(s, t))
  {
    var s' := SignalStep(s, t);
    OwnedKeys(s, t);
    forall k | k in s'.closings
      ensures Marked(s', k)
    {
      assert HasKey(s.threads[s.closings[k]].doomed, k);
    }
  }

  lemma SignalledWaits(s: State, t: Tid, pc: Pc)
    requires MarkersOk(s) && t < |s.threads| && s.threads[t].Closing? && WaitOk(s, pc)
    ensures WaitOk(SignalStep(s, t), pc)
  {
    OwnedKeys(s, t);
  }

  lemma SignalOrdered(s: State, t: Tid)
    requires Ordered(s) && t < |s.threads| && s.threads[t].Closing?
    ensures Ordered(SignalStep(s, t))
  {
    var s' := SignalStep(s, t);
    OwnedKeys(s, t);
    SignalledMarkers(s, t);
    forall u | 0 <= u < |s'.threads| ensures WaitOk(s', s'.threads[u]) {
      if u != t { SignalledWaits(s, t, s.threads[u]); }
    }
  }

  // Steps that start a batch

  /** Thread `t` of `s'` starts a batch; the other threads start and end none. */
  ghost predicate Starts(s: State, s': State, t: Tid, doomed: seq<Doomed<Handle>>) {
    && t < |s'.threads| && |s.threads| <= |s'.threads| && s'.threads[t].Closing? && s'.threads[t].doomed == doomed
    && (t < |s.threads| ==> !s.threads[t].Closing? && !AfterBatch(s.threads[t]))
    && (|s'.threads| > |s.threads| ==> t == |s.threads| && |s'.threads| == t + 1)
    && (forall u :: 0 <= u < |s.threads| && u != t ==>
          s'.threads[u] == s.threads[u]
          || (!s.threads[u].Closing? && !AfterBatch(s.threads[u]) && !s'.threads[u].Closing?))
    && s'.closings == s.closings + (map k | k in Keys(doomed) :: t)
    && s'.signalled == s.signalled && s'.handles == s.handles
  }

  lemma StartMarkers(s: State, s': State, t: Tid, doomed: seq<Doomed<Handle>>)
    requires MarkersOk(s) && Starts(s, s', t, doomed)
    requires forall i :: 0 <= i < |doomed| ==> doomed[i].key !in s.closings
    ensures MarkersOk(s')
  {
    forall k ensures k in Keys(doomed) <==> HasKey(doomed, k) { KeysMean(doomed, k); }
    forall k | k in s'.closings
      ensures Marked(s', k)
    {
      if k !in Keys(doomed) { assert HasKey(s.threads[s.closings[k]].doomed, k); }
    }
    forall u, k | 0 <= u < |s'.threads| && s'.threads[u].Closing? && HasKey(s'.threads[u].doomed, k)
      ensures k in s'.closings && s'.closings[k] == u
    {
      if u != t { assert s.threads[u].Closing? && k in s.closings; }
    }
  }

  lemma StartPending(s: State, s': State, t: Tid, doomed: seq<Doomed<Handle>>)
    requires PendingOpen(s) && SignalsOk(s) && Starts(s, s', t, doomed)
    requires forall i :: 0 <= i < |doomed| ==> doomed[i].eng < |s.handles| && !s.handles[doomed[i].eng].closed
    ensures PendingOpen(s') && SignalsOk(s')
  {
    forall u, i | 0 <= u < |s'.threads| && s'.threads[u].Closing? && s'.threads[u].at <= i < |s'.threads[u].doomed|
      ensures s'.threads[u].doomed[i].eng < |s'.handles| && !s'.handles[s'.threads[u].doomed[i].eng].closed
    {
      if u != t { assert s'.threads[u] == s.threads[u]; }
    }
  }

  /** A new batch takes over engines whose scopes had no close pending. */
  lemma StartOrdered(s: State, s': State, t: Tid, doomed: seq<Doomed<Handle>>)
    requires MarkersOk(s) && PendingOpen(s) && SignalsOk(s) && Disjoint(s) && TableEntriesOk(s)
    requires Starts(s, s', t, doomed)
    requires forall i :: 0 <= i < |doomed| ==>
      doomed[i].key in s.tab.engines && s.tab.engines[doomed[i].key] == doomed[i].eng &&
      doomed[i].key !in s'.tab.engines
    requires forall k :: k in s'.tab.engines ==> k !in s.closings
    ensures MarkersOk(s') && PendingOpen(s') && SignalsOk(s') && Disjoint(s')
    ensures forall k :: k in s'.closings ==> k in s.tab.engines || (k in s.closings && s'.closings[k] == s.closings[k])
  {
    StartMarkers(s, s', t, doomed);
    StartPending(s, s', t, doomed);
    forall k ensures k in Keys(doomed) <==> HasKey(doomed, k) { KeysMean(doomed, k); }
  }

  lemma WaitKept(s: State, s': State, pc: Pc)
    requires WaitOk(s, pc) && s'.signalled == s.signalled
    requires forall k :: k in s'.closings ==> k in s.tab.engines || (k in s.closings && s'.closings[k] == s.closings[k])
    requires forall k :: k in s.closings && k !in s.tab.engines ==> k in s'.closings && s'.closings[k] == s.closings[k]
    requires pc.Blocked? || pc.WaitCheck? ==> pc.key !in s'.tab.engines || pc.key in s.tab.engines
    ensures WaitOk(s', pc)
  {
  }

  lemma DrainWaits(s: State, s': State, t: Tid, doomed: seq<Doomed<Handle>>)
    requires WaitsOk(s) && Starts(s, s', t, doomed) && s'.tab == Empty() && s'.closed == s.closed
    requires forall k :: k in s'.closings ==> k in s.tab.engines || (k in s.closings && s'.closings[k] == s.closings[k])
    requires forall i :: 0 <= i < |doomed| ==> doomed[i].key in s.tab.engines
    requires forall u :: 0 <= u < |s.threads| && u != t && u < |s'.threads| ==> s'.threads[u] == s.threads[u]
    ensures WaitsOk(s')
  {
    forall k ensures k in Keys(doomed) ==> k in s.tab.engines { KeysMean(doomed, k); }
    forall u | 0 <= u < |s'.threads| ensures WaitOk(s', s'.threads[u]) {
      if u != t { WaitKept(s, s', s.threads[u]); }
    }
  }

  lemma DrainOrdered(s: State, s': State, t: Tid, doomed: seq<Doomed<Handle>>)
    requires TableEntriesOk(s) && ThreadsOk(s) && Ordered(s) && Lists(doomed, s.tab.engines)
    requires Starts(s, s', t, doomed) && s'.tab == Empty() && s'.closed == s.closed
    requires forall u :: 0 <= u < |s.threads| && u != t && u < |s'.threads| ==> s'.threads[u] == s.threads[u]
    ensures Ordered(s')
  {
    StartOrdered(s, s', t, doomed);
    DrainWaits(s, s', t, doomed);
  }

  lemma NothingToDrain(s: State, t: Tid)
    requires TableOk(s.tab) && Ordered(s) && t < |s.threads| && s.threads[t].DisposeDrain? && Lists([], s.tab.engines)
    ensures Ordered(DrainForDispose(s, t, []))
  {
    NoneListed(s.tab);
    assert Mark(s, [], t) == s;
    MoveOrdered(s, DrainForDispose(s, t, []), t, DisposeWait);
  }

  lemma DisposeDrainOrdered(s: State, t: Tid, doomed: seq<Doomed<Handle>>)
    requires TableOk(s.tab) && TableEntriesOk(s) && ThreadsOk(s) && Ordered(s) && ThreadOk(s, DisposeDrain)
    requires t < |s.threads| && s.threads[t].DisposeDrain? && Lists(doomed, s.tab.engines)
    ensures Ordered(DrainForDispose(s, t, doomed))
  {
    if doomed == [] { NothingToDrain(s, t); } else { DrainOrdered(s, DrainForDispose(s, t, doomed), t, doomed); }
  }

  lemma ReconfigureOrdered(s: State, cfg: Config, doomed: seq<Doomed<Handle>>)
    requires Core(s) && Ordered(s) && Enabled(s, Reconfigure(cfg, doomed))
    ensures Ordered(Reconfigured(s, cfg, doomed))
  {
    var s' := Reconfigured(s, cfg, doomed);
    if doomed == [] {
      if MaterialChange(s.cfg, cfg) { NoneListed(s.tab); }
      forall u | 0 <= u < |s'.threads| ensures WaitOk(s', s'.threads[u]) {
        assert WaitOk(s, s.threads[u]);
      }
      assert MarkersOk(s');
    } else {
      DrainOrdered(s, s', |s.threads|, doomed);
    }
  }

  lemma InstalledMarkers(s: State, t: Tid, tab: Table<Handle>, doomed: seq<Doomed<Handle>>)
    requires MarkersOk(s) && PendingOpen(s) && SignalsOk(s) && Disjoint(s) && TableEntriesOk(s) && doomed != []
    requires t < |s.threads| && s.threads[t].Opened? && s.threads[t].key !in s.closings
    requires InstallOutcome(s, t, tab, doomed)
    ensures var s' := Installed(s, t, tab, doomed); MarkersOk(s') && PendingOpen(s') && SignalsOk(s') && Disjoint(s')
  {
    forall i | 0 <= i < |doomed| ensures doomed[i].key !in tab.engines { assert HasKey(doomed, doomed[i].key); }
    StartOrdered(s, Installed(s, t, tab, doomed), |s.threads|, doomed);
  }

  lemma InstalledAlone(s: State, t: Tid, tab: Table<Handle>)
    requires MarkersOk(s) && PendingOpen(s) && SignalsOk(s) && Disjoint(s)
    requires t < |s.threads| && s.threads[t].Opened? && InstallOutcome(s, t, tab, []) && s.threads[t].key !in s.closings
    ensures var s' := Installed(s, t, tab, []); MarkersOk(s') && PendingOpen(s') && SignalsOk(s') && Disjoint(s')
  {
    assert MarkersOk(Installed(s, t, tab, []));
  }

  /** Only the openMu holder relies on the markers of its scope. */
  lemma OnlyHolderWaits(s: State, pc: Pc)
    requires !HoldsOpenMu(pc)
    ensures WaitOk(s, pc)
  {
  }

  lemma InstalledWaits(s: State, t: Tid, tab: Table<Handle>, doomed: seq<Doomed<Handle>>)
    requires OpenMuOk(s) && t < |s.threads| && s.threads[t].Opened?
    ensures WaitsOk(Installed(s, t, tab, doomed))
  {
    var s' := Installed(s, t, tab, doomed);
    forall u | 0 <= u < |s'.threads| ensures WaitOk(s', s'.threads[u]) {
      if u != t && u < |s.threads| { assert !HoldsOpenMu(s.threads[u]); }
      OnlyHolderWaits(s', s'.threads[u]);
    }
  }

  lemma InstalledOrdered(s: State, t: Tid, tab: Table<Handle>, doomed: seq<Doomed<Handle>>)
    requires OpenMuOk(s) && TableEntriesOk(s) && Ordered(s)
    requires t < |s.threads| && s.threads[t].Opened? && s.threads[t].key !in s.closings
    requires InstallOutcome(s, t, tab, doomed)
    ensures Ordered(Installed(s, t, tab, doomed))
  {
    if doomed == [] { InstalledAlone(s, t, tab); } else { InstalledMarkers(s, t, tab, doomed); }
    InstalledWaits(s, t, tab, doomed);
  }

  lemma InstallOrdered(s: State, t: Tid)
    requires CanInstall(s, t) && Ordered(s) && s.threads[t].key !in s.closings
    ensures Ordered(Install(s, t))
  {
    var inserted := Insert(s.tab, s.threads[t].key, s.threads[t].eng);
    InstallOutcomeHolds(s, t, inserted);
    InstalledOrdered(s, t, Shrunk(inserted), Evicted(inserted));
  }

  lemma AdvanceOrdered(s: State, t: Tid, ok: bool, doomed: seq<Doomed<Handle>>)
    requires Core(s) && Ordered(s) && Enabled(s, Advance(t, ok, doomed)) && CleanInstall(s, Advance(t, ok, doomed))
    ensures Ordered(Advanced(s, t, ok, doomed))
  {
    var pc := s.threads[t];
    match pc
    case Called(_) => EnterOrdered(s, t);
    case Lookup(_) => LookUpOrdered(s, t);
    case WantOpen(_, _) => OpenMuStepsOrdered(s, t);
    case WaitCheck(_, _, _) => WaitStepsOrdered(s, t);
    case Blocked(_, _, _) => WaitStepsOrdered(s, t);
    case Recheck(_, _) => OpenMuStepsOrdered(s, t);
    case Opening(_, _) => OpenOrdered(s, t, ok);
    case Opened(_, cfg, _) =>
      if s.closed || MaterialChange(cfg, s.cfg) { DiscardOrdered(s, t); } else { InstallOrdered(s, t); }
    case Discarding(_) => DiscardOrdered(s, t);
    case Closing(_, _, _, _, _) =>
      assert ThreadOk(s, pc);
      if pc.at < |pc.doomed| { ClosingOrdered(s, t); } else { SignalOrdered(s, t); }
    case DisposeCalled => DisposeStepsOrdered(s, t);
    case DisposeDrain =>
      assert ThreadOk(s, pc);
      DisposeDrainOrdered(s, t, doomed);
    case DisposeWait => DisposeStepsOrdered(s, t);
    case PrewarmCalled => PrewarmStartOrdered(s, t);
    case PrewarmGate => PrewarmStartOrdered(s, t);
    case PrewarmWant => PrewarmOrdered(s, t);
    case PrewarmOpen => PrewarmOrdered(s, t);
    case Leaving => PrewarmOrdered(s, t);
    case _ =>
  }

  lemma CallsOrdered(s: State, a: Action)
    requires Core(s) && Ordered(s) && Enabled(s, a) && !a.Reconfigure? && !a.Advance?
    ensures Ordered(Apply(s, a))
  {
    QuietKeeps(s, Apply(s, a), |s.threads|);
  }

  lemma StepKeepsOrdered(s: State, a: Action)
    requires Core(s) && Ordered(s) && Enabled(s, a) && CleanInstall(s, a)
    ensures Ordered(Apply(s, a))
  {
    match a
    case CallForScope(_) => CallsOrdered(s, a);
    case CallDisposeAll => CallsOrdered(s, a);
    case CallPrewarm => CallsOrdered(s, a);
    case Write(_, _) => CallsOrdered(s, a);
    case Reconfigure(cfg, doomed) => ReconfigureOrdered(s, cfg, doomed);
    case Advance(t, ok, doomed) => AdvanceOrdered(s, t, ok, doomed);
  }

  lemma {:induction false} RunsKeepOrdered(r: Run)
    requires Replay(r).Some? && CleanInstalls(r)
    ensures Core(Replay(r).value) && Ordered(Replay(r).value)
  {
    RunsKeepCore(r);
    match r
    case Start(cfg) => OrderedInit(cfg);
    case Then(p, a) =>
      RunsKeepOrdered(p);
      StepKeepsOrdered(Replay(p).value, a);
  }

  /** An engine that ForScope returned and that is not fully closed. */
  ghost predicate Live(s: State, h: Handle, key: string) {
    h in s.returned && h < |s.handles| && !s.handles[h].closed && s.handles[h].path.key == key
  }

  /** The scope of an engine installed beside a pending close is in both places. */
  lemma UncleanInstall(s: State, t: Tid)
    requires Core(s) && t < |s.threads| && Welcome(s, s.threads[t]) && s.threads[t].key in s.closings
    ensures s.threads[t].key in Install(s, t).tab.engines && s.threads[t].key in Install(s, t).closings
    ensures !Disjoint(Install(s, t))
  {
    var inserted := Insert(s.tab, s.threads[t].key, s.threads[t].eng);
    InstallTable(s, t, inserted);
    assert s.threads[t].key in Install(s, t).tab.engines;
  }

  lemma OpenedAdvances(s: State, t: Tid, ok: bool, doomed: seq<Doomed<Handle>>)
    requires t < |s.threads|
    ensures s.threads[t].Opened? ==>
      Advanced(s, t, ok, doomed) == if Welcome(s, s.threads[t]) then Install(s, t) else Discard(s, t)
  {
  }

  lemma StepDisjointExactly(s: State, a: Action)
    requires Core(s) && Ordered(s) && Enabled(s, a)
    ensures Disjoint(Apply(s, a)) <==> CleanInstall(s, a)
  {
    if CleanInstall(s, a) {
      StepKeepsOrdered(s, a);
    } else {
      OpenedAdvances(s, a.t, a.ok, a.doomed);
      UncleanInstall(s, a.t);
    }
  }

  ghost predicate AlwaysDisjoint(r: Run) {
    && (Replay(r).Some? ==> Disjoint(Replay(r).value))
    && (r.Then? ==> AlwaysDisjoint(r.prefix))
  }

  /** The check at the install section is exactly what the order needs: in every run, no scope
      is ever both in the table and pending close, if and only if each engine installed had no
      close of its scope pending. */
  lemma {:induction false} DisjointExactly(r: Run)
    requires Replay(r).Some?
    ensures AlwaysDisjoint(r) <==> CleanInstalls(r)
  {
    if r.Then? {
      DisjointExactly(r.prefix);
      if CleanInstalls(r.prefix) {
        RunsKeepOrdered(r.prefix);
        StepDisjointExactly(Replay(r.prefix).value, r.action);
      }
    }
  }

  /** In every run whose installs are clean, a scope has at most one live engine, and
      a scope with an engine in the table has no close pending. */
  lemma OneLiveEngine(r: Run, key: string, h1: Handle, h2: Handle)
    requires Replay(r).Some? && CleanInstalls(r)
    requires Live(Replay(r).value, h1, key) && Live(Replay(r).value, h2, key)
    ensures h1 == h2
    ensures Disjoint(Replay(r).value)
  {
    RunsKeepOrdered(r);
    LiveOnce(Replay(r).value, key, h1, h2);
  }

  lemma LiveOnce(s: State, key: string, h1: Handle, h2: Handle)
    requires Core(s) && Ordered(s) && Live(s, h1, key) && Live(s, h2, key)
    ensures h1 == h2
  {
    LivePlace(s, key, h1);
    LivePlace(s, key, h2);
    if key !in s.tab.engines { PendingOnce(s.threads, s.closings[key], key, h1, h2); }
  }

  lemma PendingOnce(threads: seq<Pc>, t: Tid, key: string, h1: Handle, h2: Handle)
    requires PendingAs(threads, t, key, h1) && PendingAs(threads, t, key, h2)
    ensures h1 == h2
  {
  }

  /** The live engine of a scope is the table's, or is pending in the batch that owns the marker. */
  lemma LivePlace(s: State, key: string, h: Handle)
    requires Core(s) && Ordered(s) && Live(s, h, key)
    ensures key in s.tab.engines ==> s.tab.engines[key] == h
    ensures key !in s.tab.engines ==> key in s.closings && PendingAs(s.threads, s.closings[key], key, h)
  {
    assert Accounted(s, h);
    if k :| k in s.tab.engines && s.tab.engines[k] == h {
      assert k == key;
    } else {
      var t :| 0 <= t < |s.threads| && Pending(s.threads[t], h);
      assert ThreadOk(s, s.threads[t]);
      PendingPlace(s, t, key, h);
    }
  }

  lemma PendingPlace(s: State, t: Tid, key: string, h: Handle)
    requires MarkersOk(s) && Disjoint(s) && t < |s.threads| && Pending(s.threads[t], h) && BatchOk(s, s.threads[t])
    requires h < |s.handles| && s.handles[h].path.key == key
    ensures key !in s.tab.engines && key in s.closings && PendingAs(s.threads, s.closings[key], key, h)
  {
    var i :| s.threads[t].at <= i < |s.threads[t].doomed| && s.threads[t].doomed[i].eng == h;
    assert s.threads[t].doomed[i] == Doomed(key, h);
    assert HasKey(s.threads[t].doomed, key);
  }

  ghost predicate PendingAs(threads: seq<Pc>, t: Tid, key: string, h: Handle) {
    && t < |threads| && threads[t].Closing? && NoDupKeys(threads[t].doomed)
    && exists i :: 0 <= i < |threads[t].doomed| && threads[t].doomed[i] == Doomed(key, h)
  }
}
