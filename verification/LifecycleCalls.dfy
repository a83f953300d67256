/** What a call comes to: ForScope ends with an engine of the scope it was called for or with
    none, and a batch of closes runs under the settings in force when it starts. */
module LifecycleCalls {
  import opened Configs
  import opened EngineTable
  import opened Lifecycle
  import opened LifecycleCore
  import opened LifecycleFiles
  import opened LifecycleOrder
  import opened LifecycleProgress
  import opened LifecycleReads
  import opened Wrappers

  /** The scope that thread `t` was started to open. */
  ghost function CalledFor(r: Run, t: Tid): Option<string> {
    match r
    case Start(_) => None
    case Then(p, a) =>
      if a.CallForScope? && Replay(p).Some? && t == |Replay(p).value.threads| then Some(a.key) else CalledFor(p, t)
  }

  /** Where a call for `key` may be: never at another scope, past the entry only with a scope,
      and at its end with an engine on the scope's file that was handed out. */
  ghost predicate Serves(s: State, pc: Pc, key: string) {
    match pc
    case Called(k) => k == key
    case Lookup(k) => k == key && key != ""
    case WantOpen(k, _) => k == key && key != ""
    case WaitCheck(k, _, _) => k == key && key != ""
    case Blocked(k, _, _) => k == key && key != ""
    case Recheck(k, _) => k == key && key != ""
    case Opening(k, _) => k == key && key != ""
    case Opened(k, _, h) => k == key && key != "" && Is(s, h, key)
    case Got(h) => key != "" && Is(s, h, key) && h in s.returned
    case Failed => true
    case _ => false
  }

  /** Engines stay on their files, and handed out. */
  ghost predicate PathsKept(s: State, s': State) {
    && |s.handles| <= |s'.handles| && s.returned <= s'.returned
    && forall h :: 0 <= h < |s.handles| ==> s'.handles[h].path == s.handles[h].path
  }

  lemma CloseKeepsPaths(s: State, t: Tid)
    requires t < |s.threads|
    ensures s.threads[t].Discarding? ==> PathsKept(s, At(CloseEngine(s, s.threads[t].eng), t, Done))
    ensures s.threads[t].Closing? && s.threads[t].at < |s.threads[t].doomed| ==> PathsKept(s, CloseStep(s, t))
  {
  }

  lemma DecisionsKeepPaths(s: State, t: Tid)
    requires t < |s.threads|
    ensures s.threads[t].Opened? ==> PathsKept(s, Discard(s, t)) && PathsKept(s, Install(s, t))
    ensures s.threads[t].Opening? ==> PathsKept(s, OpenSucceeds(s, t))
  {
  }

  lemma StepKeepsPaths(s: State, a: Action)
    requires Enabled(s, a)
    ensures PathsKept(s, Apply(s, a))
  {
    if a.Advance? {
      if Moves(s, a.t) && !Opens(s, a) {
        MovesUntouched(s, a.t, a.doomed);
      } else if s.threads[a.t].Closing? || s.threads[a.t].Discarding? {
        CloseKeepsPaths(s, a.t);
      } else {
        DecisionsKeepPaths(s, a.t);
      }
    }
  }

  lemma ServesKept(s: State, s': State, pc: Pc, key: string)
    requires Serves(s, pc, key) && PathsKept(s, s')
    ensures Serves(s', pc, key)
  {
  }

  lemma EarlyServes(s: State, t: Tid, key: string)
    requires TableEntriesOk(s) && t < |s.threads| && Serves(s, s.threads[t], key)
    ensures s.threads[t].Called? ==> Serves(s, Enter(s, t).threads[t], key)
    ensures s.threads[t].Lookup? ==> Serves(s, LookUp(s, t).threads[t], key)
    ensures s.threads[t].WantOpen? ==> Serves(s, AcquireOpenMu(s, t).threads[t], key)
    ensures s.threads[t].WaitCheck? ==> Serves(s, CheckPendingClose(s, t).threads[t], key)
    ensures s.threads[t].Blocked? ==> Serves(s, Wake(s, t).threads[t], key)
    ensures s.threads[t].Recheck? ==> Serves(s, RecheckTable(s, t).threads[t], key)
  {
  }

  lemma LateServes(s: State, t: Tid, key: string)
    requires t < |s.threads| && Serves(s, s.threads[t], key)
    ensures s.threads[t].Opening? ==> Serves(OpenSucceeds(s, t), OpenSucceeds(s, t).threads[t], key)
    ensures s.threads[t].Opening? ==> Serves(s, OpenFails(s, t).threads[t], key)
    ensures s.threads[t].Opened? ==> Serves(s, Discard(s, t).threads[t], key)
    ensures s.threads[t].Opened? ==> Serves(Install(s, t), Install(s, t).threads[t], key)
  {
  }

  lemma LateStepServes(s: State, t: Tid, ok: bool, doomed: seq<Doomed<Handle>>, key: string)
    requires t < |s.threads| && Serves(s, s.threads[t], key) && (s.threads[t].Opening? || s.threads[t].Opened?)
    requires PathsKept(s, Advanced(s, t, ok, doomed))
    ensures Serves(Advanced(s, t, ok, doomed), Advanced(s, t, ok, doomed).threads[t], key)
  {
    LateServes(s, t, key);
    OpenedAdvances(s, t, ok, doomed);
    var s' := Advanced(s, t, ok, doomed);
    if Serves(s, s'.threads[t], key) { ServesKept(s, s', s'.threads[t], key); }
  }

  lemma EarlyStepServes(s: State, t: Tid, ok: bool, doomed: seq<Doomed<Handle>>, key: string)
    requires TableEntriesOk(s) && t < |s.threads| && Serves(s, s.threads[t], key) && !Ended(s.threads[t])
    requires !s.threads[t].Opening? && !s.threads[t].Opened?
    ensures Serves(s, Advanced(s, t, ok, doomed).threads[t], key)
  {
    EarlyServes(s, t, key);
  }

  lemma OwnStepServes(s: State, t: Tid, ok: bool, doomed: seq<Doomed<Handle>>, key: string)
    requires TableEntriesOk(s) && t < |s.threads| && !Ended(s.threads[t]) && Serves(s, s.threads[t], key)
    requires PathsKept(s, Advanced(s, t, ok, doomed))
    ensures t < |Advanced(s, t, ok, doomed).threads| ==>
      Serves(Advanced(s, t, ok, doomed), Advanced(s, t, ok, doomed).threads[t], key)
  {
    if s.threads[t].Opening? || s.threads[t].Opened? {
      LateStepServes(s, t, ok, doomed, key);
    } else {
      EarlyStepServes(s, t, ok, doomed, key);
      var s' := Advanced(s, t, ok, doomed);
      ServesKept(s, s', s'.threads[t], key);
    }
  }

  /** A call for a scope ends only with an engine of that scope that was handed out, or with
      none; a call for no scope ends with none; and it is nowhere else in between. */
  lemma {:induction false} CallsServeTheirScope(r: Run, t: Tid, key: string)
    requires Replay(r).Some? && CalledFor(r, t) == Some(key)
    ensures t < |Replay(r).value.threads| && Serves(Replay(r).value, Replay(r).value.threads[t], key)
  {
    var s, a := Replay(r.prefix).value, r.action;
    if !(a.CallForScope? && t == |s.threads|) {
      CallsServeTheirScope(r.prefix, t, key);
      RunsKeepCore(r.prefix);
      StepKeepsPaths(s, a);
      StepIsolated(s, a);
      if a.Advance? && a.t == t {
        OwnStepServes(s, t, a.ok, a.doomed, key);
        assert t < |Advanced(s, t, a.ok, a.doomed).threads|;
      } else {
        ServesKept(s, Apply(s, a), s.threads[t], key);
      }
    }
  }

  /** A call that begins after shutdown has begun ends with none. */
  lemma {:induction false} RefusedOnceClosed(p: Run, r: Run, t: Tid)
    requires Continues(r, p) && Replay(p).Some? && Replay(r).Some? && Replay(p).value.closed
    requires t < |Replay(p).value.threads| && Replay(p).value.threads[t].Called?
    ensures t < |Replay(r).value.threads|
    ensures Replay(r).value.threads[t].Failed? || Replay(r).value.threads[t] == Replay(p).value.threads[t]
  {
    if r != p {
      RefusedOnceClosed(p, r.prefix, t);
      NothingInstalledOnceClosed(p, r.prefix);
      StepIsolated(Replay(r.prefix).value, r.action);
    }
  }

  // Batches

  /** A batch at its beginning: it consolidates first if the settings say so. */
  predicate Begins(pc: Pc, auto: bool) {
    pc.Closing? ==> pc.at == 0 && pc.auto == auto && (pc.stage.Consolidating? <==> auto) && !pc.stage.Finishing?
  }

  lemma InstallBegins(s: State, t: Tid)
    requires t < |s.threads| && s.threads[t].Opened?
    ensures forall u :: |s.threads| <= u < |Install(s, t).threads| ==>
      Begins(Install(s, t).threads[u], s.cfg.autoConsolidate)
    ensures !Install(s, t).threads[t].Closing? && Install(s, t).cfg == s.cfg
  {
  }

  lemma DrainBegins(s: State, t: Tid, doomed: seq<Doomed<Handle>>)
    requires t < |s.threads|
    ensures Begins(DrainForDispose(s, t, doomed).threads[t], s.cfg.autoConsolidate)
    ensures DrainForDispose(s, t, doomed).cfg == s.cfg && |DrainForDispose(s, t, doomed).threads| == |s.threads|
  {
  }

  lemma ReconfigureBegins(s: State, cfg: Config, doomed: seq<Doomed<Handle>>)
    ensures forall u :: |s.threads| <= u < |Reconfigured(s, cfg, doomed).threads| ==>
      Begins(Reconfigured(s, cfg, doomed).threads[u], cfg.autoConsolidate)
    ensures Reconfigured(s, cfg, doomed).cfg == cfg
  {
  }

  /** Every batch was there before. */
  ghost predicate NoNewBatch(s: State, s': State) {
    forall t :: 0 <= t < |s'.threads| && s'.threads[t].Closing? ==> t < |s.threads| && s.threads[t].Closing?
  }

  lemma EarlyNoBatch(s: State, t: Tid)
    requires t < |s.threads|
    ensures s.threads[t].Called? ==> NoNewBatch(s, Enter(s, t))
    ensures s.threads[t].Lookup? ==> NoNewBatch(s, LookUp(s, t))
    ensures s.threads[t].WantOpen? ==> NoNewBatch(s, AcquireOpenMu(s, t))
    ensures s.threads[t].WaitCheck? ==> NoNewBatch(s, CheckPendingClose(s, t))
    ensures s.threads[t].Blocked? ==> NoNewBatch(s, Wake(s, t))
    ensures s.threads[t].Recheck? ==> NoNewBatch(s, RecheckTable(s, t))
  {
  }

  lemma OpenNoBatch(s: State, t: Tid)
    requires t < |s.threads|
    ensures s.threads[t].Opening? ==> NoNewBatch(s, OpenSucceeds(s, t)) && NoNewBatch(s, OpenFails(s, t))
    ensures s.threads[t].Opened? ==> NoNewBatch(s, Discard(s, t))
    ensures s.threads[t].Discarding? ==> NoNewBatch(s, At(CloseEngine(s, s.threads[t].eng), t, Done))
  {
  }

  lemma CloseNoBatch(s: State, t: Tid)
    requires t < |s.threads| && s.threads[t].Closing?
    ensures NoNewBatch(s, SignalStep(s, t))
    ensures s.threads[t].at < |s.threads[t].doomed| ==> NoNewBatch(s, CloseStep(s, t))
  {
  }

  lemma RestNoBatch(s: State, t: Tid)
    requires t < |s.threads|
    ensures !s.threads[t].Closing? ==> NoNewBatch(s, PrewarmStep(s, t))
    ensures NoNewBatch(s, At(s, t, DisposeDrain).(closed := true)) && NoNewBatch(s, At(s, t, Disposed))
  {
  }

  lemma OtherSteps(s: State, t: Tid, ok: bool, doomed: seq<Doomed<Handle>>)
    requires CanAdvance(s, t) && !Welcome(s, s.threads[t]) && !s.threads[t].DisposeDrain?
    ensures NoNewBatch(s, Advanced(s, t, ok, doomed))
  {
    var pc := s.threads[t];
    if pc.Opening? || pc.Opened? || pc.Discarding? {
      OpenNoBatch(s, t);
    } else if pc.Closing? {
      CloseNoBatch(s, t);
    } else if PastLookup(pc) || pc.Called? || pc.Lookup? {
      EarlyNoBatch(s, t);
    } else {
      RestNoBatch(s, t);
    }
  }

  lemma AdvanceBegins(s: State, a: Action, t: Tid)
    requires Core(s) && Enabled(s, a) && a.Advance? && t < |Apply(s, a).threads|
    requires t < |s.threads| ==> !s.threads[t].Closing?
    ensures Begins(Apply(s, a).threads[t], Apply(s, a).cfg.autoConsolidate)
  {
    StepIsolated(s, a);
    if Welcome(s, s.threads[a.t]) {
      OpenedAdvances(s, a.t, a.ok, a.doomed);
      InstallBegins(s, a.t);
    } else if s.threads[a.t].DisposeDrain? {
      DrainBegins(s, a.t, a.doomed);
    } else {
      OtherSteps(s, a.t, a.ok, a.doomed);
    }
  }

  /** Each batch begins with its first engine, and consolidates exactly if the settings in force
      after the step that starts it say so. */
  lemma BatchesBegin(s: State, a: Action, t: Tid)
    requires Core(s) && Enabled(s, a) && t < |Apply(s, a).threads|
    requires t < |s.threads| ==> !s.threads[t].Closing?
    ensures Begins(Apply(s, a).threads[t], Apply(s, a).cfg.autoConsolidate)
  {
    match a
    case Advance(_, _, _) => AdvanceBegins(s, a, t);
    case Reconfigure(cfg, doomed) =>
      ReconfigureBegins(s, cfg, doomed);
      StepIsolated(s, a);
    case _ => StepIsolated(s, a);
  }
}
