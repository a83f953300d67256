/** What a caller can do to keep every install clean and up to date: never bring back settings
    that an open past its wait had read and that have changed since. */
module LifecycleRestore {
  import opened Configs
  import opened EngineTable
  import opened Lifecycle
  import opened LifecycleCore
  import opened LifecycleFiles
  import opened LifecycleOrder
  import opened LifecycleReads

  /** ForScope is past waitPendingClose and has not reached the install section. */
  predicate PastWait(pc: Pc) { pc.Recheck? || pc.Opening? || pc.Opened? }

  /** A reconfigure does not bring back settings that an open past its wait has read
      and that have changed since. */
  ghost predicate NoRestore(s: State, a: Action) {
    a.Reconfigure? ==>
      forall t :: 0 <= t < |s.threads| && PastWait(s.threads[t]) && MaterialChange(s.threads[t].cfg, s.cfg) ==>
        MaterialChange(s.threads[t].cfg, a.cfg)
  }

  ghost predicate NeverRestores(r: Run) {
    r.Then? ==> NeverRestores(r.prefix) && (Replay(r.prefix).Some? ==> NoRestore(Replay(r.prefix).value, r.action))
  }

  /** An open that has waited and would be installed has no close of its scope pending. */
  predicate WaitedOut(s: State, pc: Pc) {
    PastWait(pc) && !s.closed && !MaterialChange(pc.cfg, s.cfg) ==> pc.key !in s.closings
  }

  ghost predicate Waited(s: State) {
    forall t :: 0 <= t < |s.threads| ==> WaitedOut(s, s.threads[t])
  }

  /** A step that starts no batch: thread `t` moves, the settings stay, markers only go. */
  ghost predicate NoNewMarker(s: State, s': State, t: Tid) {
    && (forall k :: k in s'.closings ==> k in s.closings)
    && s'.cfg == s.cfg && (s.closed ==> s'.closed) && |s.threads| <= |s'.threads|
    && (forall u :: 0 <= u < |s'.threads| && u != t ==>
          if u < |s.threads| then s'.threads[u] == s.threads[u] else !PastWait(s'.threads[u]))
    && (t < |s'.threads| ==> WaitedOut(s', s'.threads[t]))
  }

  lemma WaitedKept(s: State, s': State, t: Tid)
    requires Waited(s) && NoNewMarker(s, s', t)
    ensures Waited(s')
  {
    forall u | 0 <= u < |s'.threads| ensures WaitedOut(s', s'.threads[u]) {
      if u != t && u < |s.threads| { assert WaitedOut(s, s.threads[u]); }
    }
  }

  lemma EarlySteps(s: State, t: Tid)
    requires t < |s.threads|
    ensures s.threads[t].Called? ==> NoNewMarker(s, Enter(s, t), t)
    ensures s.threads[t].Lookup? ==> NoNewMarker(s, LookUp(s, t), t)
    ensures s.threads[t].WantOpen? ==> NoNewMarker(s, AcquireOpenMu(s, t), t)
  {
  }

  lemma WaitSteps(s: State, t: Tid)
    requires t < |s.threads|
    ensures s.threads[t].WaitCheck? ==> NoNewMarker(s, CheckPendingClose(s, t), t)
    ensures s.threads[t].Blocked? ==> NoNewMarker(s, Wake(s, t), t)
  {
  }

  lemma OpenSteps(s: State, t: Tid)
    requires t < |s.threads| && WaitedOut(s, s.threads[t])
    ensures s.threads[t].Recheck? ==> NoNewMarker(s, RecheckTable(s, t), t)
    ensures s.threads[t].Opening? ==> NoNewMarker(s, OpenSucceeds(s, t), t) && NoNewMarker(s, OpenFails(s, t), t)
    ensures s.threads[t].Opened? ==> NoNewMarker(s, Discard(s, t), t)
  {
  }

  lemma CloseSteps(s: State, t: Tid)
    requires t < |s.threads|
    ensures s.threads[t].Discarding? ==> NoNewMarker(s, At(CloseEngine(s, s.threads[t].eng), t, Done), t)
    ensures s.threads[t].Closing? && s.threads[t].at < |s.threads[t].doomed| ==> NoNewMarker(s, CloseStep(s, t), t)
  {
  }

  lemma SignalSteps(s: State, t: Tid)
    requires t < |s.threads| && s.threads[t].Closing?
    ensures NoNewMarker(s, SignalStep(s, t), t)
  {
  }

  lemma RestSteps(s: State, t: Tid)
    requires t < |s.threads|
    ensures s.threads[t].DisposeCalled? ==> NoNewMarker(s, At(s, t, DisposeDrain).(closed := true), t)
    ensures s.threads[t].DisposeWait? ==> NoNewMarker(s, At(s, t, Disposed), t)
    ensures !PastWait(s.threads[t]) ==> NoNewMarker(s, PrewarmStep(s, t), t)
  {
  }

  /** Nobody else is past its wait while an engine is installed. */
  lemma InstallWaited(s: State, t: Tid)
    requires OpenMuOk(s) && t < |s.threads| && s.threads[t].Opened?
    ensures Waited(Install(s, t))
  {
    var s' := Install(s, t);
    forall u | 0 <= u < |s'.threads| ensures WaitedOut(s', s'.threads[u]) {
      if u != t && u < |s.threads| { assert !HoldsOpenMu(s.threads[u]); }
    }
  }

  lemma AdvanceWaited(s: State, t: Tid, ok: bool, doomed: seq<Doomed<Handle>>)
    requires Core(s) && Waited(s) && CanAdvance(s, t)
    ensures Waited(Advanced(s, t, ok, doomed))
  {
    var pc, s' := s.threads[t], Advanced(s, t, ok, doomed);
    if pc.Opened? && Welcome(s, pc) {
      InstallWaited(s, t);
    } else if pc.DisposeDrain? {
      assert ThreadOk(s, pc);
    } else {
      assert NoNewMarker(s, s', t) by { StillNoMarker(s, t, ok, doomed); }
      WaitedKept(s, s', t);
    }
  }

  lemma StillNoMarker(s: State, t: Tid, ok: bool, doomed: seq<Doomed<Handle>>)
    requires CanAdvance(s, t) && WaitedOut(s, s.threads[t]) && !Welcome(s, s.threads[t]) && !s.threads[t].DisposeDrain?
    ensures NoNewMarker(s, Advanced(s, t, ok, doomed), t)
  {
    var pc := s.threads[t];
    if pc.Called? || pc.Lookup? || pc.WantOpen? {
      EarlySteps(s, t);
    } else if pc.WaitCheck? || pc.Blocked? {
      WaitSteps(s, t);
    } else if PastWait(pc) {
      OpenSteps(s, t);
    } else if pc.Closing? || pc.Discarding? {
      CloseSteps(s, t);
      if pc.Closing? { SignalSteps(s, t); }
    } else {
      RestSteps(s, t);
    }
  }

  /** Settings that differ materially from those in force differ from none that agree with them. */
  lemma ReconfigureWaited(s: State, a: Action)
    requires Waited(s) && a.Reconfigure? && Enabled(s, a) && NoRestore(s, a)
    ensures Waited(Reconfigured(s, a.cfg, a.doomed))
  {
    var s' := Reconfigured(s, a.cfg, a.doomed);
    forall u | 0 <= u < |s'.threads| ensures WaitedOut(s', s'.threads[u]) {
      if u < |s.threads| { assert WaitedOut(s, s.threads[u]); }
    }
  }

  lemma StepKeepsWaited(s: State, a: Action)
    requires Core(s) && Waited(s) && Enabled(s, a) && NoRestore(s, a)
    ensures Waited(Apply(s, a))
  {
    match a
    case Advance(t, ok, doomed) => AdvanceWaited(s, t, ok, doomed);
    case Reconfigure(_, _) => ReconfigureWaited(s, a);
    case _ => WaitedKept(s, Apply(s, a), |s.threads|);
  }

  lemma {:induction false} RunsKeepWaited(r: Run)
    requires Replay(r).Some? && NeverRestores(r)
    ensures Waited(Replay(r).value)
  {
    if r.Then? {
      RunsKeepWaited(r.prefix);
      RunsKeepCore(r.prefix);
      StepKeepsWaited(Replay(r.prefix).value, r.action);
    }
  }

  /** A run that never restores settings installs cleanly, whatever the schedule. */
  lemma {:induction false} NeverRestoresIsClean(r: Run)
    requires Replay(r).Some? && NeverRestores(r)
    ensures CleanInstalls(r)
  {
    if r.Then? {
      NeverRestoresIsClean(r.prefix);
      RunsKeepWaited(r.prefix);
      assert r.action.Advance? && r.action.t < |Replay(r.prefix).value.threads| ==>
        WaitedOut(Replay(r.prefix).value, Replay(r.prefix).value.threads[r.action.t]);
    }
  }

  // Files

  /** Every open that would be installed has rows that are up to date. */
  ghost predicate OpensFresh(s: State) {
    forall t :: 0 <= t < |s.threads| && Welcome(s, s.threads[t]) ==> UpToDate(s, s.threads[t].eng)
  }

  /** Nobody opens a file for the table while an engine that still accepts writes has it. */
  lemma NoOpenBesideWriter(s: State, h: Handle, t: Tid)
    requires Core(s) && Ordered(s) && Waited(s) && h < |s.handles| && Live(s, h, s.handles[h].path.key)
    requires t < |s.threads| && Welcome(s, s.threads[t]) && s.threads[t].eng < |s.handles|
    ensures s.handles[s.threads[t].eng].path != s.handles[h].path
  {
    LivePlace(s, s.handles[h].path.key, h);
    assert ThreadOk(s, s.threads[t]) && WaitedOut(s, s.threads[t]);
  }

  /** A step that stores no row and opens nothing, but for thread `t`. */
  ghost predicate StoresNothing(s: State, s': State, t: Tid) {
    && s'.log == s.log && (s.closed ==> s'.closed) && s'.cfg == s.cfg
    && forall u :: 0 <= u < |s'.threads| && u != t && s'.threads[u].Opened? ==>
         u < |s.threads| && s'.threads[u] == s.threads[u]
  }

  lemma StaysFresh(s: State, s': State, t: Tid)
    requires ThreadsOk(s) && OpensFresh(s) && KeepsRows(s, s') && StoresNothing(s, s', t)
    requires t < |s'.threads| && s'.threads[t].Opened? ==> UpToDate(s', s'.threads[t].eng)
    ensures OpensFresh(s')
  {
    forall u | 0 <= u < |s'.threads| && Welcome(s', s'.threads[u]) ensures UpToDate(s', s'.threads[u].eng) {
      if u != t { assert ThreadOk(s, s.threads[u]) && UpToDate(s, s.threads[u].eng); }
    }
  }

  lemma DecidedStoresNothing(s: State, t: Tid, ok: bool, doomed: seq<Doomed<Handle>>)
    requires t < |s.threads| && s.threads[t].Opened?
    ensures var s' := Advanced(s, t, ok, doomed); StoresNothing(s, s', t) && !s'.threads[t].Opened?
  {
    OpenedAdvances(s, t, ok, doomed);
    if Welcome(s, s.threads[t]) {
      assert StoresNothing(s, Install(s, t), t);
    } else {
      assert StoresNothing(s, Discard(s, t), t);
    }
  }

  lemma CloseStoresNothing(s: State, t: Tid)
    requires t < |s.threads|
    ensures s.threads[t].Discarding? ==> StoresNothing(s, At(CloseEngine(s, s.threads[t].eng), t, Done), t)
    ensures s.threads[t].Closing? && s.threads[t].at < |s.threads[t].doomed| ==>
      StoresNothing(s, CloseStep(s, t), t) && !CloseStep(s, t).threads[t].Opened?
  {
  }

  lemma OpenedFresh(s: State, t: Tid)
    requires ThreadsOk(s) && FilesFollow(s) && OpensFresh(s) && t < |s.threads| && s.threads[t].Opening?
    ensures OpensFresh(OpenSucceeds(s, t))
  {
    StaysFresh(s, OpenSucceeds(s, t), t);
  }

  lemma AdvanceFresh(s: State, a: Action)
    requires ThreadsOk(s) && FilesFollow(s) && OpensFresh(s) && Enabled(s, a) && a.Advance?
    ensures OpensFresh(Apply(s, a))
  {
    StepKeepsRows(s, a);
    if Opens(s, a) {
      OpenedFresh(s, a.t);
    } else {
      if Moves(s, a.t) {
        MovesUntouched(s, a.t, a.doomed);
      } else if s.threads[a.t].Opened? {
        DecidedStoresNothing(s, a.t, a.ok, a.doomed);
      } else {
        CloseStoresNothing(s, a.t);
      }
      StaysFresh(s, Apply(s, a), a.t);
    }
  }

  lemma WriteFresh(s: State, h: Handle, row: string)
    requires Core(s) && Ordered(s) && Waited(s) && OpensFresh(s) && Enabled(s, Write(h, row))
    ensures OpensFresh(Written(s, h, row))
  {
    var s' := Written(s, h, row);
    forall t | 0 <= t < |s'.threads| && Welcome(s', s'.threads[t]) ensures UpToDate(s', s'.threads[t].eng) {
      assert Welcome(s, s.threads[t]) && UpToDate(s, s.threads[t].eng);
      NoOpenBesideWriter(s, h, t);
      ElsewhereUpToDate(s, h, row, s.threads[t].eng);
    }
  }

  lemma ReconfigureFresh(s: State, a: Action)
    requires OpensFresh(s) && a.Reconfigure? && Enabled(s, a) && NoRestore(s, a)
    ensures OpensFresh(Reconfigured(s, a.cfg, a.doomed))
  {
    var s' := Reconfigured(s, a.cfg, a.doomed);
    forall t | 0 <= t < |s'.threads| && Welcome(s', s'.threads[t]) ensures UpToDate(s', s'.threads[t].eng) {
      assert Welcome(s, s.threads[t]) && UpToDate(s, s.threads[t].eng);
    }
  }

  lemma StepKeepsFresh(s: State, a: Action)
    requires Core(s) && Ordered(s) && Waited(s) && FilesFollow(s) && OpensFresh(s) && Enabled(s, a) && NoRestore(s, a)
    ensures OpensFresh(Apply(s, a))
  {
    match a
    case Write(h, row) => WriteFresh(s, h, row);
    case Advance(_, _, _) => AdvanceFresh(s, a);
    case Reconfigure(_, _) => ReconfigureFresh(s, a);
    case _ => StaysFresh(s, Apply(s, a), |s.threads|);
  }

  ghost predicate CleanDiscards(r: Run) {
    r.Then? ==> CleanDiscards(r.prefix) && (Replay(r.prefix).Some? ==> CleanDiscard(Replay(r.prefix).value, r.action))
  }

  /** The engines such a run installs are up to date without further ado. */
  lemma {:induction false} NeverRestoresIsFresh(r: Run)
    requires Replay(r).Some? && NeverRestores(r) && CleanDiscards(r)
    ensures FreshDecisions(r) && AlwaysOk(r) && OpensFresh(Replay(r).value)
  {
    NeverRestoresIsClean(r);
    if r.Then? {
      var s := Replay(r.prefix).value;
      NeverRestoresIsFresh(r.prefix);
      RunsKeepOrdered(r.prefix);
      RunsKeepWaited(r.prefix);
      StepKeepsFresh(s, r.action);
    }
    FilesFollowLogExactly(r);
  }

  /** The files followed the log all along the run. */
  ghost predicate AlwaysFollow(r: Run) {
    && (Replay(r).Some? ==> FilesFollow(Replay(r).value))
    && (r.Then? ==> AlwaysFollow(r.prefix))
  }

  lemma {:induction false} OkFollows(r: Run)
    requires AlwaysOk(r)
    ensures AlwaysFollow(r)
  {
    if r.Then? { OkFollows(r.prefix); }
  }

  /** In every run that never restores settings, each file is all along the last 256 rows of
      the log of all successful durable writes to it, if and only if every close of a discarded
      open finds its engine up to date. */
  lemma {:induction false} DiscardsDecideFiles(r: Run)
    requires Replay(r).Some? && NeverRestores(r)
    ensures AlwaysFollow(r) <==> CleanDiscards(r)
  {
    if CleanDiscards(r) {
      NeverRestoresIsFresh(r);
      OkFollows(r);
    } else {
      DiscardsDecideFiles(r.prefix);
      if CleanDiscards(r.prefix) {
        NeverRestoresIsFresh(r.prefix);
        RunsKeepCore(r.prefix);
        DiscardFollowsExactly(Replay(r.prefix).value, r.action.t);
      }
    }
  }
}
