/** Runs in which no material reconfigure and no shutdown overlaps an open in flight discard
    no open, so their files always follow the log. */
module LifecycleQuiet {
  import opened Configs
  import opened EngineTable
  import opened Lifecycle
  import opened LifecycleCore
  import opened LifecycleFiles
  import opened LifecycleRestore

  /** ForScope has read the settings it will open with. */
  predicate HasSnapshot(pc: Pc) {
    pc.WantOpen? || pc.WaitCheck? || pc.Blocked? || PastWait(pc)
  }

  /** No material reconfigure and no shutdown overlaps an open in flight. */
  ghost predicate Quiet(s: State, a: Action) {
    && (a.Reconfigure? && MaterialChange(s.cfg, a.cfg) ==>
          forall t :: 0 <= t < |s.threads| ==> !HasSnapshot(s.threads[t]))
    && (a.Advance? && a.t < |s.threads| && s.threads[a.t].DisposeCalled? ==>
          forall t :: 0 <= t < |s.threads| ==> !HasSnapshot(s.threads[t]) && !s.threads[t].Lookup?)
  }

  ghost predicate QuietRun(r: Run) {
    r.Then? ==> QuietRun(r.prefix) && (Replay(r.prefix).Some? ==> Quiet(Replay(r.prefix).value, r.action))
  }

  /** Opens in flight still agree with the store, so none will be discarded. */
  ghost predicate Current(s: State) {
    && (forall t :: 0 <= t < |s.threads| && HasSnapshot(s.threads[t]) ==>
          !s.closed && !MaterialChange(s.threads[t].cfg, s.cfg))
    && (forall t :: 0 <= t < |s.threads| && s.threads[t].Lookup? ==> !s.closed)
    && (forall t :: 0 <= t < |s.threads| ==> !s.threads[t].Discarding?)
  }

  lemma QuietNeverRestores(s: State, a: Action)
    requires Current(s) && Quiet(s, a)
    ensures NoRestore(s, a)
  {
  }

  predicate InForScope(pc: Pc) { pc.Called? || pc.Lookup? || HasSnapshot(pc) }

  /** What ForScope's steps before the install section do to the snapshot they carry. */
  ghost predicate KeepsSnapshot(s: State, s': State, t: Tid) {
    && t < |s.threads| && t < |s'.threads| && s'.closed == s.closed
    && (HasSnapshot(s'.threads[t]) ==>
          if HasSnapshot(s.threads[t]) then s'.threads[t].cfg == s.threads[t].cfg
          else s.threads[t].Lookup? && s'.threads[t].cfg == s.cfg)
    && (s'.threads[t].Lookup? ==> !s.closed)
  }

  lemma EarlySteps(s: State, t: Tid)
    requires t < |s.threads| && (s.threads[t].Called? || s.threads[t].Lookup? || s.threads[t].WantOpen?)
    ensures var s' := Advanced(s, t, false, []); Untouched(s, s', t) && KeepsSnapshot(s, s', t)
  {
    match s.threads[t]
    case Called(_) => assert Untouched(s, Enter(s, t), t) && KeepsSnapshot(s, Enter(s, t), t);
    case Lookup(_) => assert Untouched(s, LookUp(s, t), t) && KeepsSnapshot(s, LookUp(s, t), t);
    case WantOpen(_, _) => assert Untouched(s, AcquireOpenMu(s, t), t) && KeepsSnapshot(s, AcquireOpenMu(s, t), t);
  }

  lemma LockedSteps(s: State, t: Tid)
    requires t < |s.threads|
    requires var pc := s.threads[t]; pc.WaitCheck? || pc.Blocked? || pc.Recheck? || pc.Opening?
    ensures var s' := Advanced(s, t, false, []); Untouched(s, s', t) && KeepsSnapshot(s, s', t)
  {
    match s.threads[t]
    case WaitCheck(_, _, _) =>
      assert Untouched(s, CheckPendingClose(s, t), t) && KeepsSnapshot(s, CheckPendingClose(s, t), t);
    case Blocked(_, _, _) => assert Untouched(s, Wake(s, t), t) && KeepsSnapshot(s, Wake(s, t), t);
    case Recheck(_, _) => assert Untouched(s, RecheckTable(s, t), t) && KeepsSnapshot(s, RecheckTable(s, t), t);
    case Opening(_, _) => assert Untouched(s, OpenFails(s, t), t) && KeepsSnapshot(s, OpenFails(s, t), t);
  }

  /** The steps outside ForScope that touch no engine carry no snapshot. */
  ghost predicate NoSnapshot(s: State, s': State, t: Tid) {
    && t < |s.threads| && t < |s'.threads| && !InForScope(s'.threads[t])
    && (s'.closed == s.closed || s.threads[t].DisposeCalled?)
  }

  lemma DisposeSteps(s: State, t: Tid, doomed: seq<Doomed<Handle>>)
    requires t < |s.threads|
    requires var pc := s.threads[t]; pc.DisposeCalled? || pc.DisposeDrain? || pc.DisposeWait?
    ensures var s' := Advanced(s, t, false, doomed); Untouched(s, s', t) && NoSnapshot(s, s', t)
  {
    if s.threads[t].DisposeDrain? {
      assert Untouched(s, DrainForDispose(s, t, doomed), t) && NoSnapshot(s, DrainForDispose(s, t, doomed), t);
    }
  }

  lemma SignalSteps(s: State, t: Tid)
    requires t < |s.threads| && s.threads[t].Closing?
    ensures Untouched(s, SignalStep(s, t), t) && NoSnapshot(s, SignalStep(s, t), t)
  {
  }

  lemma PrewarmSteps(s: State, t: Tid)
    requires t < |s.threads|
    requires var pc := s.threads[t];
      pc.PrewarmCalled? || pc.PrewarmGate? || pc.PrewarmWant? || pc.PrewarmOpen? || pc.Leaving?
    ensures Untouched(s, PrewarmStep(s, t), t) && NoSnapshot(s, PrewarmStep(s, t), t)
  {
  }

  lemma RestSteps(s: State, t: Tid, doomed: seq<Doomed<Handle>>)
    requires CanAdvance(s, t) && !InForScope(s.threads[t]) && !s.threads[t].Discarding?
    requires s.threads[t].Closing? ==> s.threads[t].at >= |s.threads[t].doomed|
    ensures var s' := Advanced(s, t, false, doomed); Untouched(s, s', t) && NoSnapshot(s, s', t)
  {
    var pc := s.threads[t];
    if pc.Closing? {
      SignalSteps(s, t);
    } else if pc.DisposeCalled? || pc.DisposeDrain? || pc.DisposeWait? {
      DisposeSteps(s, t, doomed);
    } else {
      PrewarmSteps(s, t);
    }
  }

  /** A step that neither opens nor closes an engine. */
  lemma MovedCurrent(s: State, t: Tid, doomed: seq<Doomed<Handle>>)
    requires Current(s) && Moves(s, t) && Quiet(s, Advance(t, false, doomed))
    ensures Current(Advanced(s, t, false, doomed))
  {
    var pc := s.threads[t];
    if pc.Called? || pc.Lookup? || pc.WantOpen? {
      EarlySteps(s, t);
    } else if InForScope(pc) {
      LockedSteps(s, t);
    } else {
      RestSteps(s, t, doomed);
    }
  }

  lemma InstalledCurrent(s: State, t: Tid, tab: Table<Handle>, doomed: seq<Doomed<Handle>>)
    requires Current(s) && t < |s.threads| && s.threads[t].Opened?
    ensures Current(Installed(s, t, tab, doomed))
  {
  }

  lemma OpenCurrent(s: State, t: Tid)
    requires Current(s) && t < |s.threads| && s.threads[t].Opening?
    ensures Current(OpenSucceeds(s, t))
  {
  }

  lemma BatchCurrent(s: State, s': State, t: Tid, pc: Pc)
    requires Current(s) && t < |s.threads| && pc.Closing?
    requires s'.threads == s.threads[t := pc] && s'.cfg == s.cfg && s'.closed == s.closed
    ensures Current(s')
  {
  }

  lemma ClosingCurrent(s: State, t: Tid)
    requires Current(s) && t < |s.threads| && s.threads[t].Closing? && s.threads[t].at < |s.threads[t].doomed|
    ensures Current(CloseStep(s, t))
  {
    BatchCurrent(s, CloseStep(s, t), t, CloseStep(s, t).threads[t]);
  }

  lemma AdvanceCurrent(s: State, t: Tid, ok: bool, doomed: seq<Doomed<Handle>>)
    requires Current(s) && Enabled(s, Advance(t, ok, doomed)) && Quiet(s, Advance(t, ok, doomed))
    ensures Current(Advanced(s, t, ok, doomed))
  {
    var pc := s.threads[t];
    if pc.Opened? {
      var inserted := Insert(s.tab, pc.key, pc.eng);
      InstalledCurrent(s, t, Shrunk(inserted), Evicted(inserted));
    } else if pc.Opening? && ok {
      OpenCurrent(s, t);
    } else if pc.Closing? && pc.at < |pc.doomed| {
      ClosingCurrent(s, t);
    } else {
      MovedCurrent(s, t, doomed);
    }
  }

  lemma OtherCurrent(s: State, a: Action)
    requires Current(s) && Enabled(s, a) && Quiet(s, a) && !a.Advance?
    ensures Current(Apply(s, a))
  {
  }

  /** A quiet run discards no open. */
  lemma {:induction false} QuietRunsDiscardNothing(r: Run)
    requires Replay(r).Some? && QuietRun(r)
    ensures NeverRestores(r) && CleanDiscards(r) && Current(Replay(r).value)
  {
    if r.Then? {
      var s := Replay(r.prefix).value;
      QuietRunsDiscardNothing(r.prefix);
      QuietNeverRestores(s, r.action);
      match r.action
      case Advance(t, ok, doomed) => AdvanceCurrent(s, t, ok, doomed);
      case _ => OtherCurrent(s, r.action);
    }
  }

  /** In every quiet run each scope's file, and each engine in use, is exactly the last 256 rows
      of the log of all successful durable writes to it. */
  lemma FilesFollowLog(r: Run)
    requires Replay(r).Some? && QuietRun(r)
    ensures AlwaysOk(r)
  {
    QuietRunsDiscardNothing(r);
    NeverRestoresIsFresh(r);
  }
}
