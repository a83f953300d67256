/** Engines and settings: an engine in the table is always one of the settings in force, whatever
    reconfigures overlap the calls that open it. */
module LifecycleSettings {
  import opened EngineTable
  import opened Lifecycle
  import opened LifecycleCalls
  import opened LifecycleCore
  import opened LifecycleFiles
  import opened LifecycleOrder
  import opened LifecycleProgress
  import opened LifecycleReads
  import opened Wrappers

  ghost predicate OnFile(s: State, h: Handle, dir: string, key: string) {
    h < |s.handles| && s.handles[h].path == Path(dir, key)
  }

  /** Each engine in the table is on the file that the settings in force give its scope. */
  ghost predicate TableCurrent(s: State) {
    forall k :: k in s.tab.engines ==> OnFile(s, s.tab.engines[k], s.cfg.dataDir, k)
  }

  /** Each engine opened and not yet decided on is on the file of the settings it was opened with. */
  ghost predicate OpensKnown(s: State) {
    forall t :: 0 <= t < |s.threads| && s.threads[t].Opened? ==>
      OnFile(s, s.threads[t].eng, s.threads[t].cfg.dataDir, s.threads[t].key)
  }

  // What a step does to the table

  /** The settings stay, and so do the engines in the table, unless it is emptied. */
  ghost predicate EnginesStay(s: State, s': State) {
    s'.cfg == s.cfg && (s'.tab.engines == s.tab.engines || s'.tab.engines == map[])
  }

  lemma EarlyStay(s: State, t: Tid)
    requires t < |s.threads|
    ensures s.threads[t].Called? ==> EnginesStay(s, Enter(s, t))
    ensures s.threads[t].Lookup? ==> EnginesStay(s, LookUp(s, t))
    ensures s.threads[t].WantOpen? ==> EnginesStay(s, AcquireOpenMu(s, t))
    ensures s.threads[t].WaitCheck? ==> EnginesStay(s, CheckPendingClose(s, t))
    ensures s.threads[t].Blocked? ==> EnginesStay(s, Wake(s, t))
    ensures s.threads[t].Recheck? ==> EnginesStay(s, RecheckTable(s, t))
  {
  }

  lemma OpenStay(s: State, t: Tid)
    requires t < |s.threads|
    ensures s.threads[t].Opening? ==> EnginesStay(s, OpenSucceeds(s, t)) && EnginesStay(s, OpenFails(s, t))
    ensures s.threads[t].Opened? ==> EnginesStay(s, Discard(s, t))
    ensures s.threads[t].Discarding? ==> EnginesStay(s, At(CloseEngine(s, s.threads[t].eng), t, Done))
  {
  }

  lemma CloseStay(s: State, t: Tid)
    requires t < |s.threads| && s.threads[t].Closing?
    ensures EnginesStay(s, SignalStep(s, t))
    ensures s.threads[t].at < |s.threads[t].doomed| ==> EnginesStay(s, CloseStep(s, t))
  {
  }

  lemma RestStay(s: State, t: Tid, doomed: seq<Doomed<Handle>>)
    requires t < |s.threads|
    ensures !s.threads[t].Closing? ==> EnginesStay(s, PrewarmStep(s, t))
    ensures EnginesStay(s, DrainForDispose(s, t, doomed))
    ensures EnginesStay(s, At(s, t, DisposeDrain).(closed := true)) && EnginesStay(s, At(s, t, Disposed))
  {
  }

  lemma OtherStay(s: State, t: Tid, ok: bool, doomed: seq<Doomed<Handle>>)
    requires CanAdvance(s, t) && !Welcome(s, s.threads[t])
    ensures EnginesStay(s, Advanced(s, t, ok, doomed))
  {
    var pc := s.threads[t];
    if pc.Called? || pc.Lookup? || pc.WantOpen? || pc.WaitCheck? || pc.Blocked? || pc.Recheck? {
      EarlyStay(s, t);
    } else if pc.Opening? || pc.Opened? || pc.Discarding? {
      OpenStay(s, t);
    } else if pc.Closing? {
      CloseStay(s, t);
    } else {
      RestStay(s, t, doomed);
    }
  }

  lemma InstalledCurrent(s: State, t: Tid, tab: Table<Handle>, doomed: seq<Doomed<Handle>>)
    requires t < |s.threads| && TableCurrent(s) && OpensKnown(s) && Welcome(s, s.threads[t])
    requires InstallOutcome(s, t, tab, doomed)
    ensures TableCurrent(Installed(s, t, tab, doomed))
    ensures var s', key := Installed(s, t, tab, doomed), s.threads[t].key;
      s'.threads[t] == Got(s.threads[t].eng) && key in s'.tab.engines && s'.tab.engines[key] == s.threads[t].eng
  {
  }

  lemma InstallCurrent(s: State, t: Tid)
    requires CanInstall(s, t) && TableCurrent(s) && OpensKnown(s) && Welcome(s, s.threads[t])
    ensures TableCurrent(Install(s, t))
    ensures var s', key := Install(s, t), s.threads[t].key;
      s'.threads[t] == Got(s.threads[t].eng) && key in s'.tab.engines && s'.tab.engines[key] == s.threads[t].eng
  {
    var inserted := Insert(s.tab, s.threads[t].key, s.threads[t].eng);
    InstallOutcomeHolds(s, t, inserted);
    InstalledCurrent(s, t, Shrunk(inserted), Evicted(inserted));
  }

  lemma StepKeepsTable(s: State, a: Action)
    requires Core(s) && TableCurrent(s) && OpensKnown(s) && Enabled(s, a)
    ensures TableCurrent(Apply(s, a))
  {
    StepKeepsPaths(s, a);
    if a.Advance? {
      OpenedAdvances(s, a.t, a.ok, a.doomed);
      if Welcome(s, s.threads[a.t]) {
        InstallCurrent(s, a.t);
      } else {
        OtherStay(s, a.t, a.ok, a.doomed);
      }
    }
  }

  // What a step does to the opens

  lemma DecisionsOpenNone(s: State, t: Tid, u: Tid)
    requires t < |s.threads|
    ensures s.threads[t].Opened? && u < |Install(s, t).threads| && Install(s, t).threads[u].Opened? ==>
      u < |s.threads| && u != t
    ensures s.threads[t].Opened? && u < |Discard(s, t).threads| && Discard(s, t).threads[u].Opened? ==>
      u < |s.threads| && u != t
  {
  }

  lemma ClosesOpenNone(s: State, t: Tid)
    requires t < |s.threads|
    ensures s.threads[t].Discarding? ==> !At(CloseEngine(s, s.threads[t].eng), t, Done).threads[t].Opened?
    ensures s.threads[t].Closing? && s.threads[t].at < |s.threads[t].doomed| ==> !CloseStep(s, t).threads[t].Opened?
  {
  }

  lemma DecisionAdvanceOpens(s: State, t: Tid, ok: bool, doomed: seq<Doomed<Handle>>, u: Tid)
    requires t < |s.threads| && s.threads[t].Opened? && u < |Advanced(s, t, ok, doomed).threads|
    ensures Advanced(s, t, ok, doomed).threads[u].Opened? ==> u < |s.threads| && u != t
  {
    OpenedAdvances(s, t, ok, doomed);
    DecisionsOpenNone(s, t, u);
  }

  lemma OutcomeOfOpensOnly(s: State, t: Tid, ok: bool, doomed: seq<Doomed<Handle>>)
    requires t < |s.threads| && !(s.threads[t].Opening? && ok)
    ensures Advanced(s, t, ok, doomed) == Advanced(s, t, false, doomed)
  {
  }

  lemma MoveOpens(s: State, s': State, t: Tid, u: Tid)
    requires Untouched(s, s', t) && u < |s'.threads| && s'.threads[u].Opened?
    ensures u < |s.threads| && u != t
  {
  }

  lemma CloseOpens(s: State, t: Tid, ok: bool, doomed: seq<Doomed<Handle>>, u: Tid)
    requires t < |s.threads| && u < |Advanced(s, t, ok, doomed).threads|
    requires s.threads[t].Discarding? || (s.threads[t].Closing? && s.threads[t].at < |s.threads[t].doomed|)
    ensures Advanced(s, t, ok, doomed).threads[u].Opened? ==> u < |s.threads| && u != t
  {
    ClosesOpenNone(s, t);
  }

  lemma AdvanceOpens(s: State, t: Tid, ok: bool, doomed: seq<Doomed<Handle>>, u: Tid)
    requires CanAdvance(s, t) && !(s.threads[t].Opening? && ok) && u < |Advanced(s, t, ok, doomed).threads|
    requires Advanced(s, t, ok, doomed).threads[u].Opened?
    ensures u < |s.threads| && u != t
  {
    if Moves(s, t) {
      OutcomeOfOpensOnly(s, t, ok, doomed);
      MovesUntouched(s, t, doomed);
      MoveOpens(s, Advanced(s, t, ok, doomed), t, u);
    } else if s.threads[t].Opened? {
      DecisionAdvanceOpens(s, t, ok, doomed, u);
    } else {
      CloseOpens(s, t, ok, doomed, u);
    }
  }

  lemma OpenedBy(s: State, a: Action, t: Tid)
    requires Enabled(s, a) && t < |Apply(s, a).threads| && Apply(s, a).threads[t].Opened?
    ensures (t < |s.threads| && s.threads[t] == Apply(s, a).threads[t]) || (Opens(s, a) && t == a.t)
  {
    StepIsolated(s, a);
    if a.Advance? && !Opens(s, a) { AdvanceOpens(s, a.t, a.ok, a.doomed, t); }
  }

  lemma StepKeepsOpens(s: State, a: Action)
    requires Core(s) && OpensKnown(s) && Enabled(s, a)
    ensures OpensKnown(Apply(s, a))
  {
    StepKeepsPaths(s, a);
    var s' := Apply(s, a);
    forall t | 0 <= t < |s'.threads| && s'.threads[t].Opened?
      ensures OnFile(s', s'.threads[t].eng, s'.threads[t].cfg.dataDir, s'.threads[t].key)
    {
      OpenedBy(s, a, t);
    }
  }

  /** In every run the engines in the table are on the files that the settings in force give
      their scopes: an open that a change of the data directory overtook is never installed. */
  lemma {:induction false} TableIsCurrent(r: Run)
    requires Replay(r).Some?
    ensures TableCurrent(Replay(r).value) && OpensKnown(Replay(r).value)
  {
    if r.Then? {
      TableIsCurrent(r.prefix);
      RunsKeepCore(r.prefix);
      StepKeepsTable(Replay(r.prefix).value, r.action);
      StepKeepsOpens(Replay(r.prefix).value, r.action);
    }
  }

  /** Engine `h` serves `key`: it is open, in the table, and on the file of the settings in force. */
  ghost predicate InForce(s: State, h: Handle, key: string) {
    && key in s.tab.engines && s.tab.engines[key] == h
    && OnFile(s, h, s.cfg.dataDir, key) && !s.handles[h].closed
  }

  lemma HitGets(s: State, t: Tid, key: string)
    requires Core(s) && TableCurrent(s) && t < |s.threads| && key in s.tab.engines
    ensures s.threads[t] == Lookup(key) ==>
      LookUp(s, t).threads[t].Got? && InForce(LookUp(s, t), LookUp(s, t).threads[t].eng, key)
    ensures s.threads[t].Recheck? && s.threads[t].key == key ==>
      RecheckTable(s, t).threads[t].Got? && InForce(RecheckTable(s, t), RecheckTable(s, t).threads[t].eng, key)
  {
    assert TableEntriesOk(s);
  }

  lemma EntryInForce(s: State, key: string)
    requires TableEntriesOk(s) && TableCurrent(s) && key in s.tab.engines
    ensures InForce(s, s.tab.engines[key], key)
  {
  }

  lemma InstallGets(s: State, t: Tid)
    requires CanInstall(s, t) && TableCurrent(s) && OpensKnown(s) && Welcome(s, s.threads[t])
    ensures Install(s, t).threads[t].Got?
    ensures InForce(Install(s, t), Install(s, t).threads[t].eng, s.threads[t].key)
  {
    InstallCurrent(s, t);
    InstallStep(s, t);
    EntryInForce(Install(s, t), s.threads[t].key);
  }

  lemma EarlyGets(s: State, t: Tid)
    requires t < |s.threads|
    ensures s.threads[t].Called? ==> !Enter(s, t).threads[t].Got?
    ensures s.threads[t].Lookup? && LookUp(s, t).threads[t].Got? ==> s.threads[t].key in s.tab.engines
    ensures s.threads[t].WantOpen? ==> !AcquireOpenMu(s, t).threads[t].Got?
    ensures s.threads[t].WaitCheck? ==> !CheckPendingClose(s, t).threads[t].Got?
    ensures s.threads[t].Blocked? ==> !Wake(s, t).threads[t].Got?
    ensures s.threads[t].Recheck? && RecheckTable(s, t).threads[t].Got? ==> s.threads[t].key in s.tab.engines
  {
  }

  lemma LateGets(s: State, t: Tid)
    requires t < |s.threads|
    ensures s.threads[t].Opening? ==> !OpenSucceeds(s, t).threads[t].Got? && !OpenFails(s, t).threads[t].Got?
    ensures s.threads[t].Opened? ==> !Discard(s, t).threads[t].Got?
  {
  }

  lemma NothingElseGets(s: State, t: Tid, ok: bool, doomed: seq<Doomed<Handle>>, key: string)
    requires t < |s.threads| && Serves(s, s.threads[t], key) && !Ended(s.threads[t]) && !Welcome(s, s.threads[t])
    requires t < |Advanced(s, t, ok, doomed).threads| && Advanced(s, t, ok, doomed).threads[t].Got?
    ensures (s.threads[t] == Lookup(key) || (s.threads[t].Recheck? && s.threads[t].key == key)) && key in s.tab.engines
  {
    if s.threads[t].Opening? || s.threads[t].Opened? {
      OpenedAdvances(s, t, ok, doomed);
      LateGets(s, t);
    } else {
      EarlyGets(s, t);
    }
  }

  /** The engine a call ends with is, at that moment, open, in the table under the scope of the
      call, and on the file that the settings in force give that scope. */
  lemma CallsGetCurrent(r: Run, a: Action, t: Tid, key: string)
    requires Replay(Then(r, a)).Some? && CalledFor(r, t) == Some(key)
    ensures t < |Replay(r).value.threads| && t < |Replay(Then(r, a)).value.threads|
    ensures var pc := Replay(Then(r, a)).value.threads[t];
      !Replay(r).value.threads[t].Got? && pc.Got? ==> InForce(Replay(Then(r, a)).value, pc.eng, key)
  {
    var s := Replay(r).value;
    CallsServeTheirScope(r, t, key);
    RunsKeepCore(r);
    TableIsCurrent(r);
    StepIsolated(s, a);
    var s' := Apply(s, a);
    if !s.threads[t].Got? && s'.threads[t].Got? {
      assert a.Advance? && a.t == t;
      if Welcome(s, s.threads[t]) {
        OpenedAdvances(s, t, a.ok, a.doomed);
        InstallGets(s, t);
      } else {
        NothingElseGets(s, t, a.ok, a.doomed, key);
        HitGets(s, t, key);
      }
    }
  }
}
