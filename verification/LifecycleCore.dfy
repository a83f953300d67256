/** What every step of every thread keeps, with no assumption on the schedule. */
module LifecycleCore {
  import opened Configs
  import opened EngineTable
  import opened Lifecycle
  import opened Wrappers

  predicate HoldsOpenMu(pc: Pc) {
    pc.WaitCheck? || pc.Blocked? || pc.Recheck? || pc.Opening? || pc.Opened? || pc.PrewarmOpen?
  }

  /** The thread has done closeWg.Add(1) and not yet closeWg.Done(). */
  predicate HoldsWg(pc: Pc) {
    (pc.Closing? && pc.detached) || pc.Leaving? || pc.PrewarmWant? || pc.PrewarmOpen?
  }

  function Holders(threads: seq<Pc>): nat {
    if threads == [] then 0
    else Holders(threads[..|threads| - 1]) + if HoldsWg(threads[|threads| - 1]) then 1 else 0
  }

  lemma {:induction false} HoldersUpdate(threads: seq<Pc>, t: Tid, pc: Pc)
    requires t < |threads|
    ensures Holders(threads[t := pc])
         == Holders(threads) - (if HoldsWg(threads[t]) then 1 else 0) + (if HoldsWg(pc) then 1 else 0)
    decreases |threads|
  {
    var n := |threads| - 1;
    if t == n {
      assert threads[t := pc][..n] == threads[..n];
    } else {
      HoldersUpdate(threads[..n], t, pc);
      assert threads[t := pc][..n] == threads[..n][t := pc];
    }
  }

  lemma HoldersAppend(threads: seq<Pc>, pc: Pc)
    ensures Holders(threads + [pc]) == Holders(threads) + if HoldsWg(pc) then 1 else 0
  {
    assert (threads + [pc])[..|threads|] == threads;
  }

  lemma {:induction false} HolderCounts(threads: seq<Pc>)
    ensures Holders(threads) == 0 <==> forall t :: 0 <= t < |threads| ==> !HoldsWg(threads[t])
    decreases |threads|
  {
    if threads != [] {
      var init := threads[..|threads| - 1];
      HolderCounts(init);
      assert forall t :: 0 <= t < |init| ==> init[t] == threads[t];
    }
  }

  ghost predicate Is(s: State, h: Handle, key: string) {
    h < |s.handles| && s.handles[h].path.key == key
  }

  ghost predicate TableEntriesOk(s: State) {
    forall k :: k in s.tab.engines ==>
      Is(s, s.tab.engines[k], k) && s.tab.engines[k] in s.returned && !s.handles[s.tab.engines[k]].closed
  }

  /** Engine `h` was taken out of the table and this batch has still to close it. */
  ghost predicate Pending(pc: Pc, h: Handle) {
    pc.Closing? && exists i :: pc.at <= i < |pc.doomed| && pc.doomed[i].eng == h
  }

  ghost predicate Accounted(s: State, h: Handle) {
    || (exists k :: k in s.tab.engines && s.tab.engines[k] == h)
    || (exists t :: 0 <= t < |s.threads| && Pending(s.threads[t], h))
  }

  ghost predicate BatchOk(s: State, pc: Pc)
    requires pc.Closing?
  {
    && pc.at <= |pc.doomed| && pc.doomed != [] && NoDupKeys(pc.doomed)
    && (forall i :: pc.at <= i < |pc.doomed| ==>
          Is(s, pc.doomed[i].eng, pc.doomed[i].key) && pc.doomed[i].eng in s.returned)
    && (forall i, k :: pc.at <= i < |pc.doomed| && k in s.tab.engines ==> s.tab.engines[k] != pc.doomed[i].eng)
  }

  predicate AfterDrain(pc: Pc) { (pc.Closing? && !pc.detached) || pc.DisposeWait? || pc.Disposed? }

  ghost predicate ThreadOk(s: State, pc: Pc) {
    && (pc.Opening? || pc.Opened? ==> pc.key !in s.tab.engines)
    && (pc.Opened? ==>
          pc.eng < |s.handles| && pc.eng !in s.returned &&
          s.handles[pc.eng].path == Path(pc.cfg.dataDir, pc.key) && !s.handles[pc.eng].closed)
    && (pc.Discarding? ==> pc.eng < |s.handles| && pc.eng !in s.returned)
    && (pc.Got? ==> pc.eng in s.returned)
    && (pc.Closing? ==> BatchOk(s, pc))
    && (pc.DisposeDrain? || AfterDrain(pc) ==> s.closed)
    && (AfterDrain(pc) ==> s.tab == Empty())
    && (pc.Disposed? ==> s.wg == 0)
  }

  ghost predicate ThreadsOk(s: State) {
    && (forall h :: h in s.returned ==> h < |s.handles|)
    && (forall t :: 0 <= t < |s.threads| ==> ThreadOk(s, s.threads[t]))
    && (forall t, u :: 0 <= t < |s.threads| && 0 <= u < |s.threads| && s.threads[t].Opened? && s.threads[u].Discarding?
          ==> s.threads[t].eng != s.threads[u].eng)
  }

  ghost predicate OpenMuOk(s: State) {
    && (forall t :: 0 <= t < |s.threads| && HoldsOpenMu(s.threads[t]) ==> s.openMu == Some(t))
    && (s.openMu.Some? ==> s.openMu.value < |s.threads| && HoldsOpenMu(s.threads[s.openMu.value]))
  }

  ghost predicate Core(s: State) {
    && TableOk(s.tab) && |s.tab.order| <= MAX_ENGINES
    && OpenMuOk(s)
    && s.wg == Holders(s.threads)
    && TableEntriesOk(s)
    && ThreadsOk(s)
    && AllAccounted(s)
  }

  ghost predicate AllAccounted(s: State) {
    forall h :: h in s.returned && h < |s.handles| && !s.handles[h].closed ==> Accounted(s, h)
  }

  lemma CoreInit(cfg: Config)
    ensures Core(Init(cfg))
  {
  }

  /** What a step must keep for the other threads: engines stay where they are, no
      unreturned engine changes, and only unreturned engines enter the table. */
  ghost predicate Frame(s: State, s': State) {
    && |s.handles| <= |s'.handles|
    && (forall h :: 0 <= h < |s.handles| ==> s'.handles[h].path == s.handles[h].path)
    && s.returned <= s'.returned
    && (forall k :: k in s'.tab.engines ==>
          (k in s.tab.engines && s'.tab.engines[k] == s.tab.engines[k]) || s'.tab.engines[k] !in s.returned)
    && (s.closed ==> s'.closed && (s.tab == Empty() ==> s'.tab == Empty() && (s.wg == 0 ==> s'.wg == 0)))
  }

  lemma ThreadKept(s: State, s': State, pc: Pc)
    requires ThreadOk(s, pc) && Frame(s, s')
    requires pc.Opened? ==>
      pc.eng < |s.handles| && pc.eng !in s'.returned && s'.handles[pc.eng].closed == s.handles[pc.eng].closed
    requires pc.Discarding? ==> pc.eng !in s'.returned
    requires pc.Opening? || pc.Opened? ==> pc.key !in s'.tab.engines
    ensures ThreadOk(s', pc)
  {
  }

  lemma AccountKept(s: State, s': State, h: Handle)
    requires Accounted(s, h)
    requires forall k :: k in s.tab.engines && s.tab.engines[k] == h ==> Accounted(s', h)
    requires |s.threads| <= |s'.threads|
    requires forall u :: 0 <= u < |s.threads| && Pending(s.threads[u], h) ==> Pending(s'.threads[u], h)
    ensures Accounted(s', h)
  {
    if u :| 0 <= u < |s.threads| && Pending(s.threads[u], h) {
      assert Pending(s'.threads[u], h);
    }
  }

  /** All threads but `t` are where they were, and a step of `t` left their engines alone. */
  ghost predicate OthersKept(s: State, s': State, t: Tid) {
    && |s.threads| <= |s'.threads| <= |s.threads| + 1
    && (forall u :: 0 <= u < |s.threads| && u != t ==> s'.threads[u] == s.threads[u])
    && (forall u :: 0 <= u < |s.threads| && u != t && (s.threads[u].Opening? || s.threads[u].Opened?) ==>
          s.threads[u].key !in s'.tab.engines)
    && (forall u :: 0 <= u < |s.threads| && u != t && s.threads[u].Opened? && s.threads[u].eng < |s.handles| ==>
          s.threads[u].eng < |s'.handles| && s.threads[u].eng !in s'.returned &&
          s'.handles[s.threads[u].eng].closed == s.handles[s.threads[u].eng].closed)
    && (forall u :: 0 <= u < |s.threads| && u != t && s.threads[u].Discarding? ==> s.threads[u].eng !in s'.returned)
  }

  lemma ThreadsKept(s: State, s': State, t: Tid)
    requires ThreadsOk(s) && Frame(s, s') && OthersKept(s, s', t)
    requires forall h :: h in s'.returned ==> h < |s'.handles|
    requires t < |s'.threads| ==> ThreadOk(s', s'.threads[t])
    requires |s.threads| < |s'.threads| ==> ThreadOk(s', s'.threads[|s.threads|])
    requires forall u, v :: 0 <= u < |s'.threads| && 0 <= v < |s'.threads| ==>
      (u == t || u == |s.threads| || v == t || v == |s.threads|) ==>
        s'.threads[u].Opened? && s'.threads[v].Discarding? ==> s'.threads[u].eng != s'.threads[v].eng
    ensures ThreadsOk(s')
  {
    forall u | 0 <= u < |s'.threads| ensures ThreadOk(s', s'.threads[u]) {
      if u != t && u < |s.threads| { ThreadKept(s, s', s.threads[u]); }
    }
  }

  /** No batch loses an engine it has yet to close. */
  ghost predicate BatchesKept(s: State, s': State) {
    && |s.threads| <= |s'.threads|
    && (forall u, h :: 0 <= u < |s.threads| && h in s.returned && Pending(s.threads[u], h) ==>
          h < |s'.handles| && !s'.handles[h].closed ==> Pending(s'.threads[u], h))
  }

  lemma AccountsKept(s: State, s': State)
    requires AllAccounted(s) && BatchesKept(s, s')
    requires forall h :: h in s'.returned && h !in s.returned ==> Accounted(s', h)
    requires forall h :: h in s.returned && h < |s'.handles| && !s'.handles[h].closed ==>
      h < |s.handles| && !s.handles[h].closed
    requires forall k :: k in s.tab.engines ==> Accounted(s', s.tab.engines[k])
    ensures AllAccounted(s')
  {
    forall h | h in s'.returned && h < |s'.handles| && !s'.handles[h].closed ensures Accounted(s', h) {
      if h in s.returned { AccountKept(s, s', h); }
    }
  }

  /** A step that only moves thread `t`, takes or gives back a lock, counts the thread in
      the WaitGroup, reorders the table or raises the closed flag. */
  lemma MoveKeeps(s: State, s': State, t: Tid, pc: Pc)
    requires Core(s) && t < |s.threads| && !pc.Opened? && !pc.Discarding?
    requires s' == At(s, t, pc).(openMu := s'.openMu, wg := s'.wg, closed := s'.closed, tab := s'.tab)
    requires s'.tab.engines == s.tab.engines && TableOk(s'.tab) && |s'.tab.order| == |s.tab.order|
    requires OpenMuOk(s')
    requires s'.wg == s.wg - (if HoldsWg(s.threads[t]) then 1 else 0) + (if HoldsWg(pc) then 1 else 0)
    requires s.closed ==> s'.closed && (HoldsWg(pc) ==> HoldsWg(s.threads[t]))
    requires ThreadOk(s', pc)
    requires forall h :: h in s.returned && !s.handles[h].closed && Pending(s.threads[t], h) ==> Pending(pc, h)
    ensures Core(s')
  {
    HoldersUpdate(s.threads, t, pc);
    HolderCounts(s.threads);
    if s.tab == Empty() { assert s'.tab.order == []; }
    assert Frame(s, s');
    ThreadsKept(s, s', t);
    AccountsKept(s, s');
  }

  /** The openMu holder moves on: it keeps the lock or gives it back. */
  lemma OpenMuMoves(s: State, s': State, t: Tid, pc: Pc)
    requires OpenMuOk(s) && t < |s.threads| && s'.threads == s.threads[t := pc]
    requires HoldsOpenMu(s.threads[t])
    requires s'.openMu == if HoldsOpenMu(pc) then s.openMu else None
    ensures OpenMuOk(s')
  {
  }

  lemma EnterStep(s: State, t: Tid)
    requires Core(s) && t < |s.threads| && s.threads[t].Called?
    ensures Core(Enter(s, t))
  {
    MoveKeeps(s, Enter(s, t), t, Enter(s, t).threads[t]);
  }

  /** ForScope returns the engine the table holds. */
  lemma GotKept(s: State, s': State, t: Tid, key: string)
    requires Core(s) && t < |s.threads| && (s.threads[t].Lookup? || s.threads[t].Recheck?) && key in s.tab.engines
    requires s' == At(s, t, Got(s.tab.engines[key])).(openMu := s'.openMu, tab := s'.tab)
    requires s'.tab.engines == s.tab.engines && TableOk(s'.tab) && |s'.tab.order| == |s.tab.order|
    requires OpenMuOk(s')
    ensures Core(s')
  {
    MoveKeeps(s, s', t, Got(s.tab.engines[key]));
  }

  lemma HitStep(s: State, t: Tid, tab: Table<Handle>)
    requires Core(s) && t < |s.threads| && s.threads[t].Lookup? && s.threads[t].key in s.tab.engines
    requires tab == Bump(s.tab, s.threads[t].key)
    ensures Core(At(s, t, Got(s.tab.engines[s.threads[t].key])).(tab := tab))
  {
    BumpKeepsTable(s.tab, s.threads[t].key);
    GotKept(s, At(s, t, Got(s.tab.engines[s.threads[t].key])).(tab := tab), t, s.threads[t].key);
  }

  lemma LookUpStep(s: State, t: Tid)
    requires Core(s) && t < |s.threads| && s.threads[t].Lookup?
    ensures Core(LookUp(s, t))
  {
    var key := s.threads[t].key;
    if key in s.tab.engines {
      HitStep(s, t, Bump(s.tab, key));
    } else {
      MoveKeeps(s, At(s, t, WantOpen(key, s.cfg)), t, WantOpen(key, s.cfg));
    }
  }

  lemma AcquireStep(s: State, t: Tid)
    requires Core(s) && CanAdvance(s, t) && s.threads[t].WantOpen?
    ensures Core(AcquireOpenMu(s, t))
  {
    MoveKeeps(s, AcquireOpenMu(s, t), t, AcquireOpenMu(s, t).threads[t]);
  }

  lemma CheckStep(s: State, t: Tid)
    requires Core(s) && t < |s.threads| && s.threads[t].WaitCheck?
    ensures Core(CheckPendingClose(s, t))
  {
    OpenMuMoves(s, CheckPendingClose(s, t), t, CheckPendingClose(s, t).threads[t]);
    MoveKeeps(s, CheckPendingClose(s, t), t, CheckPendingClose(s, t).threads[t]);
  }

  lemma WakeStep(s: State, t: Tid)
    requires Core(s) && t < |s.threads| && s.threads[t].Blocked?
    ensures Core(Wake(s, t))
  {
    OpenMuMoves(s, Wake(s, t), t, Wake(s, t).threads[t]);
    MoveKeeps(s, Wake(s, t), t, Wake(s, t).threads[t]);
  }

  lemma RecheckStep(s: State, t: Tid)
    requires Core(s) && t < |s.threads| && s.threads[t].Recheck?
    ensures Core(RecheckTable(s, t))
  {
    var key := s.threads[t].key;
    if key in s.tab.engines {
      OpenMuMoves(s, RecheckTable(s, t), t, Got(s.tab.engines[key]));
      GotKept(s, RecheckTable(s, t), t, key);
    } else {
      OpenMuMoves(s, RecheckTable(s, t), t, Opening(key, s.threads[t].cfg));
      MoveKeeps(s, RecheckTable(s, t), t, Opening(key, s.threads[t].cfg));
    }
  }

  lemma OpenFailsStep(s: State, t: Tid)
    requires Core(s) && t < |s.threads| && s.threads[t].Opening?
    ensures Core(OpenFails(s, t))
  {
    OpenMuMoves(s, OpenFails(s, t), t, Failed);
    MoveKeeps(s, OpenFails(s, t), t, Failed);
  }

  lemma PrewarmOpenStep(s: State, t: Tid)
    requires Core(s) && t < |s.threads| && s.threads[t].PrewarmOpen?
    ensures Core(PrewarmStep(s, t))
  {
    OpenMuMoves(s, PrewarmStep(s, t), t, Leaving);
    MoveKeeps(s, PrewarmStep(s, t), t, Leaving);
  }

  lemma PrewarmSteps(s: State, t: Tid)
    requires Core(s) && CanAdvance(s, t)
    requires var pc := s.threads[t]; pc.PrewarmCalled? || pc.PrewarmGate? || pc.PrewarmWant? || pc.Leaving?
    ensures Core(PrewarmStep(s, t))
  {
    MoveKeeps(s, PrewarmStep(s, t), t, PrewarmStep(s, t).threads[t]);
  }

  lemma DisposeFlagStep(s: State, t: Tid)
    requires Core(s) && t < |s.threads| && s.threads[t].DisposeCalled?
    ensures Core(At(s, t, DisposeDrain).(closed := true))
  {
    MoveKeeps(s, At(s, t, DisposeDrain).(closed := true), t, DisposeDrain);
  }

  lemma DisposeWaitStep(s: State, t: Tid)
    requires Core(s) && CanAdvance(s, t) && s.threads[t].DisposeWait?
    ensures Core(At(s, t, Disposed))
  {
    assert ThreadOk(s, s.threads[t]);
    MoveKeeps(s, At(s, t, Disposed), t, Disposed);
  }

  // Opening, discarding and closing engines

  lemma SpawnStep(s: State, pc: Pc)
    requires Core(s) && !HoldsOpenMu(pc) && !HoldsWg(pc) && ThreadOk(s, pc) && !pc.Discarding?
    ensures Core(Spawn(s, pc))
  {
    HoldersAppend(s.threads, pc);
    ThreadsKept(s, Spawn(s, pc), |s.threads|);
    AccountsKept(s, Spawn(s, pc));
  }

  lemma OpenStep(s: State, t: Tid)
    requires Core(s) && t < |s.threads| && s.threads[t].Opening?
    ensures Core(OpenSucceeds(s, t))
  {
    var s' := OpenSucceeds(s, t);
    HoldersUpdate(s.threads, t, s'.threads[t]);
    OpenMuMoves(s, s', t, s'.threads[t]);
    ThreadsKept(s, s', t);
    AccountsKept(s, s');
  }

  lemma DiscardThreads(s: State, t: Tid)
    requires ThreadsOk(s) && OpenMuOk(s) && t < |s.threads| && s.threads[t].Opened?
    ensures ThreadsOk(Discard(s, t))
  {
    forall u | 0 <= u < |s.threads| && u != t ensures !s.threads[u].Opened? {
      assert OpenMuOk(s);
    }
    assert ThreadOk(s, s.threads[t]);
    ThreadsKept(s, Discard(s, t), t);
  }

  lemma DiscardStep(s: State, t: Tid)
    requires Core(s) && t < |s.threads| && s.threads[t].Opened?
    ensures Core(Discard(s, t))
  {
    HoldersUpdate(s.threads, t, Failed);
    HoldersAppend(s.threads[t := Failed], Discarding(s.threads[t].eng));
    DiscardThreads(s, t);
    AccountsKept(s, Discard(s, t));
  }

  lemma PersistKeeps(s: State, h: Handle)
    requires Core(s)
    ensures Core(Persist(s, h))
  {
    ThreadsKept(s, Persist(s, h), |s.threads|);
    AccountsKept(s, Persist(s, h));
  }

  /** Closing an engine that no table entry and no fresh open refers to. */
  lemma CloseKeeps(s: State, h: Handle)
    requires Core(s) && h < |s.handles|
    requires forall k :: k in s.tab.engines ==> s.tab.engines[k] != h
    requires forall t :: 0 <= t < |s.threads| && s.threads[t].Opened? ==> s.threads[t].eng != h
    ensures Core(CloseEngine(s, h))
  {
    var s' := CloseEngine(s, h);
    ThreadsKept(s, s', |s.threads|);
    AccountsKept(s, s');
  }

  lemma DiscardingStep(s: State, t: Tid)
    requires Core(s) && t < |s.threads| && s.threads[t].Discarding?
    ensures Core(At(CloseEngine(s, s.threads[t].eng), t, Done))
  {
    assert ThreadOk(s, s.threads[t]);
    var s1 := CloseEngine(s, s.threads[t].eng);
    CloseKeeps(s, s.threads[t].eng);
    MoveKeeps(s1, At(s1, t, Done), t, Done);
  }

  /** A batch moves on past engines it has closed; the rest stays pending. */
  lemma BatchMoves(s: State, t: Tid, pc: Pc)
    requires Core(s) && t < |s.threads| && s.threads[t].Closing? && pc.Closing?
    requires pc == s.threads[t].(at := pc.at, stage := pc.stage)
    requires s.threads[t].at <= pc.at <= |pc.doomed|
    requires forall i :: s.threads[t].at <= i < pc.at ==>
      pc.doomed[i].eng < |s.handles| && s.handles[pc.doomed[i].eng].closed
    ensures Core(At(s, t, pc))
  {
    assert ThreadOk(s, s.threads[t]);
    assert ThreadOk(At(s, t, pc), pc);
    MoveKeeps(s, At(s, t, pc), t, pc);
  }

  lemma ClosingStep(s: State, t: Tid)
    requires Core(s) && t < |s.threads| && s.threads[t].Closing? && s.threads[t].at < |s.threads[t].doomed|
    ensures Core(CloseStep(s, t))
  {
    var pc := s.threads[t];
    var h := pc.doomed[pc.at].eng;
    assert ThreadOk(s, pc);
    match pc.stage
    case Consolidating => BatchMoves(s, t, pc.(stage := Flushing));
    case Flushing =>
      PersistKeeps(s, h);
      BatchMoves(Persist(s, h), t, pc.(stage := Finishing));
    case Finishing =>
      CloseKeeps(s, h);
      BatchMoves(CloseEngine(s, h), t, CloseStep(s, t).threads[t]);
  }

  lemma SignallingStep(s: State, t: Tid)
    requires Core(s) && t < |s.threads| && s.threads[t].Closing? && s.threads[t].at == |s.threads[t].doomed|
    ensures Core(SignalStep(s, t))
  {
    var s' := SignalStep(s, t);
    var s1 := s.(closings := s'.closings, signalled := s'.signalled);
    assert ThreadOk(s, s.threads[t]);
    MarkersMove(s, s'.closings, s'.signalled);
    MoveKeeps(s1, s', t, s'.threads[t]);
  }

  lemma MarkersMove(s: State, closings: map<string, Tid>, signalled: set<(string, Tid)>)
    requires Core(s)
    ensures Core(s.(closings := closings, signalled := signalled))
  {
    var s' := s.(closings := closings, signalled := signalled);
    ThreadsKept(s, s', |s.threads|);
    AccountsKept(s, s');
  }

  // Installing, draining, writing

  ghost predicate CanInstall(s: State, t: Tid) {
    Core(s) && t < |s.threads| && s.threads[t].Opened? && !s.closed
  }

  /** What the table becomes: the new engine is in, the other entries stay or are evicted. */
  lemma InstallTable(s: State, t: Tid, inserted: Table<Handle>)
    requires CanInstall(s, t) && inserted == Insert(s.tab, s.threads[t].key, s.threads[t].eng)
    ensures var key, h, tab := s.threads[t].key, s.threads[t].eng, Shrunk(inserted);
      && TableOk(tab) && |tab.order| <= MAX_ENGINES
      && Splits(inserted, tab, Evicted(inserted)) && !HasKey(Evicted(inserted), key)
      && key !in s.tab.engines && h !in s.returned
      && key in tab.engines && tab.engines[key] == h
  {
    var pc := s.threads[t];
    assert ThreadOk(s, pc);
    InsertKeepsTable(s.tab, pc.key, pc.eng);
    EvictionKeepsNewest(inserted);
    EvictionSplitsTable(inserted);
    InsertedSurvives(s.tab, pc.key, pc.eng);
  }

  /** The install section, given what eviction computed. */
  function Installed(s: State, t: Tid, tab: Table<Handle>, doomed: seq<Doomed<Handle>>): State
    requires t < |s.threads| && s.threads[t].Opened?
  {
    var s1 := At(s, t, Got(s.threads[t].eng)).(openMu := None, returned := s.returned + {s.threads[t].eng}, tab := tab);
    if doomed == [] then s1
    else Spawn(Mark(s1, doomed, |s.threads|), StartClosing(doomed, s.cfg.autoConsolidate, true)).(wg := s.wg + 1)
  }

  ghost predicate InstallOutcome(s: State, t: Tid, tab: Table<Handle>, doomed: seq<Doomed<Handle>>)
    requires t < |s.threads| && s.threads[t].Opened?
  {
    var key, h := s.threads[t].key, s.threads[t].eng;
    && TableOk(tab) && |tab.order| <= MAX_ENGINES && NoDupKeys(doomed)
    && key !in s.tab.engines && h !in s.returned
    && key in tab.engines && tab.engines[key] == h
    && (forall k :: k in tab.engines && k != key ==> k in s.tab.engines && tab.engines[k] == s.tab.engines[k])
    && (forall k :: k in s.tab.engines ==> (k in tab.engines <==> !HasKey(doomed, k)))
    && (forall i :: 0 <= i < |doomed| ==>
          doomed[i].key in s.tab.engines && s.tab.engines[doomed[i].key] == doomed[i].eng)
  }

  lemma InstallOutcomeHolds(s: State, t: Tid, inserted: Table<Handle>)
    requires CanInstall(s, t) && inserted == Insert(s.tab, s.threads[t].key, s.threads[t].eng)
    ensures InstallOutcome(s, t, Shrunk(inserted), Evicted(inserted))
  {
    InstallTable(s, t, inserted);
    var doomed := Evicted(inserted);
    forall i | 0 <= i < |doomed|
      ensures doomed[i].key in s.tab.engines && s.tab.engines[doomed[i].key] == doomed[i].eng
    {
      assert HasKey(doomed, doomed[i].key);
    }
  }

  /** The batch that closes what an install evicted. */
  lemma InstalledBatch(s: State, t: Tid, tab: Table<Handle>, doomed: seq<Doomed<Handle>>)
    requires CanInstall(s, t) && InstallOutcome(s, t, tab, doomed) && doomed != []
    ensures BatchOk(Installed(s, t, tab, doomed), StartClosing(doomed, s.cfg.autoConsolidate, true))
  {
    forall i | 0 <= i < |doomed| ensures doomed[i].eng in s.returned && Is(s, doomed[i].eng, doomed[i].key) {
      assert TableEntriesOk(s);
    }
    forall i, k | 0 <= i < |doomed| && k in tab.engines ensures tab.engines[k] != doomed[i].eng {
      assert HasKey(doomed, doomed[i].key);
      assert TableEntriesOk(s);
    }
  }

  lemma InstalledThreads(s: State, t: Tid, tab: Table<Handle>, doomed: seq<Doomed<Handle>>)
    requires CanInstall(s, t) && InstallOutcome(s, t, tab, doomed)
    ensures ThreadsOk(Installed(s, t, tab, doomed))
  {
    var s' := Installed(s, t, tab, doomed);
    assert ThreadOk(s, s.threads[t]);
    if doomed != [] { InstalledBatch(s, t, tab, doomed); }
    ThreadsKept(s, s', t);
  }

  /** A drained or evicted engine is pending in the batch that was started for it. */
  lemma BatchAccounts(s': State, u: Tid, doomed: seq<Doomed<Handle>>, k: string, h: Handle)
    requires u < |s'.threads| && s'.threads[u].Closing? && s'.threads[u].doomed == doomed && s'.threads[u].at == 0
    requires HasKey(doomed, k) && forall i :: 0 <= i < |doomed| && doomed[i].key == k ==> doomed[i].eng == h
    ensures Accounted(s', h)
  {
    var i :| 0 <= i < |doomed| && doomed[i].key == k;
    assert Pending(s'.threads[u], h);
  }

  lemma InstalledAccounts(s: State, t: Tid, tab: Table<Handle>, doomed: seq<Doomed<Handle>>)
    requires AllAccounted(s) && t < |s.threads| && s.threads[t].Opened? && InstallOutcome(s, t, tab, doomed)
    requires forall h :: h in s.returned ==> h < |s.handles|
    ensures AllAccounted(Installed(s, t, tab, doomed))
  {
    var s' := Installed(s, t, tab, doomed);
    forall k | k in s.tab.engines ensures Accounted(s', s.tab.engines[k]) {
      if k in tab.engines {
        assert s'.tab.engines[k] == s.tab.engines[k];
      } else {
        BatchAccounts(s', |s.threads|, doomed, k, s.tab.engines[k]);
      }
    }
    assert s'.tab.engines[s.threads[t].key] == s.threads[t].eng;
    AccountsKept(s, s');
  }

  lemma InstalledLocks(s: State, t: Tid, tab: Table<Handle>, doomed: seq<Doomed<Handle>>)
    requires OpenMuOk(s) && s.wg == Holders(s.threads) && t < |s.threads| && s.threads[t].Opened?
    ensures OpenMuOk(Installed(s, t, tab, doomed))
    ensures Installed(s, t, tab, doomed).wg == Holders(Installed(s, t, tab, doomed).threads)
  {
    HoldersUpdate(s.threads, t, Got(s.threads[t].eng));
    HoldersAppend(s.threads[t := Got(s.threads[t].eng)], StartClosing(doomed, s.cfg.autoConsolidate, true));
  }

  lemma InstalledTable(s: State, t: Tid, tab: Table<Handle>, doomed: seq<Doomed<Handle>>)
    requires TableEntriesOk(s) && t < |s.threads| && ThreadOk(s, s.threads[t]) && s.threads[t].Opened?
    requires InstallOutcome(s, t, tab, doomed)
    ensures TableEntriesOk(Installed(s, t, tab, doomed))
  {
  }

  lemma InstalledStep(s: State, t: Tid, tab: Table<Handle>, doomed: seq<Doomed<Handle>>)
    requires CanInstall(s, t) && InstallOutcome(s, t, tab, doomed)
    ensures Core(Installed(s, t, tab, doomed))
  {
    InstalledLocks(s, t, tab, doomed);
    InstalledTable(s, t, tab, doomed);
    InstalledThreads(s, t, tab, doomed);
    InstalledAccounts(s, t, tab, doomed);
  }

  lemma InstallStep(s: State, t: Tid)
    requires CanInstall(s, t)
    ensures Core(Install(s, t))
  {
    var inserted := Insert(s.tab, s.threads[t].key, s.threads[t].eng);
    InstallOutcomeHolds(s, t, inserted);
    InstalledStep(s, t, Shrunk(inserted), Evicted(inserted));
  }

  lemma NoneListed<H>(tab: Table<H>)
    requires TableOk(tab) && Lists([], tab.engines)
    ensures tab == Empty()
  {
    assert forall k :: k in tab.engines ==> HasKey<H>([], k);
    assert forall k :: k in tab.order ==> HasKey<H>([], k);
    if tab.order != [] {
      var k := tab.order[0];
      assert HasKey<H>([], k) by { assert k in tab.order; }
      assert false;
    }
  }

  /** Every engine is handed to the batch of thread `t` and the table is emptied. */
  lemma DrainKeeps(s: State, s': State, t: Tid, doomed: seq<Doomed<Handle>>, auto: bool)
    requires Core(s) && Lists(doomed, s.tab.engines) && doomed != []
    requires t <= |s.threads| && |s'.threads| == if t == |s.threads| then t + 1 else |s.threads|
    requires t < |s.threads| ==> s.threads[t].DisposeDrain?
    requires s'.threads[t] == StartClosing(doomed, auto, t == |s.threads|)
    requires forall u :: 0 <= u < |s.threads| && u != t ==> s'.threads[u] == s.threads[u]
    requires s' == s.(cfg := s'.cfg, tab := Empty(), closings := s'.closings, threads := s'.threads, wg := s'.wg)
    requires s'.wg == Holders(s'.threads)
    ensures Core(s')
  {
    DrainThreads(s, s', t, doomed, auto);
    forall k | k in s.tab.engines ensures Accounted(s', s.tab.engines[k]) {
      BatchAccounts(s', t, doomed, k, s.tab.engines[k]);
    }
    AccountsKept(s, s');
  }

  lemma DrainThreads(s: State, s': State, t: Tid, doomed: seq<Doomed<Handle>>, auto: bool)
    requires ThreadsOk(s) && TableEntriesOk(s) && Lists(doomed, s.tab.engines) && doomed != []
    requires t <= |s.threads| && |s'.threads| == if t == |s.threads| then t + 1 else |s.threads|
    requires t < |s.threads| ==> s.threads[t].DisposeDrain?
    requires s'.threads[t] == StartClosing(doomed, auto, t == |s.threads|)
    requires forall u :: 0 <= u < |s.threads| && u != t ==> s'.threads[u] == s.threads[u]
    requires s' == s.(cfg := s'.cfg, tab := Empty(), closings := s'.closings, threads := s'.threads, wg := s'.wg)
    ensures ThreadsOk(s')
  {
    assert doomed[0].key in s.tab.engines && s.tab != Empty();
    assert t < |s.threads| ==> ThreadOk(s, s.threads[t]);
    forall i | 0 <= i < |doomed| ensures doomed[i].eng in s.returned && Is(s, doomed[i].eng, doomed[i].key) {
      assert doomed[i].key in s.tab.engines;
    }
    assert ThreadOk(s', s'.threads[t]);
    ThreadsKept(s, s', t);
  }

  lemma DisposeDrainStep(s: State, t: Tid, doomed: seq<Doomed<Handle>>)
    requires Core(s) && t < |s.threads| && s.threads[t].DisposeDrain? && Lists(doomed, s.tab.engines)
    ensures Core(DrainForDispose(s, t, doomed))
  {
    var s' := DrainForDispose(s, t, doomed);
    assert ThreadOk(s, s.threads[t]);
    if doomed == [] {
      NoneListed(s.tab);
      assert Mark(s, doomed, t) == s;
      MoveKeeps(s, s', t, DisposeWait);
    } else {
      HoldersUpdate(s.threads, t, s'.threads[t]);
      DrainKeeps(s, s', t, doomed, s.cfg.autoConsolidate);
    }
  }

  lemma ReconfigureStep(s: State, cfg: Config, doomed: seq<Doomed<Handle>>)
    requires Core(s) && Enabled(s, Reconfigure(cfg, doomed))
    ensures Core(Reconfigured(s, cfg, doomed))
  {
    var s' := Reconfigured(s, cfg, doomed);
    if doomed == [] {
      if MaterialChange(s.cfg, cfg) { NoneListed(s.tab); }
      ThreadsKept(s, s', |s.threads|);
      AccountsKept(s, s');
    } else {
      HoldersAppend(s.threads, s'.threads[|s.threads|]);
      DrainKeeps(s, s', |s.threads|, doomed, cfg.autoConsolidate);
    }
  }

  lemma WriteStep(s: State, h: Handle, row: string)
    requires Core(s) && Enabled(s, Write(h, row))
    ensures Core(Written(s, h, row))
  {
    ThreadsKept(s, Written(s, h, row), |s.threads|);
    AccountsKept(s, Written(s, h, row));
  }

  lemma AdvanceStep(s: State, t: Tid, ok: bool, doomed: seq<Doomed<Handle>>)
    requires Core(s) && Enabled(s, Advance(t, ok, doomed))
    ensures Core(Advanced(s, t, ok, doomed))
  {
    var pc := s.threads[t];
    match pc
    case Called(_) => EnterStep(s, t);
    case Lookup(_) => LookUpStep(s, t);
    case WantOpen(_, _) => AcquireStep(s, t);
    case WaitCheck(_, _, _) => CheckStep(s, t);
    case Blocked(_, _, _) => WakeStep(s, t);
    case Recheck(_, _) => RecheckStep(s, t);
    case Opening(_, _) => if ok { OpenStep(s, t); } else { OpenFailsStep(s, t); }
    case Opened(_, cfg, _) =>
      if s.closed || MaterialChange(cfg, s.cfg) { DiscardStep(s, t); } else { InstallStep(s, t); }
    case Discarding(_) => DiscardingStep(s, t);
    case Closing(_, _, _, _, _) =>
      assert ThreadOk(s, pc);
      if pc.at < |pc.doomed| { ClosingStep(s, t); } else { SignallingStep(s, t); }
    case DisposeCalled => DisposeFlagStep(s, t);
    case DisposeDrain => DisposeDrainStep(s, t, doomed);
    case DisposeWait => DisposeWaitStep(s, t);
    case PrewarmCalled => PrewarmSteps(s, t);
    case PrewarmGate => PrewarmSteps(s, t);
    case PrewarmWant => PrewarmSteps(s, t);
    case PrewarmOpen => PrewarmOpenStep(s, t);
    case Leaving => PrewarmSteps(s, t);
    case _ =>
  }

  lemma StepKeepsCore(s: State, a: Action)
    requires Core(s) && Enabled(s, a)
    ensures Core(Apply(s, a))
  {
    match a
    case CallForScope(key) => SpawnStep(s, Called(key));
    case CallDisposeAll => SpawnStep(s, DisposeCalled);
    case CallPrewarm => SpawnStep(s, PrewarmCalled);
    case Reconfigure(cfg, doomed) => ReconfigureStep(s, cfg, doomed);
    case Write(h, row) => WriteStep(s, h, row);
    case Advance(t, ok, doomed) => AdvanceStep(s, t, ok, doomed);
  }

  lemma {:induction false} RunsKeepCore(r: Run)
    requires Replay(r).Some?
    ensures Core(Replay(r).value)
  {
    match r
    case Start(cfg) => CoreInit(cfg);
    case Then(p, a) =>
      RunsKeepCore(p);
      StepKeepsCore(Replay(p).value, a);
  }

  /** DisposeAll is terminal, on every schedule.  Once a call has returned the table is
      empty, no detached batch and no prewarm is left, and each engine ForScope ever
      returned is closed, unless another DisposeAll call that is still running has yet
      to close it. */
  lemma DisposeAllIsTerminal(r: Run, t: Tid)
    requires Replay(r).Some?
    requires t < |Replay(r).value.threads| && Replay(r).value.threads[t].Disposed?
    ensures var s := Replay(r).value;
      && s.closed && s.tab == Empty()
      && (forall u :: 0 <= u < |s.threads| ==> !HoldsWg(s.threads[u]))
      && (forall h :: h in s.returned ==> h < |s.handles|)
      && (forall h :: h in s.returned && !s.handles[h].closed ==> StillDisposing(s, h))
  {
    var s := Replay(r).value;
    RunsKeepCore(r);
    assert ThreadOk(s, s.threads[t]);
    HolderCounts(s.threads);
    forall h | h in s.returned && !s.handles[h].closed ensures StillDisposing(s, h) {
      assert Accounted(s, h);
      var u :| 0 <= u < |s.threads| && Pending(s.threads[u], h);
      assert !HoldsWg(s.threads[u]);
    }
  }

  ghost predicate StillDisposing(s: State, h: Handle) {
    exists u :: 0 <= u < |s.threads| && Pending(s.threads[u], h) && !s.threads[u].detached
  }

  ghost predicate Continues(r: Run, p: Run) {
    r == p || (r.Then? && Continues(r.prefix, p))
  }

  lemma AdvanceOnceClosed(s: State, t: Tid, ok: bool, doomed: seq<Doomed<Handle>>)
    requires s.closed && t < |s.threads|
    ensures Advanced(s, t, ok, doomed).closed && Advanced(s, t, ok, doomed).returned == s.returned
  {
    match s.threads[t]
    case Called(_) =>
    case Lookup(_) =>
    case Closing(ds, at, stage, _, _) => if at < |ds| { assert CloseStep(s, t).returned == s.returned; }
    case _ =>
  }

  /** Once the closed flag is up, no later step of any thread installs an engine. */
  lemma {:induction false} NothingInstalledOnceClosed(p: Run, r: Run)
    requires Continues(r, p) && Replay(r).Some? && Replay(p).Some? && Replay(p).value.closed
    ensures Replay(r).value.closed && Replay(r).value.returned == Replay(p).value.returned
  {
    if r != p {
      NothingInstalledOnceClosed(p, r.prefix);
      var s := Replay(r.prefix).value;
      match r.action
      case Advance(t, ok, doomed) => AdvanceOnceClosed(s, t, ok, doomed);
      case _ =>
    }
  }
}
