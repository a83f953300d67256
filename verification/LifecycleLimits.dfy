/** Where the lifecycle guarantees stop: concrete runs that break each assumption. */
module LifecycleLimits {
  import opened Configs
  import opened EngineTable
  import opened Lifecycle
  import opened LifecycleFiles
  import opened LifecycleOrder
  import opened LifecycleProgress
  import opened LifecycleRestore
  import opened Wrappers

  /** A scope, and two materially different settings that use the same directory. */
  datatype Case = Case(key: string, a: Config, b: Config)

  ghost predicate Fits(c: Case) {
    && c.key != "" && MaterialChange(c.a, c.b) && c.a.dataDir == c.b.dataDir
    && !c.a.autoConsolidate && !c.b.autoConsolidate
  }

  function File(c: Case): Path { Path(c.a.dataDir, c.key) }

  /** The engine of the scope, with nothing stored yet. */
  function Fresh(c: Case): Engine { Engine(File(c), [], false) }

  ghost predicate Ends(r: Run, s: State) { Replay(r) == Some(s) }

  /** Installs are clean, and so is every close of a discarded open. */
  ghost predicate Tidy(r: Run) { CleanInstalls(r) && CleanDiscards(r) }

  lemma Extend(r: Run, s: State, a: Action, s': State) returns (r': Run)
    requires Ends(r, s) && Enabled(s, a) && Apply(s, a) == s'
    ensures Ends(r', s') && (NeverRestores(r) && NoRestore(s, a) ==> NeverRestores(r'))
    ensures Tidy(r) && CleanInstall(s, a) && CleanDiscard(s, a) ==> Tidy(r')
  {
    r' := Then(r, a);
  }

  lemma OneListed(key: string, doomed: seq<Doomed<Handle>>, engines: map<string, Handle>)
    requires |doomed| == 1 && doomed[0].key == key && engines == map[key := doomed[0].eng]
    ensures Lists(doomed, engines) && Keys(doomed) == {key}
  {
    assert HasKey(doomed, key);
  }

  function Queued(s: State, key: string): State { Spawn(s, WantOpen(key, s.cfg)) }

  /** ForScope misses and queues for openMu. */
  lemma Queue(r: Run, s: State, key: string) returns (r': Run)
    requires Ends(r, s) && key != "" && !s.closed && key !in s.tab.engines
    ensures Ends(r', Queued(s, key)) && (NeverRestores(r) ==> NeverRestores(r')) && (Tidy(r) ==> Tidy(r'))
  {
    var t := |s.threads|;
    r' := Extend(r, s, CallForScope(key), Spawn(s, Called(key)));
    r' := Extend(r', Spawn(s, Called(key)), Advance(t, true, []), Spawn(s, Lookup(key)));
    r' := Extend(r', Spawn(s, Lookup(key)), Advance(t, true, []), Queued(s, key));
  }

  function Checked(s: State, t: Tid): State
    requires t < |s.threads| && s.threads[t].WantOpen?
  {
    At(s, t, Recheck(s.threads[t].key, s.threads[t].cfg)).(openMu := Some(t))
  }

  /** A queued call gets openMu and finds no close pending. */
  lemma Check(r: Run, s: State, t: Tid) returns (r': Run)
    requires Ends(r, s) && t < |s.threads| && s.threads[t].WantOpen? && s.openMu == None
    requires s.threads[t].key !in s.closings
    ensures Ends(r', Checked(s, t)) && (NeverRestores(r) ==> NeverRestores(r')) && (Tidy(r) ==> Tidy(r'))
  {
    var s1 := AcquireOpenMu(s, t);
    r' := Extend(r, s, Advance(t, true, []), s1);
    r' := Extend(r', s1, Advance(t, true, []), Checked(s, t));
  }

  function OpenedAt(s: State, t: Tid): State
    requires t < |s.threads| && s.threads[t].Recheck?
  {
    OpenSucceeds(At(s, t, Opening(s.threads[t].key, s.threads[t].cfg)), t)
  }

  /** The call finds no engine in the table and opens one. */
  lemma Open(r: Run, s: State, t: Tid) returns (r': Run)
    requires Ends(r, s) && t < |s.threads| && s.threads[t].Recheck? && s.threads[t].key !in s.tab.engines
    ensures Ends(r', OpenedAt(s, t)) && (NeverRestores(r) ==> NeverRestores(r')) && (Tidy(r) ==> Tidy(r'))
  {
    var s1 := At(s, t, Opening(s.threads[t].key, s.threads[t].cfg));
    r' := Extend(r, s, Advance(t, true, []), s1);
    r' := Extend(r', s1, Advance(t, true, []), OpenedAt(s, t));
  }

  function InstalledAt(s: State, t: Tid): State
    requires t < |s.threads| && s.threads[t].Opened?
  {
    At(s, t, Got(s.threads[t].eng)).(openMu := None, returned := s.returned + {s.threads[t].eng},
      tab := Insert(s.tab, s.threads[t].key, s.threads[t].eng))
  }

  /** The engine is installed; the table is far from full. */
  lemma Put(r: Run, s: State, t: Tid) returns (r': Run)
    requires Ends(r, s) && t < |s.threads| && s.threads[t].Opened? && |s.tab.order| < MAX_ENGINES
    requires !s.closed && !MaterialChange(s.threads[t].cfg, s.cfg)
    ensures Ends(r', InstalledAt(s, t)) && (NeverRestores(r) ==> NeverRestores(r'))
    ensures Tidy(r) && s.threads[t].key !in s.closings ==> Tidy(r')
  {
    r' := Extend(r, s, Advance(t, true, []), InstalledAt(s, t));
  }

  function FirstOpen(c: Case): State {
    State(c.a, false, Empty(), map[], {}, Some(0), 0, [Fresh(c)], map[], [Opened(c.key, c.a, 0)], {}, map[])
  }

  lemma OpenFirst(c: Case) returns (r: Run)
    requires Fits(c)
    ensures Ends(r, FirstOpen(c)) && NeverRestores(r)
  {
    r := Start(c.a);
    var s := Init(c.a);
    r := Queue(r, s, c.key); s := Queued(s, c.key);
    r := Check(r, s, 0); s := Checked(s, 0);
    r := Open(r, s, 0);
    assert OpenedAt(s, 0) == FirstOpen(c);
  }

  function FirstIn(c: Case): State {
    FirstOpen(c).(tab := Table(map[c.key := 0], [c.key]), openMu := None, threads := [Got(0)], returned := {0})
  }

  lemma InstallFirst(c: Case) returns (r: Run)
    requires Fits(c)
    ensures Ends(r, FirstIn(c)) && NeverRestores(r)
  {
    r := OpenFirst(c);
    r := Put(r, FirstOpen(c), 0);
    assert InstalledAt(FirstOpen(c), 0) == FirstIn(c);
  }

  function Discarded(c: Case): State {
    State(c.b, false, Empty(), map[], {}, None, 0, [Fresh(c)], map[],
    [Failed, Discarding(0)], {}, map[])
  }

  lemma DiscardFirst(c: Case) returns (r: Run)
    requires Fits(c)
    ensures Ends(r, Discarded(c)) && NeverRestores(r)
  {
    r := OpenFirst(c);
    var s := FirstOpen(c);
    r := Extend(r, s, Reconfigure(c.b, []), s.(cfg := c.b));
    r := Extend(r, s.(cfg := c.b), Advance(0, true, []), Discarded(c));
  }

  function Reopened(c: Case): State {
    Discarded(c).(threads := [Failed, Discarding(0), Got(1)], returned := {1},
    tab := Table(map[c.key := 1], [c.key]), handles := [Fresh(c), Fresh(c)])
  }

  lemma QueueBeside(c: Case) returns (r: Run)
    requires Fits(c)
    ensures Ends(r, Discarded(c).(threads := [Failed, Discarding(0), Recheck(c.key, c.b)], openMu := Some(2)))
    ensures NeverRestores(r)
  {
    r := DiscardFirst(c);
    var s := Discarded(c);
    r := Queue(r, s, c.key); s := Queued(s, c.key);
    r := Check(r, s, 2);
    assert Checked(s, 2) == Discarded(c).(threads := [Failed, Discarding(0), Recheck(c.key, c.b)], openMu := Some(2));
  }

  lemma ReopenBeside(c: Case) returns (r: Run)
    requires Fits(c)
    ensures Ends(r, Reopened(c)) && NeverRestores(r)
  {
    r := QueueBeside(c);
    var s := Discarded(c).(threads := [Failed, Discarding(0), Recheck(c.key, c.b)], openMu := Some(2));
    r := Open(r, s, 2); s := OpenedAt(s, 2);
    r := Put(r, s, 2);
    assert InstalledAt(s, 2) == Reopened(c);
  }

  /** A discarded open is closed late, without a marker, and rewrites the file with what
      it had read: a row stored meanwhile through the engine opened under the new settings
      is lost from the file. */
  lemma DiscardedOpenLosesRow(c: Case, row: string) returns (r: Run)
    requires Fits(c)
    ensures Replay(r).Some? && NeverRestores(r)
    ensures Rows(Replay(r).value.log, File(c)) == [row] && Rows(Replay(r).value.files, File(c)) == []
  {
    r := ReopenBeside(c);
    var s4 := Written(Reopened(c), 1, row);
    r := Extend(r, Reopened(c), Write(1, row), s4);
    var s5 := At(CloseEngine(s4, 0), 1, Done);
    r := Extend(r, s4, Advance(1, true, []), s5);
  }

  /** A second DisposeAll call finds an empty table and an empty WaitGroup, and returns
      while the first call has not closed the engine yet. */
  lemma SecondDisposeReturnsEarly(c: Case) returns (r: Run)
    requires Fits(c)
    ensures Replay(r).Some? && var s := Replay(r).value;
      (exists t :: 0 <= t < |s.threads| && s.threads[t].Disposed?) && (exists h :: Live(s, h, c.key))
  {
    r := InstallFirst(c);
    r := FirstDispose(c, r);
    r := DisposeAgain(r, FirstDisposing(c));
    var s := Spawn(FirstDisposing(c), Disposed);
    assert s.threads[2] == Disposed && Live(s, 0, c.key);
  }

  function FirstDisposing(c: Case): State {
    FirstIn(c).(tab := Empty(), closings := map[c.key := 1], closed := true,
    threads := [Got(0), StartClosing([Doomed(c.key, 0)], c.a.autoConsolidate, false)])
  }

  lemma FirstDispose(c: Case, p: Run) returns (r: Run)
    requires Fits(c) && Ends(p, FirstIn(c))
    ensures Ends(r, FirstDisposing(c))
  {
    var s := FirstIn(c);
    var doomed := [Doomed(c.key, 0)];
    OneListed(c.key, doomed, s.tab.engines);
    var s1 := Spawn(s, DisposeCalled);
    r := Extend(p, s, CallDisposeAll, s1);
    var s2 := s1.(threads := [Got(0), DisposeDrain], closed := true);
    r := Extend(r, s1, Advance(1, true, []), s2);
    assert Mark(s2, doomed, 1).closings == map[c.key := 1];
    r := Extend(r, s2, Advance(1, true, doomed), FirstDisposing(c));
  }

  /** DisposeAll on a store already drained returns at once. */
  lemma DisposeAgain(p: Run, s: State) returns (r: Run)
    requires Ends(p, s) && s.tab == Empty() && s.closed && s.wg == 0
    ensures Ends(r, Spawn(s, Disposed))
  {
    var t := |s.threads|;
    r := Extend(p, s, CallDisposeAll, Spawn(s, DisposeCalled));
    r := Extend(r, Spawn(s, DisposeCalled), Advance(t, true, []), Spawn(s, DisposeDrain));
    assert DrainForDispose(Spawn(s, DisposeDrain), t, []) == Spawn(s, DisposeWait) by {
      assert Mark(Spawn(s, DisposeDrain), [], t) == Spawn(s, DisposeDrain);
    }
    r := Extend(r, Spawn(s, DisposeDrain), Advance(t, true, []), Spawn(s, DisposeWait));
    r := DisposeIdle(r, s);
  }

  lemma DisposeIdle(p: Run, s: State) returns (r: Run)
    requires Ends(p, Spawn(s, DisposeWait)) && s.wg == 0
    ensures Ends(r, Spawn(s, Disposed))
  {
    r := Extend(p, Spawn(s, DisposeWait), Advance(|s.threads|, true, []), Spawn(s, Disposed));
  }

  // Restoring settings behind an open in flight

  function Raced(c: Case): State {
    State(c.a, false, Table(map[c.key := 0], [c.key]), map[], {}, Some(1), 0, [Fresh(c)], map[],
    [Got(0), Recheck(c.key, c.a), WantOpen(c.key, c.a)], {0}, map[])
  }

  /** Three calls miss; the first installs, the second gets past its wait. */
  lemma Race(c: Case) returns (r: Run)
    requires Fits(c)
    ensures Ends(r, Raced(c)) && Tidy(r)
  {
    r := Start(c.a);
    var s := Init(c.a);
    r := Queue(r, s, c.key); s := Queued(s, c.key);
    r := Queue(r, s, c.key); s := Queued(s, c.key);
    r := Queue(r, s, c.key); s := Queued(s, c.key);
    r := Check(r, s, 0); s := Checked(s, 0);
    r := RaceOn(c, r, s);
  }

  lemma RaceOn(c: Case, p: Run, s0: State) returns (r: Run)
    requires Fits(c)
    requires s0 == State(c.a, false, Empty(), map[], {}, Some(0), 0, [], map[],
      [Recheck(c.key, c.a), WantOpen(c.key, c.a), WantOpen(c.key, c.a)], {}, map[])
    requires Ends(p, s0) && Tidy(p)
    ensures Ends(r, Raced(c)) && Tidy(r)
  {
    r := Open(p, s0, 0);
    r := RaceEnds(c, r, OpenedAt(s0, 0));
  }

  lemma RaceEnds(c: Case, p: Run, s: State) returns (r: Run)
    requires Fits(c) && Ends(p, s) && Tidy(p)
    requires s == State(c.a, false, Empty(), map[], {}, Some(0), 0, [Fresh(c)], map[],
      [Opened(c.key, c.a, 0), WantOpen(c.key, c.a), WantOpen(c.key, c.a)], {}, map[])
    ensures Ends(r, Raced(c)) && Tidy(r)
  {
    r := Put(p, s, 0);
    r := Check(r, InstalledAt(s, 0), 1);
    assert Checked(InstalledAt(s, 0), 1) == Raced(c);
  }

  function Batch(c: Case, h: Handle, stage: Stage, at: nat): Pc { Closing([Doomed(c.key, h)], at, stage, false, true) }

  function Restored(c: Case): State {
    Raced(c).(tab := Table(map[c.key := 1], [c.key]), closings := map[c.key := 3], openMu := None, wg := 1,
    handles := [Fresh(c), Fresh(c)],
    threads := [Got(0), Got(1), WantOpen(c.key, c.a), Batch(c, 0, Flushing, 0)], returned := {0, 1})
  }

  function Draining(c: Case): State {
    Raced(c).(cfg := c.b, tab := Empty(), closings := map[c.key := 3], wg := 1,
    threads := [Got(0), Recheck(c.key, c.a), WantOpen(c.key, c.a), Batch(c, 0, Flushing, 0)])
  }

  lemma DrainFirst(c: Case) returns (r: Run)
    requires Fits(c)
    ensures Ends(r, Draining(c)) && Tidy(r)
  {
    r := Race(c);
    var doomed := [Doomed(c.key, 0)];
    OneListed(c.key, doomed, Raced(c).tab.engines);
    assert Mark(Raced(c), doomed, 3).closings == Draining(c).closings;
    r := Extend(r, Raced(c), Reconfigure(c.b, doomed), Draining(c));
  }

  // An open that outlasts the close of the engine it will replace

  /** The engine that is draining stores a row, after the open has read the file. */
  function StoredLate(c: Case, row: string): State {
    Written(OpenedAt(Draining(c), 1), 0, row)
  }

  lemma StoreLate(c: Case, row: string) returns (r: Run)
    requires Fits(c)
    ensures Ends(r, StoredLate(c, row)) && Tidy(r)
  {
    r := DrainFirst(c);
    r := Open(r, Draining(c), 1);
    r := Extend(r, OpenedAt(Draining(c), 1), Write(0, row), StoredLate(c, row));
  }

  /** Its batch ends. */
  function Drained(c: Case, row: string): State {
    StoredLate(c, row).(closings := map[], signalled := {(c.key, 3)},
    handles := [Engine(File(c), [row], true), Fresh(c)],
    threads := [Got(0), Opened(c.key, c.a, 1), WantOpen(c.key, c.a), Leaving])
  }

  /** The only engine of the batch holds what its file holds. */
  ghost predicate HoldsRow(c: Case, row: string, s: State) {
    && 3 < |s.threads| && s.handles == [Engine(File(c), [row], false), Fresh(c)]
    && File(c) in s.files && s.files[File(c)] == [row]
    && s.closings == map[c.key := 3] && s.signalled == {}
  }

  function Closed(c: Case, row: string, s: State): State {
    s.(handles := [Engine(File(c), [row], true), Fresh(c)])
  }

  lemma CloseKeepsFile(c: Case, row: string, s: State)
    requires HoldsRow(c, row, s)
    ensures Persist(s, 0) == s && CloseEngine(s, 0) == Closed(c, row, s)
  {
    assert s.files[File(c) := [row]] == s.files;
  }

  lemma EndFlush(c: Case, row: string, p: Run, s: State) returns (r: Run)
    requires Ends(p, s) && Tidy(p) && HoldsRow(c, row, s) && s.threads[3] == Batch(c, 0, Flushing, 0)
    ensures Ends(r, At(s, 3, Batch(c, 0, Finishing, 0))) && Tidy(r)
  {
    CloseKeepsFile(c, row, s);
    r := Extend(p, s, Advance(3, true, []), At(s, 3, Batch(c, 0, Finishing, 0)));
  }

  lemma EndClose(c: Case, row: string, p: Run, s: State) returns (r: Run)
    requires Ends(p, s) && Tidy(p) && HoldsRow(c, row, s) && s.threads[3] == Batch(c, 0, Finishing, 0)
    ensures Ends(r, At(Closed(c, row, s), 3, Batch(c, 0, Flushing, 1))) && Tidy(r)
  {
    CloseKeepsFile(c, row, s);
    r := Extend(p, s, Advance(3, true, []), At(Closed(c, row, s), 3, Batch(c, 0, Flushing, 1)));
  }

  lemma EndBatch(c: Case, row: string, p: Run, s: State) returns (r: Run)
    requires Ends(p, s) && Tidy(p) && HoldsRow(c, row, s) && s.threads[3] == Batch(c, 0, Flushing, 0)
    ensures Ends(r, At(Closed(c, row, s), 3, Leaving).(closings := map[], signalled := {(c.key, 3)})) && Tidy(r)
  {
    r := EndFlush(c, row, p, s);
    r := EndClose(c, row, r, At(s, 3, Batch(c, 0, Finishing, 0)));
    SameThread(c, row, s);
    r := EndSignal(c, r, At(Closed(c, row, s), 3, Batch(c, 0, Flushing, 1)));
  }

  lemma SameThread(c: Case, row: string, s: State)
    requires 3 < |s.threads|
    ensures At(Closed(c, row, At(s, 3, Batch(c, 0, Finishing, 0))), 3, Batch(c, 0, Flushing, 1)) ==
      At(Closed(c, row, s), 3, Batch(c, 0, Flushing, 1))
    ensures At(At(Closed(c, row, s), 3, Batch(c, 0, Flushing, 1)), 3, Leaving) == At(Closed(c, row, s), 3, Leaving)
  {
    assert s.threads[3 := Batch(c, 0, Finishing, 0)][3 := Batch(c, 0, Flushing, 1)] ==
      s.threads[3 := Batch(c, 0, Flushing, 1)];
    assert s.threads[3 := Batch(c, 0, Flushing, 1)][3 := Leaving] == s.threads[3 := Leaving];
  }

  lemma EndSignal(c: Case, p: Run, s: State) returns (r: Run)
    requires Ends(p, s) && Tidy(p) && 3 < |s.threads| && s.threads[3] == Batch(c, 0, Flushing, 1)
    requires s.closings == map[c.key := 3] && s.signalled == {}
    ensures Ends(r, s.(closings := map[], signalled := {(c.key, 3)}, threads := s.threads[3 := Leaving])) && Tidy(r)
  {
    assert Keys(s.threads[3].doomed) == {c.key};
    var s' := s.(closings := map[], signalled := {(c.key, 3)}, threads := s.threads[3 := Leaving]);
    assert SignalStep(s, 3) == s';
    r := Extend(p, s, Advance(3, true, []), s');
  }

  /** Clean installs are not enough for the files: with settings restored after the batch has
      ended, an install is clean but out of date, and the next write through its engine erases
      the row stored meanwhile. */
  lemma StaleInstallLosesRow(c: Case, row: string, next: string) returns (r: Run)
    requires Fits(c)
    ensures Replay(r).Some? && CleanInstalls(r) && CleanDiscards(r)
    ensures Rows(Replay(r).value.log, File(c)) == [row, next] && Rows(Replay(r).value.files, File(c)) == [next]
  {
    r := StoreLate(c, row);
    StoredLateHolds(c, row);
    r := EndBatch(c, row, r, StoredLate(c, row));
    r := StaleInstall(c, row, next, r);
  }

  lemma StoredLateHolds(c: Case, row: string)
    requires Fits(c)
    ensures var s := StoredLate(c, row);
      && HoldsRow(c, row, s) && s.threads[3] == Batch(c, 0, Flushing, 0)
      && At(Closed(c, row, s), 3, Leaving).(closings := map[], signalled := {(c.key, 3)}) == Drained(c, row)
  {
    assert OpenedAt(Draining(c), 1).handles == [Fresh(c), Fresh(c)];
    assert Fresh(c).rows + [row] == [row] == LastRows([row]);
  }

  lemma StaleInstall(c: Case, row: string, next: string, p: Run) returns (r: Run)
    requires Fits(c) && Ends(p, Drained(c, row)) && Tidy(p)
    ensures Replay(r).Some? && Tidy(r)
    ensures Rows(Replay(r).value.log, File(c)) == [row, next] && Rows(Replay(r).value.files, File(c)) == [next]
  {
    var s := Drained(c, row).(cfg := c.a);
    r := Extend(p, Drained(c, row), Reconfigure(c.a, []), s);
    r := Put(r, s, 1);
    r := StaleWrite(c, row, next, r, InstalledAt(s, 1));
  }

  lemma StaleWrite(c: Case, row: string, next: string, p: Run, s: State) returns (r: Run)
    requires Ends(p, s) && Tidy(p) && 1 < |s.handles| && s.handles[1] == Fresh(c) && 1 in s.returned
    requires Rows(s.log, File(c)) == [row]
    ensures Replay(r).Some? && Tidy(r)
    ensures Rows(Replay(r).value.log, File(c)) == [row, next] && Rows(Replay(r).value.files, File(c)) == [next]
  {
    r := Extend(p, s, Write(1, next), Written(s, 1, next));
  }

  /** Settings change and change back behind the open: it installs a second engine while
      the first is still draining. */
  lemma Restore(c: Case) returns (r: Run)
    requires Fits(c)
    ensures Ends(r, Restored(c))
  {
    r := DrainFirst(c);
    r := Open(r, Draining(c), 1);
    r := ChangeBack(c, r, OpenedAt(Draining(c), 1));
  }

  lemma ChangeBack(c: Case, p: Run, s: State) returns (r: Run)
    requires Fits(c) && Ends(p, s) && s == OpenedAt(Draining(c), 1)
    ensures Ends(r, Restored(c))
  {
    r := Extend(p, s, Reconfigure(c.a, []), s.(cfg := c.a));
    r := Put(r, s.(cfg := c.a), 1);
    assert InstalledAt(s.(cfg := c.a), 1) == Restored(c);
  }

  /** The check under openMu does not replace the one at the install section: settings that
      change and change back behind an open leave a scope with two live engines. */
  lemma RestoredSettingsBreakOneLive(c: Case) returns (r: Run)
    requires Fits(c)
    ensures Replay(r).Some? && !CleanInstalls(r) && !NeverRestores(r)
    ensures exists h1, h2 :: h1 != h2 && Live(Replay(r).value, h1, c.key) && Live(Replay(r).value, h2, c.key)
  {
    r := Restore(c);
    assert Live(Restored(c), 0, c.key) && Live(Restored(c), 1, c.key);
    if CleanInstalls(r) { OneLiveEngine(r, c.key, 0, 1); }
    if NeverRestores(r) { NeverRestoresIsClean(r); }
  }

  function Waiting(c: Case): State {
    Restored(c).(cfg := c.b, tab := Empty(), closings := map[c.key := 4], openMu := Some(2), wg := 2,
    threads := [Got(0), Got(1), Blocked(c.key, c.a, 3), Batch(c, 0, Flushing, 0), Batch(c, 1, Flushing, 0)])
  }

  function BlockedOnFirst(c: Case): State {
    Restored(c).(openMu := Some(2),
    threads := [Got(0), Got(1), Blocked(c.key, c.a, 3), Batch(c, 0, Flushing, 0)])
  }

  /** The third call waits for the first batch; then the second engine is drained too and
      its marker replaces the one the call waits for. */
  lemma WaitForReplaced(c: Case) returns (r: Run)
    requires Fits(c)
    ensures Ends(r, Waiting(c))
  {
    r := Restore(c);
    var s1 := AcquireOpenMu(Restored(c), 2);
    r := Extend(r, Restored(c), Advance(2, true, []), s1);
    r := Extend(r, s1, Advance(2, true, []), BlockedOnFirst(c));
    r := DrainSecond(c, r, BlockedOnFirst(c));
  }

  lemma DrainSecond(c: Case, p: Run, s: State) returns (r: Run)
    requires Fits(c) && Ends(p, s) && s == BlockedOnFirst(c)
    ensures Ends(r, Waiting(c))
  {
    var doomed := [Doomed(c.key, 1)];
    OneListed(c.key, doomed, s.tab.engines);
    assert Mark(s, doomed, 4).closings == Waiting(c).closings;
    r := Extend(p, s, Reconfigure(c.b, doomed), Waiting(c));
  }

  lemma FlushOne(c: Case, p: Run, s: State, t: Tid, h: Handle) returns (r: Run)
    requires Ends(p, s) && t < |s.threads| && s.threads[t] == Batch(c, h, Flushing, 0)
    ensures Ends(r, At(Persist(s, h), t, Batch(c, h, Finishing, 0)))
  {
    r := Extend(p, s, Advance(t, true, []), At(Persist(s, h), t, Batch(c, h, Finishing, 0)));
  }

  lemma CloseFlushed(c: Case, p: Run, s: State, t: Tid, h: Handle) returns (r: Run)
    requires Ends(p, s) && t < |s.threads| && s.threads[t] == Batch(c, h, Finishing, 0)
    ensures Ends(r, At(CloseEngine(s, h), t, Batch(c, h, Flushing, 1)))
  {
    r := Extend(p, s, Advance(t, true, []), At(CloseEngine(s, h), t, Batch(c, h, Flushing, 1)));
  }

  lemma CloseFrame(s: State, h: Handle, t: Tid, p: Pc, q: Pc)
    requires t < |s.threads|
    ensures var s' := At(CloseEngine(At(Persist(s, h), t, p), h), t, q);
      && s'.threads == s.threads[t := q] && s'.openMu == s.openMu && s'.wg == s.wg
      && s'.closings == s.closings && s'.signalled == s.signalled
  {
    assert s.threads[t := p][t := q] == s.threads[t := q];
  }

  /** The engine of a batch of one is flushed and closed. */
  lemma CloseOne(c: Case, p: Run, s: State, t: Tid, h: Handle) returns (r: Run, s': State)
    requires Ends(p, s) && t < |s.threads| && s.threads[t] == Batch(c, h, Flushing, 0)
    ensures Ends(r, s') && s'.openMu == s.openMu && s'.wg == s.wg
    ensures s'.threads == s.threads[t := Batch(c, h, Flushing, 1)]
    ensures s'.closings == s.closings && s'.signalled == s.signalled
  {
    var s1 := At(Persist(s, h), t, Batch(c, h, Finishing, 0));
    r := FlushOne(c, p, s, t, h);
    s' := At(CloseEngine(s1, h), t, Batch(c, h, Flushing, 1));
    r := CloseFlushed(c, r, s1, t, h);
    CloseFrame(s, h, t, Batch(c, h, Finishing, 0), Batch(c, h, Flushing, 1));
  }

  /** A detached batch of one engine runs to its end. */
  lemma Finish(c: Case, p: Run, s: State, t: Tid, h: Handle) returns (r: Run, s': State)
    requires Ends(p, s) && t < |s.threads| && s.threads[t] == Batch(c, h, Flushing, 0)
    ensures Ends(r, s') && s'.openMu == s.openMu && s'.wg == s.wg - 1
    ensures s'.threads == s.threads[t := Done] && s'.closings == s.closings - {c.key}
    ensures s'.signalled == if c.key in s.closings then s.signalled + {(c.key, s.closings[c.key])} else s.signalled
  {
    var s2: State;
    r, s2 := CloseOne(c, p, s, t, h);
    r, s' := FinishSignal(c, r, s2, t, h);
    assert s'.threads == s.threads[t := Done];
  }

  lemma FinishSignal(c: Case, p: Run, s: State, t: Tid, h: Handle) returns (r: Run, s': State)
    requires Ends(p, s) && t < |s.threads| && s.threads[t] == Batch(c, h, Flushing, 1)
    ensures Ends(r, s') && s' == s.(threads := s.threads[t := Done], wg := s.wg - 1, closings := s.closings - {c.key},
      signalled := if c.key in s.closings then s.signalled + {(c.key, s.closings[c.key])} else s.signalled)
  {
    assert Keys(s.threads[t].doomed) == {c.key};
    var s3 := SignalStep(s, t);
    r := Extend(p, s, Advance(t, true, []), s3);
    s' := At(s3, t, Done).(wg := s3.wg - 1);
    r := Extend(r, s3, Advance(t, true, []), s');
  }

  /** Restored settings can also hang the store: the first batch closes the wrong channel,
      nobody closes the one the call waits for, and the call keeps openMu for ever. */
  lemma RestoredSettingsDeadlock(c: Case) returns (r: Run)
    requires Fits(c)
    ensures Replay(r).Some? && !CleanInstalls(r) && !NeverRestores(r)
    ensures var s := Replay(r).value;
      && s.openMu == Some(2) && 2 < |s.threads| && s.threads[2].Blocked?
      && (forall t :: 0 <= t < |s.threads| ==> !CanAdvance(s, t))
  {
    r := WaitForReplaced(c);
    var s: State;
    r, s := Finish(c, r, Waiting(c), 3, 0);
    r, s := Finish(c, r, s, 4, 1);
    assert s.threads == [Got(0), Got(1), Blocked(c.key, c.a, 3), Done, Done];
    assert s.signalled == {(c.key, 4)};
    StuckIsUnclean(r, 2);
  }

  /** A run that gets stuck has made an unclean install. */
  lemma StuckIsUnclean(r: Run, t: Tid)
    requires Replay(r).Some? && t < |Replay(r).value.threads| && !Ended(Replay(r).value.threads[t])
    requires forall u :: 0 <= u < |Replay(r).value.threads| ==> !CanAdvance(Replay(r).value, u)
    ensures !CleanInstalls(r) && !NeverRestores(r)
  {
    if CleanInstalls(r) { NoDeadlock(r, t); }
    if NeverRestores(r) { NeverRestoresIsClean(r); }
  }
}
