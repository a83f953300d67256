/** Durability: a scope's file is the last 256 rows of everything that was successfully
    written to the scope, across evictions, closes and reopens, and so is what each engine
    in use holds, exactly as long as no open is decided on, late or not, with rows that are
    out of date. */
module LifecycleFiles {
  import opened EngineTable
  import opened Lifecycle
  import opened LifecycleCore
  import opened LifecycleOrder

  /** The engine holds what its file should hold. */
  ghost predicate UpToDate(s: State, h: Handle) {
    h < |s.handles| && s.handles[h].rows == LastRows(Rows(s.log, s.handles[h].path))
  }

  /** Every file is the last 256 rows of its log. */
  ghost predicate FilesFollow(s: State) { forall p :: Rows(s.files, p) == LastRows(Rows(s.log, p)) }

  /** The files follow the log, and so does every engine in use. */
  ghost predicate FilesOk(s: State) {
    && FilesFollow(s)
    && (forall h :: h in s.returned && h < |s.handles| && !s.handles[h].closed ==> UpToDate(s, h))
  }

  /** If the action closes an engine whose open was discarded, the engine is up to date. */
  ghost predicate CleanDiscard(s: State, a: Action) {
    a.Advance? && a.t < |s.threads| && s.threads[a.t].Discarding? ==> UpToDate(s, s.threads[a.t].eng)
  }

  /** If the action installs an engine, the engine is up to date. */
  ghost predicate FreshInstall(s: State, a: Action) {
    a.Advance? && a.t < |s.threads| && Welcome(s, s.threads[a.t]) ==> UpToDate(s, s.threads[a.t].eng)
  }

  /** No open is decided on with rows that are out of date. */
  ghost predicate FreshDecision(s: State, a: Action) { FreshInstall(s, a) && CleanDiscard(s, a) }

  ghost predicate FreshDecisions(r: Run) {
    r.Then? ==> FreshDecisions(r.prefix) && (Replay(r.prefix).Some? ==> FreshDecision(Replay(r.prefix).value, r.action))
  }

  /** `rows` is the end of `all`: its last 256, or all there are. */
  ghost predicate IsNewest(rows: seq<string>, all: seq<string>) {
    && |rows| == (if |all| < 256 then |all| else 256)
    && forall i :: 0 <= i < |rows| ==> rows[i] == all[|all| - |rows| + i]
  }

  lemma LastRowsAreNewest(rows: seq<string>, all: seq<string>)
    ensures rows == LastRows(all) <==> IsNewest(rows, all)
  {
    if IsNewest(rows, all) { assert rows == LastRows(all); }
  }

  lemma LastRowsAppend(rows: seq<string>, row: string)
    ensures LastRows(LastRows(rows) + [row]) == LastRows(rows + [row])
  {
  }

  /** A step that leaves rows, files, log and the returned engines as they are. */
  lemma SameFiles(s: State, s': State)
    requires FilesOk(s) && s'.files == s.files && s'.log == s.log && s'.returned == s.returned
    requires |s.handles| <= |s'.handles| && forall h :: 0 <= h < |s.handles| ==>
      s'.handles[h].rows == s.handles[h].rows && s'.handles[h].path == s.handles[h].path &&
      (s.handles[h].closed ==> s'.handles[h].closed)
    requires forall h :: h in s.returned ==> h < |s.handles|
    ensures FilesOk(s')
  {
    forall h | h in s'.returned && h < |s'.handles| && !s'.handles[h].closed ensures UpToDate(s', h) {
      assert UpToDate(s, h);
    }
  }

  /** Rewriting its file from an engine keeps every file in step with its log exactly when
      the engine is up to date. */
  lemma RewriteFollowsExactly(s: State, h: Handle)
    requires FilesFollow(s) && h < |s.handles|
    ensures FilesFollow(Persist(s, h)) <==> UpToDate(s, h)
  {
    var s', p := Persist(s, h), s.handles[h].path;
    if UpToDate(s, h) {
      forall q ensures Rows(s'.files, q) == LastRows(Rows(s'.log, q)) {
        assert Rows(s.files, q) == LastRows(Rows(s.log, q));
      }
    }
    assert Rows(s'.files, p) == s.handles[h].rows;
  }

  lemma PersistFiles(s: State, h: Handle)
    requires FilesOk(s) && UpToDate(s, h) && forall g :: g in s.returned ==> g < |s.handles|
    ensures FilesOk(Persist(s, h))
  {
    var s' := Persist(s, h);
    RewriteFollowsExactly(s, h);
    forall g | g in s'.returned && g < |s'.handles| && !s'.handles[g].closed ensures UpToDate(s', g) {
      assert UpToDate(s, g);
    }
  }

  lemma OpenFiles(s: State, t: Tid)
    requires Core(s) && FilesOk(s) && t < |s.threads| && s.threads[t].Opening?
    ensures FilesOk(OpenSucceeds(s, t))
  {
    SameFiles(s, OpenSucceeds(s, t));
  }

  lemma ThreadMovesFiles(s: State, t: Tid, pc: Pc)
    requires FilesOk(s) && t < |s.threads| && forall g :: g in s.returned ==> g < |s.handles|
    ensures FilesOk(At(s, t, pc))
  {
    SameFiles(s, At(s, t, pc));
  }

  lemma CloseFiles(s: State, h: Handle)
    requires FilesOk(s) && UpToDate(s, h) && forall g :: g in s.returned ==> g < |s.handles|
    ensures FilesOk(CloseEngine(s, h))
  {
    PersistFiles(s, h);
    SameFiles(Persist(s, h), CloseEngine(s, h));
  }

  lemma ClosingFiles(s: State, t: Tid)
    requires ThreadsOk(s) && PendingOpen(s) && FilesOk(s)
    requires t < |s.threads| && s.threads[t].Closing? && s.threads[t].at < |s.threads[t].doomed|
    ensures FilesOk(CloseStep(s, t))
  {
    var pc := s.threads[t];
    var h := pc.doomed[pc.at].eng;
    assert ThreadOk(s, pc);
    assert UpToDate(s, h);
    CloseStepForms(s, t);
    match pc.stage
    case Consolidating => ThreadMovesFiles(s, t, pc.(stage := Flushing));
    case Flushing =>
      PersistFiles(s, h);
      ThreadMovesFiles(Persist(s, h), t, pc.(stage := Finishing));
    case Finishing =>
      ThreadMovesFiles(s, t, After(pc));
      CloseFiles(At(s, t, After(pc)), h);
  }

  lemma StaysUpToDate(s: State, s': State, h: Handle)
    requires UpToDate(s, h) && s'.handles == s.handles && s'.log == s.log
    ensures UpToDate(s', h)
  {
  }

  /** The engine the thread has opened exists and accepts writes. */
  predicate JustOpened(s: State, pc: Pc) { pc.Opened? && pc.eng < |s.handles| && !s.handles[pc.eng].closed }

  /** A step that returns the engine thread `t` has opened. */
  lemma ReturnedFiles(s: State, s': State, t: Tid)
    requires FilesOk(s) && t < |s.threads| && JustOpened(s, s.threads[t])
    requires s'.handles == s.handles && s'.log == s.log && s'.files == s.files
    requires s'.returned == s.returned + {s.threads[t].eng}
    ensures FilesOk(s') <==> UpToDate(s, s.threads[t].eng)
  {
    if UpToDate(s, s.threads[t].eng) {
      forall h | h in s'.returned && h < |s'.handles| && !s'.handles[h].closed ensures UpToDate(s', h) {
        StaysUpToDate(s, s', h);
      }
    }
    if FilesOk(s') { StaysUpToDate(s', s, s.threads[t].eng); }
  }

  lemma InstalledFiles(s: State, t: Tid, tab: Table<Handle>, doomed: seq<Doomed<Handle>>)
    requires FilesOk(s) && t < |s.threads| && JustOpened(s, s.threads[t])
    ensures FilesOk(Installed(s, t, tab, doomed)) <==> UpToDate(s, s.threads[t].eng)
  {
    ReturnedFiles(s, Installed(s, t, tab, doomed), t);
  }

  /** Installing an engine keeps everything in step exactly when the engine is up to date. */
  lemma InstallFollowsExactly(s: State, t: Tid)
    requires FilesOk(s) && t < |s.threads| && JustOpened(s, s.threads[t])
    ensures FilesOk(Install(s, t)) <==> UpToDate(s, s.threads[t].eng)
  {
    var inserted := Insert(s.tab, s.threads[t].key, s.threads[t].eng);
    InstalledFiles(s, t, Shrunk(inserted), Evicted(inserted));
  }

  /** Two engines that still accept writes never share a file. */
  lemma OneWriter(s: State, h: Handle, g: Handle)
    requires Core(s) && Ordered(s) && h < |s.handles| && g < |s.handles|
    requires Live(s, h, s.handles[h].path.key) && Live(s, g, s.handles[g].path.key)
    requires s.handles[h].path == s.handles[g].path
    ensures h == g
  {
    LivePlace(s, s.handles[h].path.key, h);
    LivePlace(s, s.handles[h].path.key, g);
  }

  /** Engines of other files are not concerned by a write. */
  lemma ElsewhereUpToDate(s: State, h: Handle, row: string, g: Handle)
    requires h < |s.handles| && UpToDate(s, g) && s.handles[g].path != s.handles[h].path
    ensures UpToDate(Written(s, h, row), g)
  {
  }

  /** The engine written through is up to date again, and so is its file. */
  lemma WriterUpToDate(s: State, h: Handle, row: string)
    requires FilesFollow(s) && UpToDate(s, h)
    ensures UpToDate(Written(s, h, row), h) && FilesFollow(Written(s, h, row))
  {
    var s', p := Written(s, h, row), s.handles[h].path;
    LastRowsAppend(Rows(s.log, p), row);
    forall q ensures Rows(s'.files, q) == LastRows(Rows(s'.log, q)) {
      assert Rows(s.files, q) == LastRows(Rows(s.log, q));
    }
  }

  lemma WriteFiles(s: State, h: Handle, row: string)
    requires Core(s) && Ordered(s) && FilesOk(s) && Enabled(s, Write(h, row))
    ensures FilesOk(Written(s, h, row))
  {
    var s' := Written(s, h, row);
    WriterUpToDate(s, h, row);
    forall g | g in s'.returned && g < |s'.handles| && !s'.handles[g].closed ensures UpToDate(s', g) {
      if g != h {
        if s.handles[g].path == s.handles[h].path { OneWriter(s, h, g); }
        ElsewhereUpToDate(s, h, row, g);
      }
    }
  }

  /** The steps that touch no engine leave it all alone. */
  ghost predicate Untouched(s: State, s': State, t: Tid) {
    && s'.files == s.files && s'.log == s.log && s'.returned == s.returned && s'.handles == s.handles && s'.cfg == s.cfg
    && t < |s.threads| && |s'.threads| == |s.threads| && !s'.threads[t].Opened? && !s'.threads[t].Discarding?
    && (forall u :: 0 <= u < |s.threads| && u != t ==> s'.threads[u] == s.threads[u])
    && (s.closed ==> s'.closed)
  }

  lemma EarlyUntouched(s: State, t: Tid)
    requires t < |s.threads|
    ensures s.threads[t].Called? ==> Untouched(s, Enter(s, t), t)
    ensures s.threads[t].Lookup? ==> Untouched(s, LookUp(s, t), t)
    ensures s.threads[t].WantOpen? ==> Untouched(s, AcquireOpenMu(s, t), t)
  {
  }

  lemma LockedUntouched(s: State, t: Tid)
    requires t < |s.threads|
    ensures s.threads[t].WaitCheck? ==> Untouched(s, CheckPendingClose(s, t), t)
    ensures s.threads[t].Blocked? ==> Untouched(s, Wake(s, t), t)
    ensures s.threads[t].Recheck? ==> Untouched(s, RecheckTable(s, t), t)
    ensures s.threads[t].Opening? ==> Untouched(s, OpenFails(s, t), t)
  {
  }

  lemma DisposeUntouched(s: State, t: Tid, doomed: seq<Doomed<Handle>>)
    requires t < |s.threads|
    ensures s.threads[t].DisposeCalled? ==> Untouched(s, At(s, t, DisposeDrain).(closed := true), t)
    ensures s.threads[t].DisposeDrain? ==> Untouched(s, DrainForDispose(s, t, doomed), t)
    ensures s.threads[t].DisposeWait? ==> Untouched(s, At(s, t, Disposed), t)
  {
  }

  lemma SignalUntouched(s: State, t: Tid)
    requires t < |s.threads| && s.threads[t].Closing?
    ensures Untouched(s, SignalStep(s, t), t)
  {
  }

  lemma PrewarmUntouched(s: State, t: Tid)
    requires t < |s.threads|
    requires var pc := s.threads[t];
      pc.PrewarmCalled? || pc.PrewarmGate? || pc.PrewarmWant? || pc.PrewarmOpen? || pc.Leaving?
    ensures Untouched(s, PrewarmStep(s, t), t)
  {
  }

  /** A step that neither opens nor closes an engine, nor decides on one just opened. */
  predicate Moves(s: State, t: Tid) {
    && CanAdvance(s, t) && !s.threads[t].Opened? && !s.threads[t].Discarding?
    && (s.threads[t].Closing? ==> s.threads[t].at >= |s.threads[t].doomed|)
  }

  lemma MovesUntouched(s: State, t: Tid, doomed: seq<Doomed<Handle>>)
    requires Moves(s, t)
    ensures Untouched(s, Advanced(s, t, false, doomed), t)
  {
    var pc := s.threads[t];
    if pc.Called? || pc.Lookup? || pc.WantOpen? {
      EarlyUntouched(s, t);
    } else if pc.WaitCheck? || pc.Blocked? || pc.Recheck? || pc.Opening? {
      LockedUntouched(s, t);
    } else if pc.DisposeCalled? || pc.DisposeDrain? || pc.DisposeWait? {
      DisposeUntouched(s, t, doomed);
    } else if pc.Closing? {
      SignalUntouched(s, t);
    } else {
      PrewarmUntouched(s, t);
    }
  }

  lemma UntouchedFiles(s: State, s': State, t: Tid)
    requires ThreadsOk(s) && FilesOk(s) && Untouched(s, s', t)
    ensures FilesOk(s')
  {
    SameFiles(s, s');
  }

  /** An open that is discarded: nothing happens to its file yet. */
  lemma DiscardFiles(s: State, t: Tid)
    requires ThreadsOk(s) && FilesOk(s) && t < |s.threads| && s.threads[t].Opened?
    ensures FilesOk(Discard(s, t))
  {
    SameFiles(s, Discard(s, t));
  }

  /** The close of a discarded open keeps the files in step exactly when the engine is up to
      date: when the last 256 rows of its scope are those it has read. */
  lemma DiscardFollowsExactly(s: State, t: Tid)
    requires ThreadsOk(s) && FilesFollow(s) && t < |s.threads| && s.threads[t].Discarding?
    ensures FilesFollow(At(CloseEngine(s, s.threads[t].eng), t, Done)) <==> UpToDate(s, s.threads[t].eng)
  {
    assert ThreadOk(s, s.threads[t]);
    RewriteFollowsExactly(s, s.threads[t].eng);
    assert At(CloseEngine(s, s.threads[t].eng), t, Done).files == Persist(s, s.threads[t].eng).files;
  }

  /** Its close rewrites the file. */
  lemma DiscardingFiles(s: State, t: Tid)
    requires ThreadsOk(s) && FilesOk(s) && t < |s.threads| && s.threads[t].Discarding?
    ensures FilesOk(At(CloseEngine(s, s.threads[t].eng), t, Done)) <==> UpToDate(s, s.threads[t].eng)
  {
    var h := s.threads[t].eng;
    DiscardFollowsExactly(s, t);
    if UpToDate(s, h) {
      PersistFiles(s, h);
      SameFiles(Persist(s, h), At(CloseEngine(s, h), t, Done));
    }
  }

  lemma DecidedFiles(s: State, t: Tid, ok: bool, doomed: seq<Doomed<Handle>>)
    requires ThreadsOk(s) && FilesOk(s) && t < |s.threads| && s.threads[t].Opened?
    ensures FilesOk(Advanced(s, t, ok, doomed)) <==> FreshInstall(s, Advance(t, ok, doomed))
  {
    OpenedAdvances(s, t, ok, doomed);
    assert ThreadOk(s, s.threads[t]);
    if Welcome(s, s.threads[t]) { InstallFollowsExactly(s, t); } else { DiscardFiles(s, t); }
  }

  lemma AdvanceFiles(s: State, t: Tid, ok: bool, doomed: seq<Doomed<Handle>>)
    requires Core(s) && Ordered(s) && FilesOk(s)
    requires CanAdvance(s, t)
    ensures FilesOk(Advanced(s, t, ok, doomed)) <==> FreshDecision(s, Advance(t, ok, doomed))
  {
    var pc := s.threads[t];
    if pc.Opened? {
      DecidedFiles(s, t, ok, doomed);
    } else if pc.Opening? && ok {
      OpenFiles(s, t);
    } else if pc.Closing? && pc.at < |pc.doomed| {
      ClosingFiles(s, t);
    } else if pc.Discarding? {
      DiscardingFiles(s, t);
    } else {
      MovesUntouched(s, t, doomed);
      UntouchedFiles(s, Advanced(s, t, false, doomed), t);
    }
  }

  lemma CallsFiles(s: State, a: Action)
    requires ThreadsOk(s) && FilesOk(s) && Enabled(s, a) && (a.CallForScope? || a.CallDisposeAll? || a.CallPrewarm?)
    ensures FilesOk(Apply(s, a))
  {
    SameFiles(s, Apply(s, a));
  }

  lemma ReconfigureFiles(s: State, a: Action)
    requires ThreadsOk(s) && FilesOk(s) && Enabled(s, a) && a.Reconfigure?
    ensures FilesOk(Apply(s, a))
  {
    SameFiles(s, Apply(s, a));
  }

  /** A step keeps the files and the engines in use in step with the log exactly when it does
      not decide on an open with rows that are out of date. */
  lemma StepFollowsExactly(s: State, a: Action)
    requires Core(s) && Ordered(s) && FilesOk(s) && Enabled(s, a)
    ensures FilesOk(Apply(s, a)) <==> FreshDecision(s, a)
  {
    match a
    case Write(h, row) => WriteFiles(s, h, row);
    case Advance(t, ok, doomed) => AdvanceFiles(s, t, ok, doomed);
    case Reconfigure(_, _) => ReconfigureFiles(s, a);
    case _ => CallsFiles(s, a);
  }

  /** The files and the engines in use followed the log all along the run. */
  ghost predicate AlwaysOk(r: Run) {
    && (Replay(r).Some? ==> FilesOk(Replay(r).value))
    && (r.Then? ==> AlwaysOk(r.prefix))
  }

  /** In every run whose installs are clean, each file is all along the last 256 rows of the
      log of all successful durable writes to it, and each engine in use holds just these, if
      and only if every engine just opened is up to date when it is installed, or else when
      its late close rewrites the file. */
  lemma {:induction false} FilesFollowLogExactly(r: Run)
    requires Replay(r).Some? && CleanInstalls(r)
    ensures AlwaysOk(r) <==> FreshDecisions(r)
  {
    if r.Then? {
      FilesFollowLogExactly(r.prefix);
      if AlwaysOk(r.prefix) {
        RunsKeepOrdered(r.prefix);
        StepFollowsExactly(Replay(r.prefix).value, r.action);
      }
    }
  }

  /** So in every such run, counted from the end, file and log agree row by row, as far as the
      file goes, which is 256 rows or the whole log; and so do engine and log for each engine
      in use. */
  lemma FilesHoldNewest(r: Run, p: Path, h: Handle)
    requires Replay(r).Some? && CleanInstalls(r) && FreshDecisions(r)
    ensures var s := Replay(r).value;
      && IsNewest(Rows(s.files, p), Rows(s.log, p))
      && (h in s.returned && h < |s.handles| && !s.handles[h].closed ==>
            IsNewest(s.handles[h].rows, Rows(s.log, s.handles[h].path)))
  {
    var s := Replay(r).value;
    FilesFollowLogExactly(r);
    LastRowsAreNewest(Rows(s.files, p), Rows(s.log, p));
    if h < |s.handles| { LastRowsAreNewest(s.handles[h].rows, Rows(s.log, s.handles[h].path)); }
  }

  /** A row stored through an engine in use is the last row of its log, of the engine and of the
      file, whatever was there before. */
  lemma StoredIsNewest(s: State, h: Handle, row: string)
    requires Core(s) && Ordered(s) && FilesOk(s) && Enabled(s, Write(h, row))
    ensures var s', p := Apply(s, Write(h, row)), s.handles[h].path;
      && Rows(s'.log, p) == Rows(s.log, p) + [row] && Rows(s'.files, p) != []
      && Rows(s'.files, p)[|Rows(s'.files, p)| - 1] == row && s'.handles[h].rows == Rows(s'.files, p)
  {
    var s', p := Apply(s, Write(h, row)), s.handles[h].path;
    WriteFiles(s, h, row);
    LastRowsAreNewest(Rows(s'.files, p), Rows(s'.log, p));
    var f, l := Rows(s'.files, p), Rows(s'.log, p);
    assert f[|f| - 1] == l[|l| - 1];
  }
}
