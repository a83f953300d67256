/** What an engine has read: until it is returned it holds the rows of its file as they were
    when it was opened, so it is up to date as long as the last rows of its scope stay the same. */
module LifecycleReads {
  import opened Lifecycle
  import opened LifecycleCore
  import opened LifecycleFiles

  /** Engines keep their rows, unless they are written through; returned engines stay returned. */
  ghost predicate KeepsRows(s: State, s': State) {
    && |s.handles| <= |s'.handles| && s.returned <= s'.returned
    && forall h :: 0 <= h < |s.handles| && h !in s.returned ==>
         s'.handles[h].rows == s.handles[h].rows && s'.handles[h].path == s.handles[h].path
  }

  predicate Opens(s: State, a: Action) {
    a.Advance? && a.t < |s.threads| && s.threads[a.t].Opening? && a.ok
  }

  lemma DecisionsKeepRows(s: State, t: Tid)
    requires t < |s.threads|
    ensures s.threads[t].Opened? ==> KeepsRows(s, Discard(s, t)) && Discard(s, t).handles == s.handles
    ensures s.threads[t].Opened? ==> KeepsRows(s, Install(s, t)) && Install(s, t).handles == s.handles
  {
  }

  lemma DiscardingKeepsRows(s: State, t: Tid)
    requires t < |s.threads| && s.threads[t].Discarding?
    ensures var s' := At(CloseEngine(s, s.threads[t].eng), t, Done); KeepsRows(s, s') && |s'.handles| == |s.handles|
  {
  }

  lemma CloseStepKeepsRows(s: State, t: Tid)
    requires t < |s.threads| && s.threads[t].Closing? && s.threads[t].at < |s.threads[t].doomed|
    ensures KeepsRows(s, CloseStep(s, t)) && |CloseStep(s, t).handles| == |s.handles|
  {
  }

  lemma StepKeepsRows(s: State, a: Action)
    requires Enabled(s, a)
    ensures KeepsRows(s, Apply(s, a))
    ensures Opens(s, a) ==> Apply(s, a) == OpenSucceeds(s, a.t)
    ensures !Opens(s, a) ==> |Apply(s, a).handles| == |s.handles|
  {
    if a.Advance? && !Opens(s, a) {
      if Moves(s, a.t) {
        MovesUntouched(s, a.t, a.doomed);
      } else if s.threads[a.t].Closing? {
        CloseStepKeepsRows(s, a.t);
      } else if s.threads[a.t].Discarding? {
        DiscardingKeepsRows(s, a.t);
      } else {
        DecisionsKeepRows(s, a.t);
      }
    }
  }

  /** The last step of `p` opened engine `h`. */
  ghost predicate OpenedBy(p: Run, h: Handle) {
    && p.Then? && Replay(p).Some?
    && Opens(Replay(p.prefix).value, p.action) && |Replay(p.prefix).value.handles| == h
  }

  /** Every engine was opened by some step of the run. */
  lemma {:induction false} WasOpened(r: Run, h: Handle) returns (p: Run)
    requires Replay(r).Some? && h < |Replay(r).value.handles|
    ensures Continues(r, p) && OpenedBy(p, h)
  {
    StepKeepsRows(Replay(r.prefix).value, r.action);
    if h < |Replay(r.prefix).value.handles| {
      p := WasOpened(r.prefix, h);
    } else {
      p := r;
    }
  }

  lemma {:induction false} PrefixOk(p: Run, r: Run)
    requires Continues(r, p) && AlwaysOk(r)
    ensures AlwaysOk(p)
  {
    if r != p { PrefixOk(p, r.prefix); }
  }

  /** Until it is returned, an engine has the rows and the file it was opened with. */
  lemma {:induction false} UnreturnedKeepsRows(p: Run, r: Run, h: Handle)
    requires Continues(r, p) && Replay(p).Some? && Replay(r).Some?
    requires h < |Replay(p).value.handles| && h !in Replay(r).value.returned
    ensures var s, s' := Replay(p).value, Replay(r).value;
      h < |s'.handles| && s'.handles[h].path == s.handles[h].path && s'.handles[h].rows == s.handles[h].rows
  {
    if r != p {
      StepKeepsRows(Replay(r.prefix).value, r.action);
      UnreturnedKeepsRows(p, r.prefix, h);
    }
  }

  /** An engine that a thread has opened, or is about to close because its open was discarded,
      is up to date, however much later, exactly when the last 256 rows of its scope are those
      of the step that opened it. */
  lemma UndecidedUpToDateExactly(r: Run, t: Tid) returns (p: Run)
    requires Replay(r).Some? && AlwaysOk(r) && t < |Replay(r).value.threads|
    requires Replay(r).value.threads[t].Opened? || Replay(r).value.threads[t].Discarding?
    ensures var s := Replay(r).value; var h := s.threads[t].eng;
      && h < |s.handles| && Continues(r, p) && OpenedBy(p, h)
      && (UpToDate(s, h) <==>
          LastRows(Rows(s.log, s.handles[h].path)) == LastRows(Rows(Replay(p).value.log, s.handles[h].path)))
  {
    var s := Replay(r).value;
    RunsKeepCore(r);
    assert ThreadOk(s, s.threads[t]);
    p := WasOpened(r, s.threads[t].eng);
    PrefixOk(p, r);
    UnreturnedKeepsRows(p, r, s.threads[t].eng);
    assert FilesFollow(Replay(p.prefix).value);
    StepKeepsRows(Replay(p.prefix).value, p.action);
  }
}
