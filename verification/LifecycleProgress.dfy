/** Nobody waits for ever: every blocked ForScope has a running batch that will wake it,
    and some thread can always move. */
module LifecycleProgress {
  import opened EngineTable
  import opened Lifecycle
  import opened LifecycleCore
  import opened LifecycleOrder

  /** The steps a batch still has to take before its channels are closed. */
  function Work(pc: Pc): nat {
    if pc.Closing? && pc.at <= |pc.doomed| then
      3 * (|pc.doomed| - pc.at) + 3 - (match pc.stage case Consolidating => 0 case Flushing => 1 case Finishing => 2)
    else 0
  }

  /** The other threads stay where they are and no closed channel is reopened. */
  ghost predicate Isolated(s: State, s': State, t: Tid) {
    && |s.threads| <= |s'.threads| && s.signalled <= s'.signalled
    && (forall c :: 0 <= c < |s.threads| && c != t ==> s'.threads[c] == s.threads[c])
  }

  lemma OpeningIsolated(s: State, t: Tid, ok: bool)
    requires t < |s.threads| && (s.threads[t].Opening? || s.threads[t].Opened?)
    ensures Isolated(s, Advanced(s, t, ok, []), t)
  {
  }

  lemma ClosingIsolated(s: State, t: Tid, ok: bool)
    requires t < |s.threads| && s.threads[t].Closing?
    ensures Isolated(s, Advanced(s, t, ok, []), t)
  {
    if s.threads[t].at < |s.threads[t].doomed| { assert Isolated(s, CloseStep(s, t), t); }
  }

  predicate PastLookup(pc: Pc) {
    pc.WantOpen? || pc.WaitCheck? || pc.Blocked? || pc.Recheck? || pc.Opening? || pc.Opened?
  }

  lemma WaitingIsolated(s: State, t: Tid, ok: bool)
    requires t < |s.threads|
    requires var pc := s.threads[t]; pc.WantOpen? || pc.WaitCheck? || pc.Blocked? || pc.Recheck?
    ensures Isolated(s, Advanced(s, t, ok, []), t)
  {
  }

  lemma PrewarmIsolated(s: State, t: Tid)
    requires t < |s.threads|
    ensures Isolated(s, PrewarmStep(s, t), t)
  {
  }

  lemma DrainIsolated(s: State, t: Tid, doomed: seq<Doomed<Handle>>)
    requires t < |s.threads|
    ensures Isolated(s, DrainForDispose(s, t, doomed), t)
  {
  }

  lemma RestIsolated(s: State, t: Tid, ok: bool, doomed: seq<Doomed<Handle>>)
    requires t < |s.threads|
    requires !PastLookup(s.threads[t]) && !s.threads[t].Closing?
    ensures Isolated(s, Advanced(s, t, ok, doomed), t)
  {
    PrewarmIsolated(s, t);
    match s.threads[t]
    case Called(_) => assert Isolated(s, Enter(s, t), t);
    case Lookup(_) => assert Isolated(s, LookUp(s, t), t);
    case DisposeDrain => DrainIsolated(s, t, doomed);
    case _ =>
  }

  /** The thread an action moves, or the one it starts. */
  function Actor(s: State, a: Action): Tid {
    if a.Advance? then a.t else |s.threads|
  }

  lemma StepIsolated(s: State, a: Action)
    requires Enabled(s, a)
    ensures Isolated(s, Apply(s, a), Actor(s, a))
  {
    if a.Advance? {
      var pc := s.threads[a.t];
      if pc.Closing? {
        ClosingIsolated(s, a.t, a.ok);
      } else if pc.Opening? || pc.Opened? {
        OpeningIsolated(s, a.t, a.ok);
      } else if pc.WantOpen? || pc.WaitCheck? || pc.Blocked? || pc.Recheck? {
        WaitingIsolated(s, a.t, a.ok);
      } else {
        RestIsolated(s, a.t, a.ok, a.doomed);
      }
    }
  }

  lemma CloseStepWorks(s: State, c: Tid)
    requires c < |s.threads| && s.threads[c].Closing? && s.threads[c].at < |s.threads[c].doomed|
    ensures var pc := CloseStep(s, c).threads[c];
      pc.Closing? && pc.doomed == s.threads[c].doomed && Work(pc) < Work(s.threads[c])
  {
    CloseStepForms(s, c);
    NextIsLess(s.threads[c]);
  }

  lemma NextIsLess(pc: Pc)
    requires pc.Closing? && pc.at < |pc.doomed|
    ensures Work(LifecycleOrder.After(pc)) < Work(pc) || !pc.stage.Finishing?
    ensures pc.stage.Consolidating? ==> Work(pc.(stage := Flushing)) < Work(pc)
    ensures pc.stage.Flushing? ==> Work(pc.(stage := Finishing)) < Work(pc)
  {
  }

  lemma SignalStepWakes(s: State, c: Tid, key: string)
    requires MarkersOk(s) && c < |s.threads| && s.threads[c].Closing? && HasKey(s.threads[c].doomed, key)
    ensures (key, c) in SignalStep(s, c).signalled
  {
    KeysMean(s.threads[c].doomed, key);
  }

  /** Each step of a batch is possible whatever locks are held, and brings it closer to
      waking everyone who waits for one of its scopes. */
  lemma BatchStep(s: State, c: Tid, ok: bool, doomed: seq<Doomed<Handle>>, key: string)
    requires Ordered(s) && c < |s.threads| && s.threads[c].Closing? && HasKey(s.threads[c].doomed, key)
    ensures CanAdvance(s, c)
    ensures var s' := Advanced(s, c, ok, doomed);
      (s'.threads[c].Closing? && HasKey(s'.threads[c].doomed, key) && Work(s'.threads[c]) < Work(s.threads[c]))
      || (key, c) in s'.signalled
  {
    if s.threads[c].at < |s.threads[c].doomed| { CloseStepWorks(s, c); } else { SignalStepWakes(s, c, key); }
  }

  /** How many steps thread `c` takes after the prefix `p` of the run. */
  ghost function Turns(r: Run, p: Run, c: Tid): nat
    requires Continues(r, p)
  {
    if r == p then 0
    else Turns(r.prefix, p, c) + if r.action.Advance? && r.action.t == c then 1 else 0
  }

  lemma {:induction false} BatchFinishes(p: Run, r: Run, c: Tid, key: string)
    requires Continues(r, p) && Replay(p).Some? && Replay(r).Some? && CleanInstalls(r)
    requires var s := Replay(p).value; c < |s.threads| && s.threads[c].Closing? && HasKey(s.threads[c].doomed, key)
    ensures var s, s' := Replay(p).value, Replay(r).value;
      (key, c) in s'.signalled
      || (c < |s'.threads| && s'.threads[c].Closing? && HasKey(s'.threads[c].doomed, key)
          && Work(s'.threads[c]) + Turns(r, p, c) <= Work(s.threads[c]))
  {
    if r != p {
      BatchFinishes(p, r.prefix, c, key);
      RunsKeepOrdered(r.prefix);
      var s := Replay(r.prefix).value;
      StepIsolated(s, r.action);
      if (key, c) !in s.signalled && r.action.Advance? && r.action.t == c {
        BatchStep(s, c, r.action.ok, r.action.doomed, key);
      }
    }
  }

  /** A batch that has taken as many steps as it had to take has closed its channels. */
  lemma EnoughTurns(p: Run, r: Run, c: Tid, key: string)
    requires Continues(r, p) && Replay(p).Some? && Replay(r).Some? && CleanInstalls(r)
    requires var s := Replay(p).value; c < |s.threads| && s.threads[c].Closing? && HasKey(s.threads[c].doomed, key)
    requires Turns(r, p, c) >= Work(Replay(p).value.threads[c])
    ensures (key, c) in Replay(r).value.signalled
  {
    var s := Replay(r).value;
    BatchFinishes(p, r, c, key);
    RunsKeepCore(r);
    assert c < |s.threads| ==> ThreadOk(s, s.threads[c]);
  }

  /** A ForScope call blocked on a close channel is free to go on, or else the batch that
      will close it is running, can take its next step whatever locks are held, and wakes
      the call after at most `Work` of its own steps, however they are interleaved. */
  lemma BlockedIsWoken(p: Run, t: Tid)
    requires Replay(p).Some? && CleanInstalls(p)
    requires t < |Replay(p).value.threads| && Replay(p).value.threads[t].Blocked?
    ensures var s := Replay(p).value; var key, c := s.threads[t].key, s.threads[t].closer;
      CanAdvance(s, t) ||
      (c < |s.threads| && s.threads[c].Closing? && HasKey(s.threads[c].doomed, key) && CanAdvance(s, c)
       && (forall r ::
             Continues(r, p) && Replay(r).Some? && CleanInstalls(r) && Turns(r, p, c) >= Work(s.threads[c]) ==>
               (key, c) in Replay(r).value.signalled))
  {
    var s := Replay(p).value;
    RunsKeepOrdered(p);
    assert WaitOk(s, s.threads[t]);
    var key, c := s.threads[t].key, s.threads[t].closer;
    if (key, c) !in s.signalled {
      forall r | Continues(r, p) && Replay(r).Some? && CleanInstalls(r) && Turns(r, p, c) >= Work(s.threads[c])
        ensures (key, c) in Replay(r).value.signalled
      {
        EnoughTurns(p, r, c, key);
      }
    }
  }

  /** Under openMu, waitPendingClose blocks at most once: after a wake the scope has no
      marker and cannot get one. */
  lemma WaitsAtMostOnce(r: Run, t: Tid)
    requires Replay(r).Some? && CleanInstalls(r)
    requires t < |Replay(r).value.threads| && Replay(r).value.threads[t].WaitCheck? && Replay(r).value.threads[t].woken
    ensures CheckPendingClose(Replay(r).value, t).threads[t].Recheck?
  {
    RunsKeepOrdered(r);
    assert WaitOk(Replay(r).value, Replay(r).value.threads[t]);
  }

  ghost predicate SomeCanAdvance(s: State) {
    exists t :: CanAdvance(s, t)
  }

  lemma BlockedProgress(s: State, t: Tid)
    requires Core(s) && Ordered(s) && t < |s.threads| && s.threads[t].Blocked?
    ensures SomeCanAdvance(s)
  {
    assert WaitOk(s, s.threads[t]);
    if (s.threads[t].key, s.threads[t].closer) in s.signalled {
      assert CanAdvance(s, t);
    } else {
      assert CanAdvance(s, s.threads[t].closer);
    }
  }

  lemma LockProgress(s: State)
    requires Core(s) && Ordered(s) && s.openMu.Some?
    ensures SomeCanAdvance(s)
  {
    var u := s.openMu.value;
    if s.threads[u].Blocked? { BlockedProgress(s, u); } else { assert CanAdvance(s, u); }
  }

  lemma GroupProgress(s: State)
    requires Core(s) && Ordered(s) && s.wg != 0
    ensures SomeCanAdvance(s)
  {
    HolderCounts(s.threads);
    var u :| 0 <= u < |s.threads| && HoldsWg(s.threads[u]);
    if CanAdvance(s, u) { } else { LockProgress(s); }
  }

  /** No deadlock: in every run whose installs are clean, while some thread has not
      ended, some thread can take its next step. */
  lemma NoDeadlock(r: Run, t: Tid)
    requires Replay(r).Some? && CleanInstalls(r)
    requires t < |Replay(r).value.threads| && !Ended(Replay(r).value.threads[t])
    ensures exists a: Action :: a.Advance? && Enabled(Replay(r).value, a)
  {
    var s := Replay(r).value;
    RunsKeepOrdered(r);
    if CanAdvance(s, t) {
    } else if s.threads[t].Blocked? {
      BlockedProgress(s, t);
    } else if s.threads[t].DisposeWait? {
      GroupProgress(s);
    } else {
      LockProgress(s);
    }
    var u :| CanAdvance(s, u);
    var doomed := seq(|s.tab.order|, i requires 0 <= i < |s.tab.order| =>
      Doomed(s.tab.order[i], if s.tab.order[i] in s.tab.engines then s.tab.engines[s.tab.order[i]] else 0));
    OrderLists(s.tab, doomed);
    assert Enabled(s, Advance(u, true, doomed));
  }

  lemma OrderLists(tab: Table<Handle>, doomed: seq<Doomed<Handle>>)
    requires TableOk(tab) && |doomed| == |tab.order|
    requires forall i :: 0 <= i < |doomed| ==>
      doomed[i].key == tab.order[i] && (tab.order[i] in tab.engines ==> doomed[i].eng == tab.engines[tab.order[i]])
    ensures Lists(doomed, tab.engines)
  {
    forall i | 0 <= i < |doomed| ensures doomed[i].key in tab.engines { assert tab.order[i] in tab.order; }
    forall k | k in tab.engines ensures HasKey(doomed, k) {
      assert k in tab.order;
      var i :| 0 <= i < |tab.order| && tab.order[i] == k;
      assert doomed[i].key == k;
    }
  }
}
