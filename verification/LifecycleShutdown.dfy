/** Shutdown closes everything.  The plugin makes one DisposeAll call on a store: its exported
    shutdown function holds a lock across the call and forgets the store after it. */
module LifecycleShutdown {
  import opened Configs
  import opened EngineTable
  import opened Lifecycle
  import opened LifecycleCore
  import opened LifecycleOrder

  /** A thread that runs DisposeAll. */
  predicate Disposer(pc: Pc) {
    pc.DisposeCalled? || pc.DisposeDrain? || AfterDrain(pc)
  }

  /** How often DisposeAll is called in a run. */
  ghost function Shutdowns(r: Run): nat {
    match r
    case Start(_) => 0
    case Then(p, a) => Shutdowns(p) + if a.CallDisposeAll? then 1 else 0
  }

  /** Every thread of `s'` that runs DisposeAll did so in `s`. */
  ghost predicate NoMoreDisposers(s: State, s': State) {
    forall t :: 0 <= t < |s'.threads| && Disposer(s'.threads[t]) ==> t < |s.threads| && Disposer(s.threads[t])
  }

  lemma EarlyDisposers(s: State, t: Tid)
    requires t < |s.threads|
    ensures s.threads[t].Called? ==> NoMoreDisposers(s, Enter(s, t))
    ensures s.threads[t].Lookup? ==> NoMoreDisposers(s, LookUp(s, t))
    ensures s.threads[t].WantOpen? ==> NoMoreDisposers(s, AcquireOpenMu(s, t))
  {
  }

  lemma WaitDisposers(s: State, t: Tid)
    requires t < |s.threads|
    ensures s.threads[t].WaitCheck? ==> NoMoreDisposers(s, CheckPendingClose(s, t))
    ensures s.threads[t].Blocked? ==> NoMoreDisposers(s, Wake(s, t))
    ensures s.threads[t].Recheck? ==> NoMoreDisposers(s, RecheckTable(s, t))
  {
  }

  lemma OpenDisposers(s: State, t: Tid)
    requires t < |s.threads|
    ensures s.threads[t].Opening? ==> NoMoreDisposers(s, OpenSucceeds(s, t)) && NoMoreDisposers(s, OpenFails(s, t))
    ensures s.threads[t].Opened? ==> NoMoreDisposers(s, Discard(s, t))
  {
  }

  lemma InstallDisposers(s: State, t: Tid)
    requires t < |s.threads| && s.threads[t].Opened?
    ensures NoMoreDisposers(s, Install(s, t))
  {
  }

  lemma CloseDisposers(s: State, t: Tid)
    requires t < |s.threads|
    ensures s.threads[t].Closing? && s.threads[t].at < |s.threads[t].doomed| ==> NoMoreDisposers(s, CloseStep(s, t))
    ensures s.threads[t].Discarding? ==> NoMoreDisposers(s, At(CloseEngine(s, s.threads[t].eng), t, Done))
  {
  }

  lemma LateDisposers(s: State, t: Tid, doomed: seq<Doomed<Handle>>)
    requires t < |s.threads|
    ensures s.threads[t].Closing? ==> NoMoreDisposers(s, SignalStep(s, t))
    ensures s.threads[t].DisposeDrain? ==> NoMoreDisposers(s, DrainForDispose(s, t, doomed))
    ensures !Disposer(s.threads[t]) ==> NoMoreDisposers(s, PrewarmStep(s, t))
  {
  }

  lemma AdvanceDisposers(s: State, t: Tid, ok: bool, doomed: seq<Doomed<Handle>>)
    requires CanAdvance(s, t)
    ensures NoMoreDisposers(s, Advanced(s, t, ok, doomed))
  {
    var pc := s.threads[t];
    if pc.Called? || pc.Lookup? || pc.WantOpen? {
      EarlyDisposers(s, t);
    } else if pc.WaitCheck? || pc.Blocked? || pc.Recheck? {
      WaitDisposers(s, t);
    } else if pc.Opening? || pc.Opened? {
      OpenDisposers(s, t);
      if pc.Opened? { InstallDisposers(s, t); }
    } else if pc.Discarding? || (pc.Closing? && pc.at < |pc.doomed|) {
      CloseDisposers(s, t);
    } else {
      LateDisposers(s, t, doomed);
    }
  }

  lemma ReconfigureDisposers(s: State, cfg: Config, doomed: seq<Doomed<Handle>>)
    ensures NoMoreDisposers(s, Reconfigured(s, cfg, doomed))
  {
  }

  /** Only a call of DisposeAll starts a thread that runs it. */
  lemma OnlyCallsDispose(s: State, a: Action)
    requires Enabled(s, a)
    ensures !a.CallDisposeAll? ==> NoMoreDisposers(s, Apply(s, a))
  {
    match a
    case Advance(t, ok, doomed) => AdvanceDisposers(s, t, ok, doomed);
    case Reconfigure(cfg, doomed) => ReconfigureDisposers(s, cfg, doomed);
    case _ =>
  }

  /** No more threads run DisposeAll than there were calls, for none and for one. */
  lemma {:induction false} OneDisposer(r: Run)
    requires Replay(r).Some? && Shutdowns(r) <= 1
    ensures var threads := Replay(r).value.threads;
      && (Shutdowns(r) == 0 ==> forall t :: 0 <= t < |threads| ==> !Disposer(threads[t]))
      && (forall t, u :: 0 <= t < |threads| && 0 <= u < |threads| && Disposer(threads[t]) && Disposer(threads[u]) ==>
            t == u)
  {
    if r.Then? {
      OneDisposer(r.prefix);
      OnlyCallsDispose(Replay(r.prefix).value, r.action);
    }
  }

  /** In every run with one DisposeAll call, once it has returned every engine that ForScope
      ever returned is closed. */
  lemma SingleDisposeClosesAll(r: Run, t: Tid, h: Handle)
    requires Replay(r).Some? && Shutdowns(r) <= 1
    requires t < |Replay(r).value.threads| && Replay(r).value.threads[t].Disposed?
    requires h in Replay(r).value.returned
    ensures h < |Replay(r).value.handles| && Replay(r).value.handles[h].closed
  {
    var s := Replay(r).value;
    DisposeAllIsTerminal(r, t);
    OneDisposer(r);
    if !s.handles[h].closed {
      var u :| 0 <= u < |s.threads| && Pending(s.threads[u], h) && !s.threads[u].detached;
      assert Disposer(s.threads[u]) && Disposer(s.threads[t]);
    }
  }

  /** With more calls than one: what is still open then is exactly what another call that is
      still running has yet to close. */
  lemma StillOpenExactly(r: Run, t: Tid, h: Handle)
    requires Replay(r).Some? && CleanInstalls(r)
    requires t < |Replay(r).value.threads| && Replay(r).value.threads[t].Disposed?
    requires h in Replay(r).value.returned
    ensures h < |Replay(r).value.handles|
    ensures !Replay(r).value.handles[h].closed <==> StillDisposing(Replay(r).value, h)
  {
    var s := Replay(r).value;
    DisposeAllIsTerminal(r, t);
    RunsKeepOrdered(r);
    if StillDisposing(s, h) {
      var u :| 0 <= u < |s.threads| && Pending(s.threads[u], h) && !s.threads[u].detached;
      var i :| s.threads[u].at <= i < |s.threads[u].doomed| && s.threads[u].doomed[i].eng == h;
    }
  }
}
