/** The engine lifecycle of plugin/store.go as a state machine.  Every thread is a
    program counter; one step is one critical section under `s.mu`, one acquisition of
    `openMu`, one channel or WaitGroup wait, or one call on an engine.  Releases are
    folded into the step they end.  An engine is the file-backed one of
    plugin/engine_stub.go: it caches the rows of its file and rewrites the whole file. */
module Lifecycle {
  import opened Configs
  import opened EngineTable
  import opened Wrappers

  type Tid = nat
  type Handle = nat

  datatype Path = Path(dir: string, key: string)

  datatype Engine = Engine(path: Path, rows: seq<string>, closed: bool)

  const MAX_ROWS := 256

  function LastRows(rows: seq<string>): seq<string> {
    if |rows| > MAX_ROWS then rows[|rows| - MAX_ROWS..] else rows
  }

  datatype Stage = Consolidating | Flushing | Finishing

  datatype Pc =
    // ForScope
    | Called(key: string)
    | Lookup(key: string)
    | WantOpen(key: string, cfg: Config)
    | WaitCheck(key: string, cfg: Config, woken: bool)
    | Blocked(key: string, cfg: Config, closer: Tid)
    | Recheck(key: string, cfg: Config)
    | Opening(key: string, cfg: Config)
    | Opened(key: string, cfg: Config, eng: Handle)
    | Got(eng: Handle)
    | Failed
    // the goroutine that closes an engine whose open was discarded
    | Discarding(eng: Handle)
    // closeEngines
    | Closing(doomed: seq<Doomed<Handle>>, at: nat, stage: Stage, auto: bool, detached: bool)
    // DisposeAll
    | DisposeCalled | DisposeDrain | DisposeWait | Disposed
    // Prewarm
    | PrewarmCalled | PrewarmGate | PrewarmWant | PrewarmOpen
    // a goroutine about to run its deferred closeWg.Done, and one that has ended
    | Leaving | Done

  /** A close channel is identified by its scope and the thread that will close it.
      `returned` and `log` are history: every engine ForScope ever installed, and every
      row a durable write reported as stored. */
  datatype State = State(
    cfg: Config,
    closed: bool,
    tab: Table<Handle>,
    closings: map<string, Tid>,
    signalled: set<(string, Tid)>,
    openMu: Option<Tid>,
    wg: int,
    handles: seq<Engine>,
    files: map<Path, seq<string>>,
    threads: seq<Pc>,
    returned: set<Handle>,
    log: map<Path, seq<string>>)

  function Init(cfg: Config): State {
    State(cfg, false, Empty(), map[], {}, None, 0, [], map[], [], {}, map[])
  }

  datatype Action =
    | CallForScope(key: string)
    | CallDisposeAll
    | CallPrewarm
    | Reconfigure(cfg: Config, doomed: seq<Doomed<Handle>>)
    | Write(eng: Handle, row: string)
    // thread t takes its next step; `ok` is whether an open succeeds, `doomed` the
    // order in which a drain meets the engines
    | Advance(t: Tid, ok: bool, doomed: seq<Doomed<Handle>>)

  function Rows(m: map<Path, seq<string>>, p: Path): seq<string> {
    if p in m then m[p] else []
  }

  function At(s: State, t: Tid, pc: Pc): State
    requires t < |s.threads|
  {
    s.(threads := s.threads[t := pc])
  }

  function Spawn(s: State, pc: Pc): State { s.(threads := s.threads + [pc]) }

  function Keys(doomed: seq<Doomed<Handle>>): set<string> {
    set d | d in doomed :: d.key
  }

  /** Drained engines leave the table and each gets a close channel owned by `closer`. */
  function Mark(s: State, doomed: seq<Doomed<Handle>>, closer: Tid): State {
    s.(closings := s.closings + map k | k in Keys(doomed) :: closer)
  }

  /** persistLocked: the engine rewrites its whole file from its own rows. */
  function Persist(s: State, h: Handle): State {
    if h < |s.handles| then s.(files := s.files[s.handles[h].path := s.handles[h].rows]) else s
  }

  function CloseEngine(s: State, h: Handle): State {
    if h < |s.handles| then
      Persist(s, h).(handles := s.handles[h := s.handles[h].(closed := true)])
    else s
  }

  function StartClosing(doomed: seq<Doomed<Handle>>, auto: bool, detached: bool): Pc {
    Closing(doomed, 0, if auto then Consolidating else Flushing, auto, detached)
  }

  function Install(s: State, t: Tid): State
    requires t < |s.threads| && s.threads[t].Opened?
  {
    var pc := s.threads[t];
    var s1 := At(s, t, Got(pc.eng)).(openMu := None, returned := s.returned + {pc.eng});
    var inserted := Insert(s.tab, pc.key, pc.eng);
    var doomed := Evicted(inserted);
    var s2 := s1.(tab := Shrunk(inserted));
    if doomed == [] then s2
    else Spawn(Mark(s2, doomed, |s.threads|), StartClosing(doomed, s.cfg.autoConsolidate, true)).(wg := s.wg + 1)
  }

  function Discard(s: State, t: Tid): State
    requires t < |s.threads| && s.threads[t].Opened?
  {
    Spawn(At(s, t, Failed).(openMu := None), Discarding(s.threads[t].eng))
  }

  function CloseStep(s: State, t: Tid): State
    requires t < |s.threads| && s.threads[t].Closing? && s.threads[t].at < |s.threads[t].doomed|
  {
    var pc := s.threads[t];
    var h := pc.doomed[pc.at].eng;
    match pc.stage
    case Consolidating => At(s, t, pc.(stage := Flushing))
    case Flushing => At(Persist(s, h), t, pc.(stage := Finishing))
    case Finishing =>
      At(CloseEngine(s, h), t, pc.(at := pc.at + 1, stage := if pc.auto then Consolidating else Flushing))
  }

  /** The last section of closeEngines: drop the markers and wake the waiters. */
  function SignalStep(s: State, t: Tid): State
    requires t < |s.threads| && s.threads[t].Closing?
  {
    var keys := Keys(s.threads[t].doomed);
    At(s, t, if s.threads[t].detached then Leaving else DisposeWait).(
      closings := s.closings - keys,
      signalled := s.signalled + set k | k in keys && k in s.closings :: (k, s.closings[k]))
  }

  function OpenSucceeds(s: State, t: Tid): State
    requires t < |s.threads| && s.threads[t].Opening?
  {
    var pc := s.threads[t];
    var p := Path(pc.cfg.dataDir, pc.key);
    At(s, t, Opened(pc.key, pc.cfg, |s.handles|)).(handles := s.handles + [Engine(p, Rows(s.files, p), false)])
  }

  function DrainForDispose(s: State, t: Tid, doomed: seq<Doomed<Handle>>): State
    requires t < |s.threads|
  {
    At(Mark(s, doomed, t), t,
      if doomed == [] then DisposeWait else StartClosing(doomed, s.cfg.autoConsolidate, false)).(tab := Empty())
  }

  // ForScope, before it has an engine to install

  function Enter(s: State, t: Tid): State
    requires t < |s.threads| && s.threads[t].Called?
  {
    var key := s.threads[t].key;
    At(s, t, if key == "" || s.closed then Failed else Lookup(key))
  }

  function LookUp(s: State, t: Tid): State
    requires t < |s.threads| && s.threads[t].Lookup?
  {
    var key := s.threads[t].key;
    if key in s.tab.engines
    then At(s, t, Got(s.tab.engines[key])).(tab := Bump(s.tab, key))
    else At(s, t, WantOpen(key, s.cfg))
  }

  function AcquireOpenMu(s: State, t: Tid): State
    requires t < |s.threads| && s.threads[t].WantOpen?
  {
    At(s, t, WaitCheck(s.threads[t].key, s.threads[t].cfg, false)).(openMu := Some(t))
  }

  function CheckPendingClose(s: State, t: Tid): State
    requires t < |s.threads| && s.threads[t].WaitCheck?
  {
    var pc := s.threads[t];
    At(s, t, if pc.key in s.closings then Blocked(pc.key, pc.cfg, s.closings[pc.key]) else Recheck(pc.key, pc.cfg))
  }

  function Wake(s: State, t: Tid): State
    requires t < |s.threads| && s.threads[t].Blocked?
  {
    At(s, t, WaitCheck(s.threads[t].key, s.threads[t].cfg, true))
  }

  function RecheckTable(s: State, t: Tid): State
    requires t < |s.threads| && s.threads[t].Recheck?
  {
    var pc := s.threads[t];
    if pc.key in s.tab.engines
    then At(s, t, Got(s.tab.engines[pc.key])).(openMu := None)
    else At(s, t, Opening(pc.key, pc.cfg))
  }

  function OpenFails(s: State, t: Tid): State
    requires t < |s.threads| && s.threads[t].Opening?
  {
    At(s, t, Failed).(openMu := None)
  }

  // Prewarm and the end of a tracked goroutine

  function PrewarmStep(s: State, t: Tid): State
    requires t < |s.threads|
  {
    match s.threads[t]
    case PrewarmCalled => At(s, t, if s.cfg.dataDir == "" then Done else PrewarmGate)
    case PrewarmGate => if s.closed then At(s, t, Done) else At(s, t, PrewarmWant).(wg := s.wg + 1)
    case PrewarmWant => At(s, t, PrewarmOpen).(openMu := Some(t))
    case PrewarmOpen => At(s, t, Leaving).(openMu := None)
    case Leaving => At(s, t, Done).(wg := s.wg - 1)
    case _ => s
  }

  function Advanced(s: State, t: Tid, ok: bool, doomed: seq<Doomed<Handle>>): State
    requires t < |s.threads|
  {
    var pc := s.threads[t];
    match pc
    case Called(_) => Enter(s, t)
    case Lookup(_) => LookUp(s, t)
    case WantOpen(_, _) => AcquireOpenMu(s, t)
    case WaitCheck(_, _, _) => CheckPendingClose(s, t)
    case Blocked(_, _, _) => Wake(s, t)
    case Recheck(_, _) => RecheckTable(s, t)
    case Opening(_, _) => if ok then OpenSucceeds(s, t) else OpenFails(s, t)
    case Opened(_, cfg, _) => if s.closed || MaterialChange(cfg, s.cfg) then Discard(s, t) else Install(s, t)
    case Discarding(h) => At(CloseEngine(s, h), t, Done)
    case Closing(_, _, _, _, _) => if pc.at < |pc.doomed| then CloseStep(s, t) else SignalStep(s, t)
    case DisposeCalled => At(s, t, DisposeDrain).(closed := true)
    case DisposeDrain => DrainForDispose(s, t, doomed)
    case DisposeWait => At(s, t, Disposed)
    case _ => PrewarmStep(s, t)
  }

  predicate Ended(pc: Pc) { pc.Got? || pc.Failed? || pc.Disposed? || pc.Done? }

  /** Thread t can take its next step: a mutex is free, a channel closed, a group empty. */
  predicate CanAdvance(s: State, t: Tid) {
    && t < |s.threads|
    && !Ended(s.threads[t])
    && match s.threads[t]
       case WantOpen(_, _) => s.openMu == None
       case PrewarmWant => s.openMu == None
       case Blocked(key, _, closer) => (key, closer) in s.signalled
       case DisposeWait => s.wg == 0
       case _ => true
  }

  ghost predicate Enabled(s: State, a: Action) {
    match a
    case CallForScope(_) => true
    case CallDisposeAll => true
    case CallPrewarm => true
    case Reconfigure(cfg, doomed) =>
      if MaterialChange(s.cfg, cfg) then Lists(doomed, s.tab.engines) else doomed == []
    case Write(h, _) => h in s.returned && h < |s.handles| && !s.handles[h].closed
    case Advance(t, _, doomed) =>
      CanAdvance(s, t) && (s.threads[t].DisposeDrain? ==> Lists(doomed, s.tab.engines))
  }

  function Reconfigured(s: State, cfg: Config, doomed: seq<Doomed<Handle>>): State {
    var s1 := s.(cfg := cfg, tab := if MaterialChange(s.cfg, cfg) then Empty() else s.tab);
    if doomed == [] then s1
    else Spawn(Mark(s1, doomed, |s.threads|), StartClosing(doomed, cfg.autoConsolidate, true)).(wg := s.wg + 1)
  }

  function Written(s: State, h: Handle, row: string): State
    requires h < |s.handles|
  {
    var p := s.handles[h].path;
    Persist(s.(handles := s.handles[h := s.handles[h].(rows := LastRows(s.handles[h].rows + [row]))]), h)
    .(log := s.log[p := Rows(s.log, p) + [row]])
  }

  function Apply(s: State, a: Action): State
    requires Enabled(s, a)
  {
    match a
    case CallForScope(key) => Spawn(s, Called(key))
    case CallDisposeAll => Spawn(s, DisposeCalled)
    case CallPrewarm => Spawn(s, PrewarmCalled)
    case Reconfigure(cfg, doomed) => Reconfigured(s, cfg, doomed)
    case Write(h, row) => Written(s, h, row)
    case Advance(t, ok, doomed) => Advanced(s, t, ok, doomed)
  }

  /** A finite execution, and the state it ends in if each of its actions was enabled. */
  datatype Run = Start(cfg: Config) | Then(prefix: Run, action: Action)

  ghost function Replay(r: Run): Option<State> {
    match r
    case Start(cfg) => Some(Init(cfg))
    case Then(p, a) =>
      if Replay(p).Some? && Enabled(Replay(p).value, a) then Some(Apply(Replay(p).value, a)) else None
  }
}
