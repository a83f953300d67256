/** Background consolidation of plugin/store.go: at most one loop per consolState, dues
    that arrive during a run coalesced into one more, and states that may be dropped or
    replaced under a running loop.  One step is one critical section, or the start of one
    engine Consolidate call. */
module Consolidation {

  type Id = nat

  /** `requested` and `started` are history: when this state was last asked to consolidate,
      and when the last Consolidate call of its loop began. */
  datatype ConsolState = ConsolState(running: bool, pending: bool, requested: nat, started: nat)

  datatype LoopPc = Starting | Consolidating | Stopped

  datatype Loop = Loop(scope: string, id: Id, pc: LoopPc)

  datatype State = State(consol: map<string, Id>, states: seq<ConsolState>, loops: seq<Loop>, clock: nat)

  const INIT := State(map[], [], [], 0)

  datatype Action =
    | Schedule(scope: string)
    | Begin(loop: nat)            // the loop calls eng.Consolidate
    | Check(loop: nat)            // the call returned; the loop looks at its state
    | Drop(scopes: set<string>)   // eviction or a drain deletes the states

  predicate Enabled(s: State, a: Action) {
    match a
    case Begin(l) => l < |s.loops| && s.loops[l].pc.Starting? && s.loops[l].id < |s.states|
    case Check(l) => l < |s.loops| && s.loops[l].pc.Consolidating? && s.loops[l].id < |s.states|
    case _ => true
  }

  predicate Current(s: State, scope: string, id: Id) {
    scope in s.consol && s.consol[scope] == id
  }

  function Scheduled(s: State, scope: string): State {
    if scope in s.consol && s.consol[scope] < |s.states| && s.states[s.consol[scope]].running then
      var id := s.consol[scope];
      s.(states := s.states[id := s.states[id].(pending := true, requested := s.clock)], clock := s.clock + 1)
    else if scope in s.consol && s.consol[scope] < |s.states| then
      var id := s.consol[scope];
      s.(states := s.states[id := s.states[id].(running := true, requested := s.clock)],
         loops := s.loops + [Loop(scope, id, Starting)], clock := s.clock + 1)
    else
      s.(consol := s.consol[scope := |s.states|], states := s.states + [ConsolState(true, false, s.clock, 0)],
         loops := s.loops + [Loop(scope, |s.states|, Starting)], clock := s.clock + 1)
  }

  function Begun(s: State, l: nat): State
    requires Enabled(s, Begin(l))
  {
    var id := s.loops[l].id;
    s.(states := s.states[id := s.states[id].(started := s.clock)],
       loops := s.loops[l := s.loops[l].(pc := Consolidating)], clock := s.clock + 1)
  }

  /** The section after a Consolidate call: stop without a trace if the state is not the
      scope's any more, run again if a due came meanwhile, else go idle. */
  function Checked(s: State, l: nat): State
    requires Enabled(s, Check(l))
  {
    var loop := s.loops[l];
    var st := s.states[loop.id];
    if !Current(s, loop.scope, loop.id) then s.(loops := s.loops[l := loop.(pc := Stopped)])
    else if st.pending then
      s.(states := s.states[loop.id := st.(pending := false)], loops := s.loops[l := loop.(pc := Starting)])
    else
      s.(states := s.states[loop.id := st.(running := false)], loops := s.loops[l := loop.(pc := Stopped)])
  }

  function Apply(s: State, a: Action): State
    requires Enabled(s, a)
  {
    match a
    case Schedule(scope) => Scheduled(s, scope)
    case Begin(l) => Begun(s, l)
    case Check(l) => Checked(s, l)
    case Drop(scopes) => s.(consol := s.consol - scopes)
  }

  predicate Alive(loop: Loop) { !loop.pc.Stopped? }

  /** Loop `l` is the one that works for state `id`. */
  predicate Works(s: State, l: nat, id: Id) {
    l < |s.loops| && Alive(s.loops[l]) && s.loops[l].id == id
  }

  ghost predicate HasLoop(s: State, id: Id) {
    exists l :: 0 <= l < |s.loops| && Works(s, l, id)
  }

  /** What a loop still owes its state: a call that begins after the last request. */
  predicate Owes(s: State, loop: Loop)
    requires loop.id < |s.states|
  {
    var st := s.states[loop.id];
    && (loop.pc.Consolidating? && !st.pending ==> st.started > st.requested)
    && st.running
  }

  /** States belong to one scope each, and loops work for the scope of their state. */
  ghost predicate Linked(s: State) {
    && (forall k :: k in s.consol ==> s.consol[k] < |s.states|)
    && (forall j, k :: j in s.consol && k in s.consol && s.consol[j] == s.consol[k] ==> j == k)
    && (forall l :: 0 <= l < |s.loops| ==> s.loops[l].id < |s.states|)
    && (forall l, k :: 0 <= l < |s.loops| && k in s.consol && s.consol[k] == s.loops[l].id ==> s.loops[l].scope == k)
  }

  /** No state ever has two loops; a current state has one exactly while it runs. */
  ghost predicate SingleFlight(s: State) {
    && (forall l, m, id :: 0 <= l < |s.loops| && 0 <= m < |s.loops| && Works(s, l, id) && Works(s, m, id) ==> l == m)
    && (forall k :: k in s.consol && s.consol[k] < |s.states| ==>
          (s.states[s.consol[k]].running <==> HasLoop(s, s.consol[k])))
  }

  /** No due is lost: an idle state had a Consolidate call begin after its last request. */
  ghost predicate NoDueLost(s: State) {
    && (forall i :: 0 <= i < |s.states| ==> s.states[i].requested < s.clock && s.states[i].started <= s.clock)
    && (forall i :: 0 <= i < |s.states| && s.states[i].pending ==> s.states[i].running)
    && (forall l :: 0 <= l < |s.loops| && s.loops[l].id < |s.states| && Alive(s.loops[l]) ==> Owes(s, s.loops[l]))
    && (forall i :: 0 <= i < |s.states| && !s.states[i].running ==> s.states[i].started > s.states[i].requested)
  }

  ghost predicate Good(s: State) { Linked(s) && SingleFlight(s) && NoDueLost(s) }

  lemma CoalesceKeeps(s: State, scope: string)
    requires Good(s) && scope in s.consol && s.states[s.consol[scope]].running
    ensures Good(Scheduled(s, scope))
  {
    var s' := Scheduled(s, scope);
    assert forall l, id :: Works(s', l, id) <==> Works(s, l, id);
    forall k | k in s'.consol ensures HasLoop(s', s'.consol[k]) <==> HasLoop(s, s.consol[k]) {}
  }

  /** A loop is started for an idle or a new state. */
  ghost predicate Starts(s: State, s': State, scope: string, id: Id) {
    && s'.clock == s.clock + 1 && s'.consol == s.consol[scope := id]
    && s'.loops == s.loops + [Loop(scope, id, Starting)]
    && (if id < |s.states| then
          |s'.states| == |s.states| && !s.states[id].running && scope in s.consol && s.consol[scope] == id
        else id == |s.states| && |s'.states| == id + 1)
    && s'.states[id].started <= s.clock && s'.states[id].running && !s'.states[id].pending
    && s'.states[id].requested == s.clock
    && (forall i :: 0 <= i < |s.states| && i != id ==> s'.states[i] == s.states[i])
  }

  lemma StartFlies(s: State, s': State, scope: string, id: Id)
    requires Linked(s) && SingleFlight(s) && Starts(s, s', scope, id)
    ensures SingleFlight(s')
  {
    forall l | 0 <= l < |s.loops| ensures !Works(s, l, id) {
      assert Works(s, l, id) ==> HasLoop(s, id);
    }
    assert Works(s', |s.loops|, id);
    assert forall l, i :: 0 <= l < |s.loops| ==> (Works(s', l, i) <==> Works(s, l, i));
    forall k | k in s'.consol && k != scope ensures HasLoop(s', s'.consol[k]) <==> HasLoop(s, s.consol[k]) {
      var i := s.consol[k];
      if HasLoop(s, i) { var l :| 0 <= l < |s.loops| && Works(s, l, i); assert Works(s', l, i); }
      if HasLoop(s', i) { var l :| 0 <= l < |s'.loops| && Works(s', l, i); assert Works(s, l, i); }
    }
  }

  lemma StartKeeps(s: State, s': State, scope: string, id: Id)
    requires Good(s) && Starts(s, s', scope, id)
    ensures Good(s')
  {
    StartFlies(s, s', scope, id);
    forall l | 0 <= l < |s.loops| && Alive(s.loops[l]) ensures s.loops[l].id != id {
      assert Works(s, l, s.loops[l].id) && HasLoop(s, s.loops[l].id);
    }
  }

  lemma ScheduleKeeps(s: State, scope: string)
    requires Good(s)
    ensures Good(Scheduled(s, scope))
  {
    if scope in s.consol && s.states[s.consol[scope]].running {
      CoalesceKeeps(s, scope);
    } else if scope in s.consol {
      StartKeeps(s, Scheduled(s, scope), scope, s.consol[scope]);
    } else {
      StartKeeps(s, Scheduled(s, scope), scope, |s.states|);
    }
  }

  /** Loop `l` moves on without stopping. */
  lemma LoopMoves(s: State, s': State, l: nat, pc: LoopPc, st: ConsolState)
    requires Good(s) && l < |s.loops| && Alive(s.loops[l])
    requires s'.consol == s.consol && s.clock <= s'.clock <= s.clock + 1
    requires s'.loops == s.loops[l := s.loops[l].(pc := pc)] && !pc.Stopped?
    requires s'.states == s.states[s.loops[l].id := st] && st.running && st.started <= s'.clock
    requires st.requested == s.states[s.loops[l].id].requested
    requires Owes(s', s'.loops[l])
    ensures Good(s')
  {
    assert forall m, i :: Works(s', m, i) <==> Works(s, m, i);
    forall k | k in s'.consol ensures HasLoop(s', s'.consol[k]) <==> HasLoop(s, s.consol[k]) {}
    forall m | 0 <= m < |s'.loops| && Alive(s'.loops[m]) ensures Owes(s', s'.loops[m]) {
      assert Works(s, m, s.loops[m].id) && Works(s, l, s.loops[l].id);
    }
  }

  /** Loop `l` stops; its state is dropped, or goes idle with nothing owed. */
  lemma LoopStops(s: State, s': State, l: nat)
    requires Good(s) && l < |s.loops| && s.loops[l].pc.Consolidating?
    requires s'.consol == s.consol && s'.clock == s.clock && s'.loops == s.loops[l := s.loops[l].(pc := Stopped)]
    requires var id, st := s.loops[l].id, s.states[s.loops[l].id];
      if Current(s, s.loops[l].scope, id) then !st.pending && s'.states == s.states[id := st.(running := false)]
      else s'.states == s.states
    ensures Good(s')
  {
    var id := s.loops[l].id;
    assert Works(s, l, id);
    assert forall m, i :: Works(s', m, i) <==> Works(s, m, i) && m != l;
    forall m | 0 <= m < |s'.loops| && Alive(s'.loops[m]) ensures s'.loops[m].id != id {
      assert Works(s, m, s.loops[m].id);
    }
    forall k | k in s'.consol ensures s'.states[s'.consol[k]].running <==> HasLoop(s', s'.consol[k]) {
      var i := s.consol[k];
      if i != id && HasLoop(s, i) { var m :| 0 <= m < |s.loops| && Works(s, m, i); assert Works(s', m, i); }
      if HasLoop(s', i) { var m :| 0 <= m < |s'.loops| && Works(s', m, i); assert Works(s, m, i); }
    }
  }

  lemma StepKeepsGood(s: State, a: Action)
    requires Good(s) && Enabled(s, a)
    ensures Good(Apply(s, a))
  {
    match a
    case Schedule(scope) => ScheduleKeeps(s, scope);
    case Begin(l) =>
      LoopMoves(s, Begun(s, l), l, Consolidating, Begun(s, l).states[s.loops[l].id]);
    case Check(l) =>
      if Current(s, s.loops[l].scope, s.loops[l].id) && s.states[s.loops[l].id].pending {
        LoopMoves(s, Checked(s, l), l, Starting, Checked(s, l).states[s.loops[l].id]);
      } else {
        LoopStops(s, Checked(s, l), l);
      }
    case Drop(scopes) =>
      assert forall l, i :: Works(Apply(s, a), l, i) <==> Works(s, l, i);
      forall k | k in Apply(s, a).consol ensures HasLoop(Apply(s, a), s.consol[k]) <==> HasLoop(s, s.consol[k]) {}
  }

  function Run(actions: seq<Action>): (r: (bool, State)) {
    if actions == [] then (true, INIT)
    else
      var (ok, s) := Run(actions[..|actions| - 1]);
      var a := actions[|actions| - 1];
      if ok && Enabled(s, a) then (true, Apply(s, a)) else (false, s)
  }

  /** In every interleaving of requests, loops and drops, consolidation is single-flight
      per state and loses no due. */
  lemma {:induction false} RunsAreGood(actions: seq<Action>)
    requires Run(actions).0
    ensures Good(Run(actions).1)
    decreases |actions|
  {
    if actions != [] {
      RunsAreGood(actions[..|actions| - 1]);
      StepKeepsGood(Run(actions[..|actions| - 1]).1, actions[|actions| - 1]);
    }
  }

  /** A current state has exactly one loop while it runs and none while idle; pending means
      running; and once idle, a Consolidate call began after the last request made on it. */
  lemma CurrentState(actions: seq<Action>, scope: string)
    requires Run(actions).0 && scope in Run(actions).1.consol
    ensures var s := Run(actions).1; var id := s.consol[scope];
      && id < |s.states|
      && (s.states[id].pending ==> s.states[id].running)
      && (s.states[id].running <==> HasLoop(s, id))
      && (forall l, m :: Works(s, l, id) && Works(s, m, id) ==> l == m)
      && (!s.states[id].running ==> s.states[id].started > s.states[id].requested)
  {
    RunsAreGood(actions);
  }

  // A state that is not current any more

  /** No scope has the state `id`: it was dropped or replaced. */
  ghost predicate Dropped(s: State, id: Id) { forall k :: k in s.consol ==> s.consol[k] != id }

  /** What later steps keep of a dropped state and of loop `l`. */
  ghost predicate StaysDropped(s: State, l: nat, id: Id) {
    Linked(s) && id < |s.states| && Dropped(s, id) && l < |s.loops| && s.loops[l].id == id
  }

  lemma StepStaysDropped(s: State, a: Action, l: nat, id: Id)
    requires StaysDropped(s, l, id) && Enabled(s, a) && Linked(Apply(s, a))
    ensures StaysDropped(Apply(s, a), l, id)
  {
    match a
    case Schedule(scope) => assert Dropped(Scheduled(s, scope), id);
    case _ =>
  }

  lemma RunAppend(actions: seq<Action>, more: seq<Action>)
    requires Run(actions + more).0
    ensures Run(actions).0
    ensures more != [] ==>
      var init, last := more[..|more| - 1], more[|more| - 1];
      && Run(actions + init).0 && Enabled(Run(actions + init).1, last)
      && Run(actions + more).1 == Apply(Run(actions + init).1, last)
    decreases |more|
  {
    if more == [] {
      assert actions + more == actions;
    } else {
      var init := more[..|more| - 1];
      assert (actions + more)[..|actions + more| - 1] == actions + init;
      RunAppend(actions, init);
    }
  }

  /** How many Consolidate calls loop `l` begins among the actions. */
  function Begins(actions: seq<Action>, l: nat): nat {
    if actions == [] then 0
    else Begins(actions[..|actions| - 1], l) + if actions[|actions| - 1] == Begin(l) then 1 else 0
  }

  /** The calls a loop of a dropped state may still begin. */
  function CallsLeft(loop: Loop): nat { if loop.pc.Starting? then 1 else 0 }

  lemma StepCalls(s: State, a: Action, l: nat)
    requires l < |s.loops| && Enabled(s, a) && Dropped(s, s.loops[l].id)
    ensures l < |Apply(s, a).loops| && s.loops[l].id == Apply(s, a).loops[l].id
    ensures CallsLeft(Apply(s, a).loops[l]) + (if a == Begin(l) then 1 else 0) == CallsLeft(s.loops[l])
    ensures a == Check(l) ==> Apply(s, a).loops[l].pc.Stopped?
    ensures s.loops[l].pc.Stopped? ==> Apply(s, a).loops[l].pc.Stopped?
  {
  }

  /** Once no scope has the state of loop `l`, none ever has again, whatever is scheduled,
      dropped or run since; and the loop begins at most the one call it had come to. */
  lemma {:induction false} DroppedForGood(actions: seq<Action>, more: seq<Action>, l: nat)
    requires Run(actions + more).0 && Run(actions).0
    requires l < |Run(actions).1.loops| && Dropped(Run(actions).1, Run(actions).1.loops[l].id)
    ensures var s, s' := Run(actions).1, Run(actions + more).1;
      && StaysDropped(s', l, s.loops[l].id)
      && Begins(more, l) + CallsLeft(s'.loops[l]) == CallsLeft(s.loops[l]) <= 1
    decreases |more|
  {
    if more == [] {
      assert actions + more == actions;
      RunsAreGood(actions);
    } else {
      var init := more[..|more| - 1];
      RunAppend(actions, more);
      RunsAreGood(actions + more);
      DroppedForGood(actions, init, l);
      StepStaysDropped(Run(actions + init).1, more[|more| - 1], l, Run(actions).1.loops[l].id);
      StepCalls(Run(actions + init).1, more[|more| - 1], l);
    }
  }

  /** The flags of a state. */
  predicate SameFlags(s: State, s': State, i: Id)
    requires i < |s.states| && i < |s'.states|
  {
    s'.states[i].running == s.states[i].running && s'.states[i].pending == s.states[i].pending
  }

  lemma CheckOfDropped(s: State, l: nat)
    requires Enabled(s, Check(l)) && Dropped(s, s.loops[l].id)
    ensures Checked(s, l) == s.(loops := s.loops[l := s.loops[l].(pc := Stopped)])
  {
  }

  /** A loop whose state was dropped or replaced is harmless from then on: at whatever later
      moment it takes a step, the step changes the flags of no state and what no scope has,
      starts no loop, and if it is a check the loop stops. */
  lemma DroppedLoopIsHarmless(actions: seq<Action>, more: seq<Action>, l: nat, a: Action)
    requires Run(actions + more).0 && Run(actions).0
    requires l < |Run(actions).1.loops| && Dropped(Run(actions).1, Run(actions).1.loops[l].id)
    requires a == Begin(l) || a == Check(l)
    requires Enabled(Run(actions + more).1, a)
    ensures var s := Run(actions + more).1; var s' := Apply(s, a);
      && s'.consol == s.consol && |s'.states| == |s.states| && |s'.loops| == |s.loops|
      && (forall i :: 0 <= i < |s.states| ==> SameFlags(s, s', i))
      && (forall i :: 0 <= i < |s.states| && i != s.loops[l].id ==> s'.states[i] == s.states[i])
      && (forall m :: 0 <= m < |s.loops| && m != l ==> s'.loops[m] == s.loops[m])
      && (a == Check(l) ==> s'.loops[l].pc.Stopped?)
  {
    DroppedForGood(actions, more, l);
    if a == Check(l) { CheckOfDropped(Run(actions + more).1, l); }
  }

  // A request is answered

  ghost predicate IsStarting(s: State, l: nat, id: Id) { Works(s, l, id) && s.loops[l].pc.Starting? }

  /** A call is still to come for the state, as long as the scope has it: its loop is about to
      begin one, or has been told to run again. */
  ghost predicate Awaited(s: State, scope: string, id: Id) {
    && id < |s.states|
    && (Current(s, scope, id) ==>
          s.states[id].running && (s.states[id].pending || exists l :: 0 <= l < |s.loops| && IsStarting(s, l, id)))
  }

  lemma ScheduledAwaits(s: State, scope: string)
    requires Good(s)
    ensures var s' := Scheduled(s, scope); scope in s'.consol && Awaited(s', scope, s'.consol[scope])
  {
    var s' := Scheduled(s, scope);
    if !(scope in s.consol && s.states[s.consol[scope]].running) {
      assert IsStarting(s', |s.loops|, s'.consol[scope]);
    }
  }

  lemma ScheduleAwaits(s: State, other: string, scope: string, id: Id)
    requires Good(s) && Awaited(s, scope, id)
    ensures Awaited(Scheduled(s, other), scope, id)
  {
    var s' := Scheduled(s, other);
    if Current(s', scope, id) && !s.states[id].pending {
      assert Current(s, scope, id);
      var l :| 0 <= l < |s.loops| && IsStarting(s, l, id);
      assert IsStarting(s', l, id);
    }
  }

  lemma CheckAwaits(s: State, m: nat, scope: string, id: Id)
    requires Good(s) && Awaited(s, scope, id) && Enabled(s, Check(m))
    ensures Awaited(Checked(s, m), scope, id)
  {
    var s' := Checked(s, m);
    if Current(s, scope, id) {
      if s.loops[m].id == id {
        assert Works(s, m, id);
        assert forall l :: 0 <= l < |s.loops| && IsStarting(s, l, id) ==> l == m;
        assert IsStarting(s', m, id);
      } else if !s.states[id].pending {
        var l :| 0 <= l < |s.loops| && IsStarting(s, l, id);
        assert IsStarting(s', l, id);
      }
    }
  }

  lemma BeginAwaits(s: State, m: nat, scope: string, id: Id)
    requires Good(s) && Awaited(s, scope, id) && Enabled(s, Begin(m)) && s.loops[m].id != id
    ensures Awaited(Begun(s, m), scope, id)
  {
    var s' := Begun(s, m);
    if Current(s, scope, id) && !s.states[id].pending {
      var l :| 0 <= l < |s.loops| && IsStarting(s, l, id);
      assert IsStarting(s', l, id);
    }
  }

  lemma StepAwaits(s: State, a: Action, scope: string, id: Id)
    requires Good(s) && Awaited(s, scope, id) && Enabled(s, a)
    requires a.Begin? ==> s.loops[a.loop].id != id
    ensures Awaited(Apply(s, a), scope, id)
  {
    match a
    case Schedule(other) => ScheduleAwaits(s, other, scope, id);
    case Begin(m) => BeginAwaits(s, m, scope, id);
    case Check(m) => CheckAwaits(s, m, scope, id);
    case Drop(scopes) =>
      if Current(Apply(s, a), scope, id) && !s.states[id].pending {
        var l :| 0 <= l < |s.loops| && IsStarting(s, l, id);
        assert IsStarting(Apply(s, a), l, id);
      }
  }

  /** The action is a Consolidate call of a loop of the state. */
  predicate Calls(s: State, a: Action, id: Id) { a.Begin? && a.loop < |s.loops| && s.loops[a.loop].id == id }

  /** Among `more`, after `actions`, a loop of the state begins a Consolidate call. */
  ghost predicate CallsIn(actions: seq<Action>, more: seq<Action>, id: Id) {
    exists i :: 0 <= i < |more| && Calls(Run(actions + more[..i]).1, more[i], id)
  }

  lemma {:induction false} AwaitedOrCalled(actions: seq<Action>, more: seq<Action>, scope: string, id: Id)
    requires Run(actions + more).0 && Run(actions).0 && Awaited(Run(actions).1, scope, id)
    ensures CallsIn(actions, more, id) || Awaited(Run(actions + more).1, scope, id)
    decreases |more|
  {
    if more == [] {
      assert actions + more == actions;
    } else {
      var init, last := more[..|more| - 1], more[|more| - 1];
      RunAppend(actions, more);
      AwaitedOrCalled(actions, init, scope, id);
      RunsAreGood(actions + init);
      if CallsIn(actions, init, id) {
        var i :| 0 <= i < |init| && Calls(Run(actions + init[..i]).1, init[i], id);
        assert more[..i] == init[..i] && more[i] == init[i];
      } else if Calls(Run(actions + init).1, last, id) {
        assert more[..|more| - 1] == init;
      } else {
        StepAwaits(Run(actions + init).1, last, scope, id);
      }
    }
  }

  /** Every request is answered: whenever a scope's state is found idle after a request made on
      it, a Consolidate call for it has begun since the request, whatever else happened. */
  lemma RequestsAreAnswered(actions: seq<Action>, scope: string, more: seq<Action>)
    requires Run(actions + [Schedule(scope)] + more).0
    ensures Run(actions + [Schedule(scope)]).0 && scope in Run(actions + [Schedule(scope)]).1.consol
    ensures var asked := actions + [Schedule(scope)]; var id := Run(asked).1.consol[scope];
      var s := Run(asked + more).1;
      Current(s, scope, id) && id < |s.states| && !s.states[id].running ==> CallsIn(asked, more, id)
  {
    var asked := actions + [Schedule(scope)];
    RunAppend(asked, more);
    RunAppend(actions, [Schedule(scope)]);
    assert actions + [] == actions;
    RunsAreGood(actions);
    ScheduledAwaits(Run(actions).1, scope);
    AwaitedOrCalled(asked, more, scope, Run(asked).1.consol[scope]);
  }

  // Requests that come close together are coalesced

  function Count<T>(f: T -> bool, s: seq<T>): nat {
    if s == [] then 0 else Count(f, s[..|s| - 1]) + if f(s[|s| - 1]) then 1 else 0
  }

  lemma {:induction false} CountUpdate<T>(f: T -> bool, s: seq<T>, i: nat, x: T)
    requires i < |s|
    ensures Count(f, s[i := x]) == Count(f, s) - (if f(s[i]) then 1 else 0) + if f(x) then 1 else 0
    decreases |s|
  {
    var n := |s| - 1;
    if i == n {
      assert s[i := x][..n] == s[..n];
    } else {
      CountUpdate(f, s[..n], i, x);
      assert s[i := x][..n] == s[..n][i := x];
    }
  }

  lemma CountAppend<T>(f: T -> bool, s: seq<T>, x: T)
    ensures Count(f, s + [x]) == Count(f, s) + if f(x) then 1 else 0
  {
    assert (s + [x])[..|s|] == s;
  }

  predicate About(l: Loop) { l.pc.Starting? }

  predicate Told(st: ConsolState) { st.pending }

  /** The calls that are still owed: loops about to begin one, and states told to run again. */
  function Owed(s: State): nat { Count(About, s.loops) + Count(Told, s.states) }

  lemma ScheduleOwes(s: State, scope: string)
    ensures Owed(Scheduled(s, scope)) <= Owed(s) + 1
  {
    var s' := Scheduled(s, scope);
    if scope in s.consol && s.consol[scope] < |s.states| {
      CountUpdate(Told, s.states, s.consol[scope], s'.states[s.consol[scope]]);
      if !s.states[s.consol[scope]].running { CountAppend(About, s.loops, Loop(scope, s.consol[scope], Starting)); }
    } else {
      CountAppend(Told, s.states, ConsolState(true, false, s.clock, 0));
      CountAppend(About, s.loops, Loop(scope, |s.states|, Starting));
    }
  }

  lemma StepOwes(s: State, a: Action)
    requires Enabled(s, a)
    ensures Owed(Apply(s, a)) + (if a.Begin? then 1 else 0) <= Owed(s) + if a.Schedule? then 1 else 0
  {
    match a
    case Schedule(scope) => ScheduleOwes(s, scope);
    case Begin(l) =>
      CountUpdate(About, s.loops, l, Begun(s, l).loops[l]);
      CountUpdate(Told, s.states, s.loops[l].id, Begun(s, l).states[s.loops[l].id]);
    case Check(l) =>
      CountUpdate(About, s.loops, l, Checked(s, l).loops[l]);
      CountUpdate(Told, s.states, s.loops[l].id, Checked(s, l).states[s.loops[l].id]);
    case Drop(_) =>
  }

  /** In every interleaving there are no more Consolidate calls than requests, those still owed
      included: a loop never runs for nothing. */
  lemma {:induction false} NoMoreCallsThanRequests(actions: seq<Action>)
    requires Run(actions).0
    ensures Count((a: Action) => a.Begin?, actions) + Owed(Run(actions).1) <= Count((a: Action) => a.Schedule?, actions)
    decreases |actions|
  {
    if actions != [] {
      NoMoreCallsThanRequests(actions[..|actions| - 1]);
      StepOwes(Run(actions[..|actions| - 1]).1, actions[|actions| - 1]);
    }
  }
}
