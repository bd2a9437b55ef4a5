/**
 * Claude wake workers: one attempt per registry and endpoint, admission that can
 * be stopped, and a drain that joins what was admitted.
 *
 * A call of the scheduler and the thread it may start share one identity.  Each
 * event is one region under the worker lock, or one step outside it; events of
 * different calls interleave freely.
 */
module ClaudeWake {
  type Registry = nat
  type Endpoint = nat
  type CallId = nat
  type DrainId = nat

  /** An exception outside `Exception` aborts a path: at the first trace callback, or inside the attempt. */
  datatype Stage =
    | Noted
    | Announced
    | Refused
    | RefusalUnkeyed
    | Running
    | Inside
    | Left(aborted: bool)
    | Unkeyed(aborted: bool)
    | Finishing(aborted: bool)
    | Exited(aborted: bool)
    | ReturnedEarly
    | Stuck

  /** `threaded` says whether a thread was started; the counts are emitted trace events. */
  datatype Call = Call(registry: Registry, endpoint: Endpoint, stage: Stage, threaded: bool, prepared: nat, completed: nat)

  /** `afterStop` records whether admission had been stopped when the drain took its snapshot. */
  datatype DrainCall = DrainCall(registry: Registry, snapshot: set<CallId>, afterStop: bool, returned: bool)

  datatype State = State(
    calls: map<CallId, Call>,
    attemptIds: map<(Registry, Endpoint), CallId>,
    workers: set<CallId>,
    closing: set<Registry>,
    drains: map<DrainId, DrainCall>)

  const INITIAL := State(map[], map[], {}, {}, map[])

  datatype Event =
    | Begin(id: CallId, registry: Registry, endpoint: Endpoint)
    | Announce(id: CallId, aborts: bool)
    | Start(id: CallId, succeeds: bool)
    | Enter(id: CallId)
    | Leave(id: CallId, aborts: bool)
    | Unkey(id: CallId)
    | Complete(id: CallId)
    | Exit(id: CallId)
    | StopAdmission(registry: Registry)
    | BeginDrain(drain: DrainId, registry: Registry)
    | EndDrain(drain: DrainId)

  predicate Alive(c: Call) {
    c.threaded && !c.stage.Exited?
  }

  /** The table entry of a call exists from its first region until it removes it, or for ever if it is stuck. */
  predicate HoldsKey(stage: Stage) {
    stage.Noted? || stage.Announced? || stage.Refused? || stage.Running? || stage.Inside? || stage.Left? || stage.Stuck?
  }

  predicate PathEnded(stage: Stage) {
    stage.Exited? || stage.ReturnedEarly? || stage.Stuck?
  }

  predicate Aborted(stage: Stage) {
    stage.Stuck? || ((stage.Left? || stage.Unkeyed? || stage.Finishing? || stage.Exited?) && stage.aborted)
  }

  function Live(s: State): set<CallId> {
    set id | id in s.workers && id in s.calls && Alive(s.calls[id])
  }

  predicate At(s: State, id: CallId) {
    id in s.calls
  }

  predicate Enabled(s: State, e: Event) {
    match e
    case Begin(id, _, _) => id !in s.calls
    case Announce(id, _) => At(s, id) && s.calls[id].stage.Noted?
    case Start(id, _) => At(s, id) && s.calls[id].stage.Announced?
    case Enter(id) => At(s, id) && s.calls[id].stage.Running?
    case Leave(id, _) => At(s, id) && s.calls[id].stage.Inside?
    case Unkey(id) => At(s, id) && (s.calls[id].stage.Refused? || s.calls[id].stage.Left?)
    case Complete(id) => At(s, id) && (s.calls[id].stage.RefusalUnkeyed? || s.calls[id].stage.Unkeyed?)
    case Exit(id) => At(s, id) && s.calls[id].stage.Finishing?
    case BeginDrain(d, _) => d !in s.drains
    case EndDrain(d) => d in s.drains && !s.drains[d].returned && Joined(s, s.drains[d].snapshot)
    case StopAdmission(_) => true
  }

  /** `join` returns for a worker that is no longer alive. */
  predicate Joined(s: State, snapshot: set<CallId>) {
    forall id :: id in snapshot ==> id in s.calls && !Alive(s.calls[id])
  }

  function Moved(s: State, id: CallId, stage: Stage): State
    requires id in s.calls
  {
    s.(calls := s.calls[id := s.calls[id].(stage := stage)])
  }

  function Key(c: Call): (Registry, Endpoint) {
    (c.registry, c.endpoint)
  }

  function Step(s: State, e: Event): State {
    if !Enabled(s, e) then s else
    match e
    case Begin(id, registry, endpoint) =>
      // Dead workers are pruned; a closing registry or a running attempt ends the call.
      var t := s.(workers := Live(s));
      if registry in s.closing || (registry, endpoint) in s.attemptIds then t
      else t.(calls := s.calls[id := Call(registry, endpoint, Noted, false, 0, 0)],
              attemptIds := s.attemptIds[(registry, endpoint) := id])
    case Announce(id, aborts) =>
      var c := s.calls[id];
      s.(calls := s.calls[id := c.(prepared := c.prepared + 1, stage := if aborts then Stuck else Announced)])
    case Start(id, succeeds) =>
      var c := s.calls[id];
      if c.registry in s.closing || !succeeds then Moved(s, id, Refused)
      else s.(calls := s.calls[id := c.(stage := Running, threaded := true)], workers := s.workers + {id})
    case Enter(id) => Moved(s, id, Inside)
    case Leave(id, aborts) => Moved(s, id, Left(aborts))
    case Unkey(id) =>
      var c := s.calls[id];
      var t := if Key(c) in s.attemptIds && s.attemptIds[Key(c)] == id
               then s.(attemptIds := s.attemptIds - {Key(c)}) else s;
      Moved(t, id, if c.stage.Refused? then RefusalUnkeyed else Unkeyed(c.stage.aborted))
    case Complete(id) =>
      var c := s.calls[id];
      if c.stage.RefusalUnkeyed?
      then s.(calls := s.calls[id := c.(stage := ReturnedEarly, completed := c.completed + 1)])
      else if c.stage.aborted then Moved(s, id, Finishing(true))
      else s.(calls := s.calls[id := c.(stage := Finishing(false), completed := c.completed + 1)])
    case Exit(id) => Moved(s, id, Exited(s.calls[id].stage.aborted))
    case StopAdmission(registry) => s.(closing := s.closing + {registry})
    case BeginDrain(d, registry) =>
      var mine := set id | id in s.workers && id in s.calls && s.calls[id].registry == registry;
      s.(drains := s.drains[d := DrainCall(registry, mine, registry in s.closing, false)])
    case EndDrain(d) =>
      s.(drains := s.drains[d := s.drains[d].(returned := true)], workers := s.workers - s.drains[d].snapshot)
  }

  function Run(s: State, events: seq<Event>): State
    decreases |events|
  {
    if events == [] then s else Run(Step(s, events[0]), events[1..])
  }

  // ---- What every run keeps ----

  ghost predicate CallInv(s: State, id: CallId)
    requires id in s.calls
  {
    var c := s.calls[id];
    && (HoldsKey(c.stage) ==> Key(c) in s.attemptIds && s.attemptIds[Key(c)] == id)
    && (Alive(c) ==> id in s.workers)
    && (c.threaded <==> (c.stage.Running? || c.stage.Inside? || c.stage.Left? || c.stage.Unkeyed? || c.stage.Finishing? || c.stage.Exited?))
    && c.prepared == (if c.stage.Noted? then 0 else 1)
    && c.completed == (if c.stage.ReturnedEarly? || ((c.stage.Finishing? || c.stage.Exited?) && !c.stage.aborted) then 1 else 0)
  }

  /** A drain begun after the stop has every live worker of its registry in its snapshot. */
  ghost predicate DrainInv(s: State, d: DrainId)
    requires d in s.drains
  {
    var drain := s.drains[d];
    && (forall id :: id in drain.snapshot ==> id in s.calls && s.calls[id].threaded)
    && (drain.returned ==> Joined(s, drain.snapshot))
    && (drain.afterStop ==> drain.registry in s.closing)
    && (drain.afterStop ==> forall id :: id in s.calls && Alive(s.calls[id]) && s.calls[id].registry == drain.registry ==> id in drain.snapshot)
  }

  ghost predicate CallsInv(s: State) {
    forall id :: id in s.calls ==> CallInv(s, id)
  }

  /** Every entry of the attempt table and of the worker table belongs to a call that is there. */
  ghost predicate TablesInv(s: State) {
    && (forall k :: k in s.attemptIds ==>
          s.attemptIds[k] in s.calls && Key(s.calls[s.attemptIds[k]]) == k && HoldsKey(s.calls[s.attemptIds[k]].stage))
    && (forall id :: id in s.workers ==> id in s.calls && s.calls[id].threaded)
  }

  ghost predicate DrainsInv(s: State) {
    forall d :: d in s.drains ==> DrainInv(s, d)
  }

  ghost predicate Inv(s: State) {
    CallsInv(s) && TablesInv(s) && DrainsInv(s)
  }

  /** Calls stay, dead threads stay dead, and only a registry that is not closing gets a live one. */
  ghost predicate Follows(s: State, t: State) {
    && t.drains == s.drains && s.closing <= t.closing
    && (forall id :: id in s.calls ==> id in t.calls && (s.calls[id].threaded ==> t.calls[id].threaded))
    && (forall id :: id in t.calls && Alive(t.calls[id]) ==>
          (id in s.calls && Alive(s.calls[id]) && t.calls[id].registry == s.calls[id].registry) || t.calls[id].registry !in s.closing)
    && (forall id :: id in s.calls && s.calls[id].threaded && !Alive(s.calls[id]) ==> !Alive(t.calls[id]))
  }

  lemma DrainsSurvive(s: State, t: State)
    requires DrainsInv(s) && Follows(s, t)
    ensures DrainsInv(t)
  {
    forall d | d in t.drains
      ensures DrainInv(t, d)
    {
      assert DrainInv(s, d);
    }
  }

  lemma PruningKeepsInv(s: State)
    requires Inv(s)
    ensures Inv(s.(workers := Live(s)))
  {
    var t := s.(workers := Live(s));
    assert forall id :: id in s.calls ==> CallInv(s, id) && CallInv(t, id);
    DrainsSurvive(s, t);
  }

  function Registered(s: State, id: CallId, registry: Registry, endpoint: Endpoint): State {
    s.(calls := s.calls[id := Call(registry, endpoint, Noted, false, 0, 0)],
       attemptIds := s.attemptIds[(registry, endpoint) := id])
  }

  lemma RegisteringKeepsCalls(s: State, id: CallId, registry: Registry, endpoint: Endpoint)
    requires Inv(s) && id !in s.calls && (registry, endpoint) !in s.attemptIds
    ensures CallsInv(Registered(s, id, registry, endpoint))
  {
    var t := Registered(s, id, registry, endpoint);
    assert forall k :: k in s.calls ==> CallInv(s, k) && CallInv(t, k);
  }

  lemma RegisteringKeepsTables(s: State, id: CallId, registry: Registry, endpoint: Endpoint)
    requires TablesInv(s) && id !in s.calls
    ensures TablesInv(Registered(s, id, registry, endpoint))
  {
  }

  lemma RegisteringKeepsInv(s: State, id: CallId, registry: Registry, endpoint: Endpoint)
    requires Inv(s) && id !in s.calls && (registry, endpoint) !in s.attemptIds
    ensures Inv(Registered(s, id, registry, endpoint))
  {
    RegisteringKeepsCalls(s, id, registry, endpoint);
    RegisteringKeepsTables(s, id, registry, endpoint);
    DrainsSurvive(s, Registered(s, id, registry, endpoint));
  }

  lemma BeginKeepsInv(s: State, e: Event)
    requires Inv(s) && Enabled(s, e) && e.Begin?
    ensures Inv(Step(s, e))
  {
    PruningKeepsInv(s);
    var t := s.(workers := Live(s));
    if e.registry !in s.closing && (e.registry, e.endpoint) !in s.attemptIds {
      RegisteringKeepsInv(t, e.id, e.registry, e.endpoint);
    }
  }

  function StartedWorker(s: State, id: CallId): State
    requires id in s.calls
  {
    s.(calls := s.calls[id := s.calls[id].(stage := Running, threaded := true)], workers := s.workers + {id})
  }

  lemma StartingKeepsInv(s: State, id: CallId)
    requires Inv(s) && id in s.calls && s.calls[id].stage.Announced? && s.calls[id].registry !in s.closing
    ensures Inv(StartedWorker(s, id))
  {
    var t := StartedWorker(s, id);
    assert forall k :: k in s.calls ==> CallInv(s, k) && CallInv(t, k);
    DrainsSurvive(s, t);
  }

  /** One call moves within its thread or its refusal, and may give its table entry up; nothing else changes. */
  ghost predicate OnlyMoves(s: State, t: State, id: CallId) {
    && id in s.calls && id in t.calls
    && t.calls == s.calls[id := t.calls[id]] && t.closing == s.closing && t.drains == s.drains && t.workers == s.workers
    && Key(t.calls[id]) == Key(s.calls[id]) && t.calls[id].threaded == s.calls[id].threaded
    && (Alive(t.calls[id]) ==> Alive(s.calls[id]))
  }

  lemma MovingKeepsInv(s: State, t: State, id: CallId)
    requires Inv(s) && OnlyMoves(s, t, id) && t.attemptIds == s.attemptIds
    requires CallInv(t, id) && (HoldsKey(s.calls[id].stage) ==> HoldsKey(t.calls[id].stage))
    ensures Inv(t)
  {
    assert forall k :: k in s.calls && k != id ==> CallInv(s, k) && CallInv(t, k);
    DrainsSurvive(s, t);
  }

  lemma StartKeepsInv(s: State, e: Event)
    requires Inv(s) && Enabled(s, e) && e.Start?
    ensures Inv(Step(s, e))
  {
    assert CallInv(s, e.id);
    if s.calls[e.id].registry !in s.closing && e.succeeds {
      StartingKeepsInv(s, e.id);
    } else {
      MovingKeepsInv(s, Moved(s, e.id, Refused), e.id);
    }
  }

  /** One call moves on while keeping its table entry. */
  lemma MoveKeepsCall(s: State, e: Event)
    requires Inv(s) && Enabled(s, e)
    requires e.Announce? || e.Enter? || e.Leave? || e.Complete? || e.Exit?
    ensures var t := Step(s, e);
      && OnlyMoves(s, t, e.id) && t.attemptIds == s.attemptIds
      && CallInv(t, e.id) && (HoldsKey(s.calls[e.id].stage) ==> HoldsKey(t.calls[e.id].stage))
  {
    assert CallInv(s, e.id);
  }

  lemma MoveKeepsInv(s: State, e: Event)
    requires Inv(s) && Enabled(s, e)
    requires e.Announce? || e.Enter? || e.Leave? || e.Complete? || e.Exit?
    ensures Inv(Step(s, e))
  {
    MoveKeepsCall(s, e);
    MovingKeepsInv(s, Step(s, e), e.id);
  }

  lemma UnkeyKeepsCalls(s: State, e: Event)
    requires Inv(s) && Enabled(s, e) && e.Unkey?
    ensures CallsInv(Step(s, e))
  {
    var t := Step(s, e);
    assert CallInv(s, e.id);
    assert forall k :: k in s.calls && k != e.id ==> CallInv(s, k) && CallInv(t, k);
  }

  lemma UnkeyKeepsInv(s: State, e: Event)
    requires Inv(s) && Enabled(s, e) && e.Unkey?
    ensures Inv(Step(s, e))
  {
    var t := Step(s, e);
    UnkeyKeepsCalls(s, e);
    assert CallInv(s, e.id);
    DrainsSurvive(s, t);
  }

  lemma BeginDrainKeepsInv(s: State, e: Event)
    requires Inv(s) && Enabled(s, e) && e.BeginDrain?
    ensures Inv(Step(s, e))
  {
    var t := Step(s, e);
    assert forall id :: id in s.calls ==> CallInv(s, id) && CallInv(t, id);
    assert DrainInv(t, e.drain);
    assert forall d :: d in s.drains ==> DrainInv(s, d) && DrainInv(t, d);
  }

  lemma EndDrainKeepsInv(s: State, e: Event)
    requires Inv(s) && Enabled(s, e) && e.EndDrain?
    ensures Inv(Step(s, e))
  {
    var t := Step(s, e);
    assert DrainInv(s, e.drain);
    assert forall id :: id in s.calls ==> CallInv(s, id) && CallInv(t, id);
    assert DrainInv(t, e.drain);
    assert forall d :: d in s.drains ==> DrainInv(s, d) && DrainInv(t, d);
  }

  lemma StepKeepsInv(s: State, e: Event)
    requires Inv(s)
    ensures Inv(Step(s, e))
  {
    if !Enabled(s, e) {
    } else if e.Begin? {
      BeginKeepsInv(s, e);
    } else if e.Start? {
      StartKeepsInv(s, e);
    } else if e.BeginDrain? {
      BeginDrainKeepsInv(s, e);
    } else if e.EndDrain? {
      EndDrainKeepsInv(s, e);
    } else if e.Unkey? {
      UnkeyKeepsInv(s, e);
    } else if e.StopAdmission? {
      var t := Step(s, e);
      assert forall id :: id in s.calls ==> CallInv(s, id) && CallInv(t, id);
      assert forall d :: d in s.drains ==> DrainInv(s, d) && DrainInv(t, d);
    } else {
      MoveKeepsInv(s, e);
    }
  }

  lemma {:induction false} RunKeepsInv(s: State, events: seq<Event>)
    requires Inv(s)
    ensures Inv(Run(s, events))
    decreases |events|
  {
    if events != [] {
      StepKeepsInv(s, events[0]);
      RunKeepsInv(Step(s, events[0]), events[1..]);
    }
  }

  /** At most one worker per registry and endpoint is inside the attempt, in every run. */
  lemma OneAttemptPerEndpoint(events: seq<Event>, a: CallId, b: CallId)
    requires var t := Run(INITIAL, events);
      a in t.calls && b in t.calls && t.calls[a].stage.Inside? && t.calls[b].stage.Inside?
      && Key(t.calls[a]) == Key(t.calls[b])
    ensures a == b
  {
    RunKeepsInv(INITIAL, events);
    var t := Run(INITIAL, events);
    assert CallInv(t, a) && CallInv(t, b);
  }

  /** The event cuts the path of `id` short: at its first trace callback, or inside its attempt. */
  predicate Aborts(s: State, e: Event, id: CallId) {
    Enabled(s, e) && (e == Announce(id, true) || e == Leave(id, true))
  }

  predicate SomeAborts(s: State, events: seq<Event>, id: CallId)
    decreases |events|
  {
    events != [] && (Aborts(s, events[0], id) || SomeAborts(Step(s, events[0]), events[1..], id))
  }

  predicate CutShort(s: State, id: CallId) {
    id in s.calls && Aborted(s.calls[id].stage)
  }

  lemma StepCutsShortExactly(s: State, e: Event, id: CallId)
    ensures CutShort(Step(s, e), id) <==> CutShort(s, id) || Aborts(s, e, id)
  {
  }

  lemma {:induction false} RunCutsShortExactly(s: State, events: seq<Event>, id: CallId)
    ensures CutShort(Run(s, events), id) <==> CutShort(s, id) || SomeAborts(s, events, id)
    decreases |events|
  {
    if events != [] {
      StepCutsShortExactly(s, events[0], id);
      RunCutsShortExactly(Step(s, events[0]), events[1..], id);
    }
  }

  /**
   * A path that has ended announced itself once, and completed once exactly when no
   * event of the run cut it short with an exception outside `Exception`; it never
   * completes twice.
   */
  lemma EveryEndedPathCompletesExactlyUnlessAborted(events: seq<Event>, id: CallId)
    requires id in Run(INITIAL, events).calls && PathEnded(Run(INITIAL, events).calls[id].stage)
    ensures var c := Run(INITIAL, events).calls[id];
      c.prepared == 1 && c.completed <= 1 && (c.completed == 1 <==> !SomeAborts(INITIAL, events, id))
  {
    RunKeepsInv(INITIAL, events);
    RunCutsShortExactly(INITIAL, events, id);
    assert CallInv(Run(INITIAL, events), id);
  }

  lemma CallsStay(s: State, e: Event)
    ensures var t := Step(s, e);
      s.closing <= t.closing && forall id :: id in s.calls ==> id in t.calls && t.calls[id].registry == s.calls[id].registry
  {
  }

  lemma StopIsFinalInAStep(s: State, e: Event, registry: Registry)
    requires registry in s.closing
    ensures var t := Step(s, e);
      forall id :: id in t.calls && t.calls[id].registry == registry && Alive(t.calls[id]) ==> id in s.calls && Alive(s.calls[id])
  {
  }

  /** Once admission is stopped, no run of that registry brings a worker to life. */
  lemma {:induction false} NothingStartsAfterStop(s: State, events: seq<Event>, registry: Registry)
    requires registry in s.closing
    ensures var t := Run(s, events);
      && (forall id :: id in t.calls && t.calls[id].registry == registry && Alive(t.calls[id]) ==> id in s.calls && Alive(s.calls[id]))
      && (forall id :: id in s.calls ==> id in t.calls && t.calls[id].registry == s.calls[id].registry)
    decreases |events|
  {
    if events != [] {
      CallsStay(s, events[0]);
      StopIsFinalInAStep(s, events[0], registry);
      NothingStartsAfterStop(Step(s, events[0]), events[1..], registry);
    }
  }

  /**
   * Stop, then drain: once the drain returned no worker of the registry is alive,
   * and none comes to life in any continuation.
   */
  lemma StopThenDrainIsFinal(before: seq<Event>, after: seq<Event>, d: DrainId)
    requires var t := Run(INITIAL, before); d in t.drains && t.drains[d].afterStop && t.drains[d].returned
    ensures var t := Run(INITIAL, before); var u := Run(t, after);
      && (forall id :: id in t.calls && t.calls[id].registry == t.drains[d].registry ==> !Alive(t.calls[id]))
      && (forall id :: id in u.calls && u.calls[id].registry == t.drains[d].registry ==> !Alive(u.calls[id]))
  {
    RunKeepsInv(INITIAL, before);
    var t := Run(INITIAL, before);
    assert DrainInv(t, d);
    NothingStartsAfterStop(t, after, t.drains[d].registry);
  }

  lemma StuckInAStep(s: State, e: Event, id: CallId)
    requires Inv(s) && id in s.calls && s.calls[id].stage.Stuck?
    ensures id in Step(s, e).calls && Step(s, e).calls[id] == s.calls[id]
  {
    assert CallInv(s, id);
  }

  /** A path cut short at its first trace callback keeps its endpoint: no later call gets past the table. */
  lemma {:induction false} StuckEndpointStaysBlocked(s: State, events: seq<Event>, id: CallId, next: CallId)
    requires Inv(s) && id in s.calls && s.calls[id].stage.Stuck?
    ensures var t := Run(s, events);
      id in t.calls && t.calls[id] == s.calls[id]
      && Step(t, Begin(next, s.calls[id].registry, s.calls[id].endpoint)).calls == t.calls
    decreases |events|
  {
    if events == [] {
      assert CallInv(s, id);
    } else {
      StuckInAStep(s, events[0], id);
      StepKeepsInv(s, events[0]);
      StuckEndpointStaysBlocked(Step(s, events[0]), events[1..], id, next);
    }
  }

  // ---- The threads themselves ----

  datatype Owner = TheCall(id: CallId) | TheDrain(drain: DrainId)

  predicate Owns(o: Owner, e: Event) {
    match e
    case Begin(id, _, _) => o == TheCall(id)
    case Announce(id, _) => o == TheCall(id)
    case Start(id, _) => o == TheCall(id)
    case Enter(id) => o == TheCall(id)
    case Leave(id, _) => o == TheCall(id)
    case Unkey(id) => o == TheCall(id)
    case Complete(id) => o == TheCall(id)
    case Exit(id) => o == TheCall(id)
    case BeginDrain(d, _) => o == TheDrain(d)
    case EndDrain(d) => o == TheDrain(d)
    case StopAdmission(_) => false
  }

  /** What a step of another thread leaves alone. */
  ghost predicate SameFor(o: Owner, s: State, t: State) {
    && s.closing <= t.closing
    && match o
       case TheCall(id) => (id in t.calls <==> id in s.calls) && (id in s.calls ==> t.calls[id] == s.calls[id])
       case TheDrain(d) => (d in t.drains <==> d in s.drains) && (d in s.drains ==> t.drains[d] == s.drains[d])
  }

  lemma OthersKeep(o: Owner, s: State, e: Event)
    requires !Owns(o, e)
    ensures SameFor(o, s, Step(s, e))
  {
  }

  lemma DeadStayDead(s: State, e: Event, id: CallId)
    requires Inv(s) && id in s.calls && s.calls[id].threaded && !Alive(s.calls[id])
    ensures id in Step(s, e).calls && Step(s, e).calls[id].threaded && !Alive(Step(s, e).calls[id])
  {
    assert CallInv(s, id);
  }

  ghost predicate DeadKept(s: State, t: State) {
    forall id :: id in s.calls && s.calls[id].threaded && !Alive(s.calls[id]) ==>
      id in t.calls && t.calls[id].threaded && !Alive(t.calls[id])
  }

  ghost predicate AllThreaded(s: State, ids: set<CallId>) {
    forall id :: id in ids ==> id in s.calls && s.calls[id].threaded
  }

  lemma StillJoined(s: State, t: State, d: DrainId, joined: set<CallId>)
    requires d in t.drains && joined <= t.drains[d].snapshot && AllThreaded(s, t.drains[d].snapshot)
    requires Inv(t) && DeadKept(s, t) && Joined(s, joined)
    ensures AllThreaded(t, t.drains[d].snapshot) && Joined(t, joined)
  {
    assert DrainInv(t, d);
  }

  lemma AloneInside(s: State, id: CallId)
    requires Inv(s) && id in s.calls && s.calls[id].stage.Inside?
    ensures forall k :: k in s.calls && s.calls[k].stage.Inside? && Key(s.calls[k]) == Key(s.calls[id]) ==> k == id
  {
    assert CallInv(s, id);
    assert forall k :: k in s.calls ==> CallInv(s, k);
  }

  datatype Scheduled = NotAdmitted | WorkerStarted | ReturnedAtOnce | Interrupted

  class ClaudeWakes {
    var world: State

    ghost predicate Valid()
      reads this
    {
      Inv(world)
    }

    constructor ()
      ensures Valid() && world == INITIAL
    {
      world := INITIAL;
    }

    /** Any number of steps of other threads. */
    method Others(o: Owner)
      requires Valid()
      modifies this
      ensures Valid() && SameFor(o, old(world), world)
      ensures DeadKept(old(world), world)
    {
      var steps: nat := *;
      while steps > 0
        invariant Valid() && SameFor(o, old(world), world)
        invariant DeadKept(old(world), world)
      {
        var e: Event := *;
        if !Owns(o, e) {
          OthersKeep(o, world, e);
          StepKeepsInv(world, e);
          forall id | id in world.calls && world.calls[id].threaded && !Alive(world.calls[id])
            ensures id in Step(world, e).calls && Step(world, e).calls[id].threaded && !Alive(Step(world, e).calls[id])
          {
            DeadStayDead(world, e, id);
          }
          world := Step(world, e);
        }
        steps := steps - 1;
      }
    }

    /** The first region: prune, then refuse, associate or register. */
    method Register(id: CallId, registry: Registry, endpoint: Endpoint) returns (admitted: bool)
      requires Valid() && id !in world.calls
      modifies this
      ensures Valid() && world == Step(old(world), Begin(id, registry, endpoint))
      ensures admitted <==> id in world.calls
      ensures admitted ==> world.calls[id].stage.Noted?
    {
      StepKeepsInv(world, Begin(id, registry, endpoint));
      world := world.(workers := Live(world));
      admitted := registry !in world.closing && (registry, endpoint) !in world.attemptIds;
      if admitted {
        world := world.(calls := world.calls[id := Call(registry, endpoint, Noted, false, 0, 0)],
          attemptIds := world.attemptIds[(registry, endpoint) := id]);
      }
    }

    /** The second region: start the worker unless the registry is closing or starting fails. */
    method StartWorker(id: CallId) returns (running: bool)
      requires Valid() && id in world.calls && world.calls[id].stage.Announced?
      modifies this
      ensures Valid() && exists succeeds :: world == Step(old(world), Start(id, succeeds))
      ensures id in world.calls && world.calls[id].stage == (if running then Running else Refused)
      ensures running ==> world.calls[id].registry !in world.closing
    {
      var succeeds: bool := *;
      StepKeepsInv(world, Start(id, succeeds));
      ghost var s := world;
      var c := world.calls[id];
      running := false;
      if c.registry !in world.closing {
        world := world.(workers := world.workers + {id});
        if succeeds {
          world := world.(calls := world.calls[id := c.(stage := Running, threaded := true)]);
          running := true;
        } else {
          world := world.(workers := world.workers - {id});
        }
      }
      if !running {
        world := Moved(world, id, Refused);
        assert CallInv(s, id);
        assert id !in s.workers;
      }
      assert world == Step(s, Start(id, succeeds));
    }

    /** The last region: drop the table entry if it is still this call's. */
    method DropKey(id: CallId)
      requires Valid() && id in world.calls && (world.calls[id].stage.Refused? || world.calls[id].stage.Left?)
      modifies this
      ensures Valid() && world == Step(old(world), Unkey(id))
    {
      StepKeepsInv(world, Unkey(id));
      var c := world.calls[id];
      if Key(c) in world.attemptIds && world.attemptIds[Key(c)] == id {
        world := world.(attemptIds := world.attemptIds - {Key(c)});
      }
      world := Moved(world, id, if c.stage.Refused? then RefusalUnkeyed else Unkeyed(c.stage.aborted));
    }

    /** `completed` is emitted unless the attempt's result was never bound. */
    method EmitCompleted(id: CallId)
      requires Valid() && id in world.calls && (world.calls[id].stage.RefusalUnkeyed? || world.calls[id].stage.Unkeyed?)
      modifies this
      ensures Valid() && world == Step(old(world), Complete(id))
    {
      StepKeepsInv(world, Complete(id));
      var c := world.calls[id];
      var emits := c.stage.RefusalUnkeyed? || !c.stage.aborted;
      var stage := if c.stage.RefusalUnkeyed? then ReturnedEarly else Finishing(c.stage.aborted);
      world := world.(calls := world.calls[id := c.(stage := stage, completed := c.completed + if emits then 1 else 0)]);
    }

    /** The `finally` block of a path. */
    method Finish(id: CallId)
      requires Valid() && id in world.calls && (world.calls[id].stage.Refused? || world.calls[id].stage.Left?)
      modifies this
      ensures Valid() && id in world.calls
      ensures world.calls[id].stage == if old(world).calls[id].stage.Refused? then ReturnedEarly else Finishing(old(world).calls[id].stage.aborted)
    {
      DropKey(id);
      Others(TheCall(id));
      EmitCompleted(id);
    }

    /** The thread enters the attempt, leaves it, or ends. */
    method MoveThread(id: CallId, e: Event)
      requires Valid() && Enabled(world, e) && (e == Enter(id) || e == Exit(id) || (e.Leave? && e.id == id))
      modifies this
      ensures Valid() && world == Step(old(world), e)
    {
      StepKeepsInv(world, e);
      world := Moved(world, id, if e.Enter? then Inside else if e.Leave? then Left(e.aborts) else Exited(world.calls[id].stage.aborted));
    }

    /** `schedule_claude_relay_wake`. */
    method Schedule(id: CallId, registry: Registry, endpoint: Endpoint) returns (result: Scheduled)
      requires Valid() && id !in world.calls
      modifies this
      ensures Valid()
      ensures result.NotAdmitted? <==> id !in world.calls
      ensures result.WorkerStarted? ==> world.calls[id].stage.Running? && registry !in old(world).closing
      ensures result.ReturnedAtOnce? ==> world.calls[id].stage.ReturnedEarly? && world.calls[id].completed == 1
      ensures result.Interrupted? ==> world.calls[id].stage.Stuck? && world.calls[id].completed == 0
    {
      var admitted := Register(id, registry, endpoint);
      if !admitted { return NotAdmitted; }
      Others(TheCall(id));
      var aborts: bool := *;
      StepKeepsInv(world, Announce(id, aborts));
      var c := world.calls[id];
      world := world.(calls := world.calls[id := c.(prepared := c.prepared + 1, stage := if aborts then Stuck else Announced)]);
      assert CallInv(world, id);
      if aborts { return Interrupted; }
      Others(TheCall(id));
      var running := StartWorker(id);
      if running { return WorkerStarted; }
      Others(TheCall(id));
      Finish(id);
      assert CallInv(world, id);
      return ReturnedAtOnce;
    }

    /** The thread body: while it is inside the attempt no other worker of its endpoint is. */
    method WorkerBody(id: CallId)
      requires Valid() && id in world.calls && world.calls[id].stage.Running?
      modifies this
      ensures Valid() && id in world.calls && world.calls[id].stage.Exited?
      ensures world.calls[id].completed == if world.calls[id].stage.aborted then 0 else 1
    {
      Others(TheCall(id));
      MoveThread(id, Enter(id));
      Others(TheCall(id));
      AloneInside(world, id);
      var aborts: bool := *;
      MoveThread(id, Leave(id, aborts));
      Others(TheCall(id));
      Finish(id);
      Others(TheCall(id));
      MoveThread(id, Exit(id));
      assert CallInv(world, id);
    }

    /** The region that copies the registry's workers. */
    method TakeSnapshot(d: DrainId, registry: Registry) returns (snapshot: set<CallId>)
      requires Valid() && d !in world.drains
      modifies this
      ensures Valid() && world == Step(old(world), BeginDrain(d, registry))
      ensures d in world.drains && world.drains[d] == DrainCall(registry, snapshot, registry in old(world).closing, false)
      ensures AllThreaded(world, snapshot)
    {
      StepKeepsInv(world, BeginDrain(d, registry));
      snapshot := set id | id in world.workers && id in world.calls && world.calls[id].registry == registry;
      world := world.(drains := world.drains[d := DrainCall(registry, snapshot, registry in world.closing, false)]);
      assert DrainInv(world, d);
    }

    /** The region after the joins. */
    method Forget(d: DrainId)
      requires Valid() && d in world.drains && !world.drains[d].returned && Joined(world, world.drains[d].snapshot)
      modifies this
      ensures Valid() && world == Step(old(world), EndDrain(d))
      ensures old(world).drains[d].afterStop ==>
                forall id :: id in world.calls && world.calls[id].registry == old(world).drains[d].registry ==> !Alive(world.calls[id])
    {
      StepKeepsInv(world, EndDrain(d));
      var snapshot := world.drains[d].snapshot;
      world := world.(drains := world.drains[d := world.drains[d].(returned := true)], workers := world.workers - snapshot);
      assert DrainInv(world, d);
    }

    /**
     * `drain_claude_relay_wakes`.  Waiting for a worker is any number of steps of
     * other threads; the drain may still be waiting when the method gives up.
     */
    method Drain(d: DrainId, registry: Registry) returns (returned: bool)
      requires Valid() && d !in world.drains
      modifies this
      ensures Valid()
      ensures returned && registry in old(world).closing ==>
                forall id :: id in world.calls && world.calls[id].registry == registry ==> !Alive(world.calls[id])
    {
      var snapshot := TakeSnapshot(d, registry);
      ghost var taken := world.drains[d];
      var waiting := snapshot;
      while waiting != {}
        invariant Valid() && waiting <= snapshot
        invariant d in world.drains && world.drains[d] == taken
        invariant AllThreaded(world, snapshot) && Joined(world, snapshot - waiting)
        decreases |waiting|
      {
        var id :| id in waiting;
        ghost var s := world;
        Others(TheDrain(d));
        StillJoined(s, world, d, snapshot - waiting);
        if Alive(world.calls[id]) { return false; }
        waiting := waiting - {id};
      }
      assert snapshot - waiting == snapshot;
      Forget(d);
      returned := true;
    }
  }
}
