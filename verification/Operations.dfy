/**
 * Operation accounting of the service process: the handshake between the event
 * loop and its worker threads in `run_operation`, `tracked_operation` and
 * `wait_for_operations`.
 *
 * Every region the source executes under its condition variable, and every
 * stretch between two awaits, is one event.  A run is any sequence of events, so
 * cancellation, a late worker, a closing event loop and a drain can fall
 * anywhere.
 */
module Operations {

  type OperationId = nat

  const WAKE_PERMITS: nat := 3

  /** Where the awaiting task of an operation is. */
  datatype TaskAt = AtAdmission | AtWorker | Finished

  /** Where the worker thread of an operation is. */
  datatype WorkerAt = NotBegun | InBody | BodyDone | Posted | Left | Skipped

  /**
   * One call of `run_operation`.  The three flags are the call's nonlocal
   * variables; the two counters record how often it was retired and how often
   * its wake permit was given back.
   */
  datatype Operation = Operation(
    wake: bool,
    task: TaskAt,
    worker: WorkerAt,
    workerStarted: bool,
    releasedBeforeStart: bool,
    admissionAcquired: bool,
    retirements: nat,
    releases: nat)

  datatype State = State(
    active: nat,
    permits: set<OperationId>,
    callbacks: set<OperationId>,
    loopOpen: bool,
    ops: map<OperationId, Operation>)

  datatype Event =
    | Enter(id: OperationId, wake: bool)
    | Admit(id: OperationId)
    | WorkerBegins(id: OperationId)
    | BodyEnds(id: OperationId)
    | PostRelease(id: OperationId)
    | WorkerLeaves(id: OperationId)
    | RunCallback(id: OperationId)
    | TaskFinishes(id: OperationId)
    | CloseLoop

  const INITIAL := State(0, {}, {}, true, map[])

  predicate Enabled(s: State, e: Event) {
    match e
    case Enter(id, _) => id !in s.ops
    case Admit(id) =>
      id in s.ops && s.ops[id].task.AtAdmission? && s.loopOpen && |s.permits| < WAKE_PERMITS && id !in s.permits
    case WorkerBegins(id) => id in s.ops && !s.ops[id].task.AtAdmission? && s.ops[id].worker.NotBegun?
    case BodyEnds(id) => id in s.ops && s.ops[id].worker.InBody?
    case PostRelease(id) => id in s.ops && s.ops[id].worker.BodyDone?
    case WorkerLeaves(id) => id in s.ops && s.ops[id].worker.Posted? && s.active > 0
    case RunCallback(id) => id in s.ops && id in s.callbacks && s.loopOpen
    case TaskFinishes(id) =>
      id in s.ops && !s.ops[id].task.Finished? && (s.ops[id].workerStarted || s.active > 0)
    case CloseLoop => true
  }

  /** One atomic region; an event that is not enabled changes nothing. */
  function Step(s: State, e: Event): State {
    if !Enabled(s, e) then s else
    match e
    case Enter(id, wake) =>
      var op := Operation(wake, if wake then AtAdmission else AtWorker, NotBegun, false, false, false, 0, 0);
      s.(active := s.active + 1, ops := s.ops[id := op])
    case Admit(id) =>
      s.(permits := s.permits + {id}, ops := s.ops[id := s.ops[id].(task := AtWorker, admissionAcquired := true)])
    case WorkerBegins(id) =>
      var op := s.ops[id];
      if op.releasedBeforeStart then s.(ops := s.ops[id := op.(worker := Skipped)])
      else s.(ops := s.ops[id := op.(worker := InBody, workerStarted := true)])
    case BodyEnds(id) => s.(ops := s.ops[id := s.ops[id].(worker := BodyDone)])
    case PostRelease(id) =>
      // On a closed loop the cross-thread call raises and the permit is abandoned with the loop.
      s.(callbacks := if s.ops[id].admissionAcquired && s.loopOpen then s.callbacks + {id} else s.callbacks,
         ops := s.ops[id := s.ops[id].(worker := Posted)])
    case WorkerLeaves(id) =>
      s.(active := s.active - 1,
         ops := s.ops[id := s.ops[id].(worker := Left, retirements := s.ops[id].retirements + 1)])
    case RunCallback(id) =>
      s.(callbacks := s.callbacks - {id}, permits := s.permits - {id},
         ops := s.ops[id := s.ops[id].(releases := s.ops[id].releases + 1)])
    case TaskFinishes(id) =>
      var op := s.ops[id].(task := Finished);
      if op.workerStarted then s.(ops := s.ops[id := op])
      else
        var dropped := op.(releasedBeforeStart := true, retirements := op.retirements + 1);
        if op.admissionAcquired
        then s.(active := s.active - 1, permits := s.permits - {id},
                ops := s.ops[id := dropped.(releases := op.releases + 1)])
        else s.(active := s.active - 1, ops := s.ops[id := dropped])
    case CloseLoop => s.(loopOpen := false)
  }

  function Run(s: State, events: seq<Event>): State
    decreases |events|
  {
    if events == [] then s else Run(Step(s, events[0]), events[1..])
  }

  /** The operation has been taken off the active count. */
  predicate Retired(op: Operation) { op.releasedBeforeStart || op.worker.Left? }

  /** Operations entered and not yet retired. */
  function Outstanding(s: State): set<OperationId> {
    set id | id in s.ops && !Retired(s.ops[id])
  }

  function Running(s: State): set<OperationId> {
    set id | id in s.ops && s.ops[id].worker.InBody?
  }

  function WakeBodies(s: State): set<OperationId> {
    set id | id in s.ops && s.ops[id].worker.InBody? && s.ops[id].wake
  }

  ghost predicate OperationInv(s: State, id: OperationId)
    requires id in s.ops
  {
    var op := s.ops[id];
    && (op.workerStarted <==> op.worker.InBody? || op.worker.BodyDone? || op.worker.Posted? || op.worker.Left?)
    && (op.releasedBeforeStart <==> op.task.Finished? && !op.workerStarted)
    && (op.worker.Skipped? ==> op.releasedBeforeStart)
    && (op.task.AtAdmission? ==> op.wake && op.worker.NotBegun? && !op.admissionAcquired)
    && (op.wake && (op.task.AtWorker? || op.workerStarted) ==> op.admissionAcquired)
    && op.retirements == (if Retired(op) then 1 else 0)
    && op.releases <= (if op.admissionAcquired then 1 else 0)
    && (id in s.permits <==> op.admissionAcquired && op.releases == 0)
    && (op.releases == 1 ==> op.releasedBeforeStart || op.worker.Posted? || op.worker.Left?)
    && (op.releasedBeforeStart && op.admissionAcquired ==> op.releases == 1)
    && (id in s.callbacks ==> op.admissionAcquired && op.releases == 0 && (op.worker.Posted? || op.worker.Left?))
    && (s.loopOpen && op.admissionAcquired && op.releases == 0 && (op.worker.Posted? || op.worker.Left?)
        ==> id in s.callbacks)
  }

  ghost predicate Inv(s: State) {
    && s.active == |Outstanding(s)|
    && s.permits <= s.ops.Keys
    && s.callbacks <= s.ops.Keys
    && |s.permits| <= WAKE_PERMITS
    && forall id :: id in s.ops ==> OperationInv(s, id)
  }

  /** The operation an event is about; closing the loop is about none. */
  function Subject(e: Event): set<OperationId> {
    if e.CloseLoop? then {} else {e.id}
  }

  /** An event leaves the books of every other operation alone. */
  lemma StepKeepsOthers(s: State, e: Event, id: OperationId)
    requires Inv(s) && id in s.ops && id !in Subject(e)
    ensures var t := Step(s, e); id in t.ops && t.ops[id] == s.ops[id] && OperationInv(t, id)
  {
    assert OperationInv(s, id);
  }

  lemma StepKeepsSubject(s: State, e: Event)
    requires Inv(s) && Enabled(s, e) && !e.CloseLoop?
    ensures var t := Step(s, e); e.id in t.ops && OperationInv(t, e.id)
  {
    if !e.Enter? { assert OperationInv(s, e.id); }
  }

  /** How one changed record moves the set of outstanding operations. */
  lemma OutstandingAfter(s: State, t: State, id: OperationId)
    requires id in t.ops && t.ops == s.ops[id := t.ops[id]]
    ensures Outstanding(t) == if Retired(t.ops[id]) then Outstanding(s) - {id} else Outstanding(s) + {id}
  {
    forall other | other != id ensures other in Outstanding(t) <==> other in Outstanding(s) {
    }
  }

  /** An event about an entered operation changes its record alone, and the count by its retirement. */
  lemma StepMovesOneRecord(s: State, e: Event)
    requires Inv(s) && Enabled(s, e) && !e.CloseLoop? && !e.Enter?
    ensures var t := Step(s, e);
      && e.id in s.ops && e.id in t.ops && t.ops == s.ops[e.id := t.ops[e.id]]
      && (Retired(s.ops[e.id]) ==> Retired(t.ops[e.id]))
      && t.active == s.active - (if Retired(t.ops[e.id]) && !Retired(s.ops[e.id]) then 1 else 0)
  {
    assert OperationInv(s, e.id);
  }

  lemma StepKeepsCount(s: State, e: Event)
    requires Inv(s) && Enabled(s, e)
    ensures var t := Step(s, e); t.active == |Outstanding(t)|
  {
    var t := Step(s, e);
    if e.CloseLoop? {
      assert Outstanding(t) == Outstanding(s);
    } else if e.Enter? {
      OutstandingAfter(s, t, e.id);
    } else {
      StepMovesOneRecord(s, e);
      OutstandingAfter(s, t, e.id);
      if !Retired(t.ops[e.id]) {
        assert Outstanding(s) + {e.id} == Outstanding(s);
      } else if Retired(s.ops[e.id]) {
        assert Outstanding(s) - {e.id} == Outstanding(s);
      }
    }
  }

  lemma StepKeepsInv(s: State, e: Event)
    requires Inv(s)
    ensures Inv(Step(s, e))
  {
    if Enabled(s, e) {
      var t := Step(s, e);
      StepKeepsCount(s, e);
      forall id | id in t.ops ensures OperationInv(t, id) {
        if id in Subject(e) { StepKeepsSubject(s, e); } else { StepKeepsOthers(s, e, id); }
      }
    }
  }

  /**
   * Every schedule keeps the books: the active count is the number of operations
   * entered and not retired, nobody is retired twice, and no permit is given
   * back twice.
   */
  lemma {:induction false} EveryRunIsAccounted(s: State, events: seq<Event>)
    requires Inv(s)
    ensures Inv(Run(s, events))
    decreases |events|
  {
    if events != [] {
      StepKeepsInv(s, events[0]);
      EveryRunIsAccounted(Step(s, events[0]), events[1..]);
    }
  }

  lemma InitialInv()
    ensures Inv(INITIAL)
  {
    assert Outstanding(INITIAL) == {};
  }

  /** At most three wake bodies run at once, and each of them holds a permit. */
  lemma WakeBodiesAreBounded(events: seq<Event>)
    ensures var s := Run(INITIAL, events); WakeBodies(s) <= s.permits && |WakeBodies(s)| <= WAKE_PERMITS
  {
    InitialInv();
    EveryRunIsAccounted(INITIAL, events);
    var s := Run(INITIAL, events);
    forall id | id in WakeBodies(s) ensures id in s.permits { assert OperationInv(s, id); }
    SubsetSize(WakeBodies(s), s.permits);
  }

  lemma SubsetSize(a: set<OperationId>, b: set<OperationId>)
    requires a <= b
    ensures |a| <= |b|
  {
    assert b == a + (b - a);
  }

  /** A body never starts once its operation has been taken off the count. */
  lemma NoBodyStartsAfterItsCountWasDropped(events: seq<Event>, e: Event, id: OperationId)
    requires id in Running(Step(Run(INITIAL, events), e))
    ensures var s := Run(INITIAL, events); id in s.ops && !Retired(s.ops[id])
  {
    InitialInv();
    EveryRunIsAccounted(INITIAL, events);
    var s := Run(INITIAL, events);
    StepKeepsInv(s, e);
    var t := Step(s, e);
    assert OperationInv(t, id);
    assert id in s.ops && OperationInv(s, id);
  }

  lemma RetirementSurvivesStep(s: State, e: Event, id: OperationId)
    requires Inv(s) && id in s.ops && Retired(s.ops[id])
    ensures var t := Step(s, e); Inv(t) && id in t.ops && Retired(t.ops[id])
  {
    StepKeepsInv(s, e);
    assert OperationInv(s, id);
    if id !in Subject(e) { StepKeepsOthers(s, e, id); }
  }

  /** A retired operation stays retired and its body never runs again. */
  lemma {:induction false} RetirementIsFinal(s: State, events: seq<Event>, id: OperationId)
    requires Inv(s) && id in s.ops && Retired(s.ops[id])
    ensures var t := Run(s, events); id in t.ops && Retired(t.ops[id]) && id !in Running(t)
    decreases |events|
  {
    assert OperationInv(s, id);
    if events != [] {
      RetirementSurvivesStep(s, events[0], id);
      RetirementIsFinal(Step(s, events[0]), events[1..], id);
    }
  }

  /**
   * When the drain observes a zero count no body is running, and whatever
   * happens afterwards only operations entered after the drain can run.
   */
  lemma DrainIsFinal(before: seq<Event>, after: seq<Event>)
    requires Run(INITIAL, before).active == 0
    ensures
      var s := Run(INITIAL, before);
      && Running(s) == {}
      && forall id :: id in Running(Run(s, after)) ==> id !in s.ops
  {
    InitialInv();
    EveryRunIsAccounted(INITIAL, before);
    var s := Run(INITIAL, before);
    assert Outstanding(s) == {};
    forall id | id in s.ops
      ensures Retired(s.ops[id]) && id !in Running(s) && id !in Running(Run(s, after))
    {
      assert id !in Outstanding(s);
      assert OperationInv(s, id);
      RetirementIsFinal(s, after, id);
    }
  }

  /** Nothing is left to do except starting workers whose operation was already dropped. */
  predicate Quiescent(s: State) {
    && s.callbacks == {}
    && forall id :: id in s.ops ==>
      && s.ops[id].task.Finished?
      && (s.ops[id].worker.NotBegun? || s.ops[id].worker.Skipped? || s.ops[id].worker.Left?)
  }

  /**
   * Once everything has ended on an open loop, each operation was retired
   * exactly once, each acquired permit was given back exactly once and all three
   * permits are free again.
   */
  lemma QuiescenceReturnsEverything(events: seq<Event>)
    requires var s := Run(INITIAL, events); Quiescent(s) && s.loopOpen
    ensures
      var s := Run(INITIAL, events);
      && s.active == 0 && s.permits == {}
      && forall id :: id in s.ops ==>
        s.ops[id].retirements == 1 && s.ops[id].releases == (if s.ops[id].admissionAcquired then 1 else 0)
  {
    InitialInv();
    EveryRunIsAccounted(INITIAL, events);
    var s := Run(INITIAL, events);
    forall id | id in s.ops
      ensures id !in Outstanding(s) && id !in s.permits && s.ops[id].retirements == 1
      ensures s.ops[id].releases == (if s.ops[id].admissionAcquired then 1 else 0)
    {
      assert OperationInv(s, id);
    }
    assert Outstanding(s) == {};
    assert s.permits == {};
  }

  /**
   * The shared state of `create_app`: every method is one atomic region of the
   * source and refines the event of the same name.
   */
  class OperationGate {
    var active: nat
    var permits: set<OperationId>
    var callbacks: set<OperationId>
    var loopOpen: bool
    var ops: map<OperationId, Operation>

    ghost function Now(): State
      reads this
    {
      State(active, permits, callbacks, loopOpen, ops)
    }

    constructor ()
      ensures Now() == INITIAL && Inv(Now())
    {
      active, permits, callbacks, loopOpen, ops := 0, {}, {}, true, map[];
      new;
      InitialInv();
    }

    /** `with operations: active_operations += 1`. */
    method EnterOperation(id: OperationId, wake: bool)
      requires Inv(Now()) && id !in ops
      modifies this
      ensures Inv(Now()) && Now() == Step(old(Now()), Enter(id, wake))
    {
      StepKeepsInv(Now(), Enter(id, wake));
      active := active + 1;
      ops := ops[id := Operation(wake, if wake then AtAdmission else AtWorker, NotBegun, false, false, false, 0, 0)];
    }

    /** `await admission_limiter.acquire_on_behalf_of(borrower)`; its asyncio task stays waiting when no permit is free. */
    method AcquireAdmission(id: OperationId) returns (granted: bool)
      requires Inv(Now()) && id in ops && ops[id].task.AtAdmission?
      modifies this
      ensures Inv(Now()) && Now() == Step(old(Now()), Admit(id))
      ensures granted <==> old(loopOpen) && |old(permits)| < WAKE_PERMITS
      ensures granted ==> permits == old(permits) + {id}
    {
      StepKeepsInv(Now(), Admit(id));
      assert OperationInv(Now(), id);
      granted := loopOpen && |permits| < WAKE_PERMITS;
      if granted {
        permits := permits + {id};
        ops := ops[id := ops[id].(task := AtWorker, admissionAcquired := true)];
      }
    }

    /** The first locked region of `tracked_operation`: false is its early `return None`. */
    method BeginTracked(id: OperationId) returns (runs: bool)
      requires Inv(Now()) && id in ops && !ops[id].task.AtAdmission? && ops[id].worker.NotBegun?
      modifies this
      ensures Inv(Now()) && Now() == Step(old(Now()), WorkerBegins(id))
      ensures runs <==> !Retired(old(ops[id]))
    {
      StepKeepsInv(Now(), WorkerBegins(id));
      if ops[id].releasedBeforeStart {
        ops := ops[id := ops[id].(worker := Skipped)];
        return false;
      }
      ops := ops[id := ops[id].(worker := InBody, workerStarted := true)];
      return true;
    }

    /** The body returned or raised; the worker then hands its permit back through the loop. */
    method EndBodyAndPost(id: OperationId)
      requires Inv(Now()) && id in ops && ops[id].worker.InBody?
      modifies this
      ensures Inv(Now()) && Now() == Step(Step(old(Now()), BodyEnds(id)), PostRelease(id))
    {
      StepKeepsInv(Now(), BodyEnds(id));
      StepKeepsInv(Step(Now(), BodyEnds(id)), PostRelease(id));
      if ops[id].admissionAcquired && loopOpen {
        callbacks := callbacks + {id};
      }
      ops := ops[id := ops[id].(worker := BodyDone)];
      ops := ops[id := ops[id].(worker := Posted)];
    }

    /** The innermost `finally` of `tracked_operation`. */
    method RetireWorker(id: OperationId)
      requires Inv(Now()) && id in ops && ops[id].worker.Posted?
      modifies this
      ensures Inv(Now()) && Now() == Step(old(Now()), WorkerLeaves(id))
      ensures active == old(active) - 1
    {
      assert OperationInv(Now(), id);
      assert id in Outstanding(Now());
      StepKeepsInv(Now(), WorkerLeaves(id));
      active := active - 1;
      ops := ops[id := ops[id].(worker := Left, retirements := ops[id].retirements + 1)];
    }

    /** The loop runs a posted `release_on_behalf_of`. */
    method DeliverRelease(id: OperationId)
      requires Inv(Now()) && id in callbacks && loopOpen
      modifies this
      ensures Inv(Now()) && Now() == Step(old(Now()), RunCallback(id))
      ensures id in old(permits) && permits == old(permits) - {id}
    {
      StepKeepsInv(Now(), RunCallback(id));
      assert OperationInv(Now(), id);
      callbacks := callbacks - {id};
      permits := permits - {id};
      ops := ops[id := ops[id].(releases := ops[id].releases + 1)];
    }

    /** The `finally` of `run_operation`, reached by completion or by cancellation at any await. */
    method FinishTask(id: OperationId)
      requires Inv(Now()) && id in ops && !ops[id].task.Finished?
      modifies this
      ensures Inv(Now()) && Now() == Step(old(Now()), TaskFinishes(id))
    {
      assert OperationInv(Now(), id);
      if !ops[id].workerStarted { assert id in Outstanding(Now()); }
      StepKeepsInv(Now(), TaskFinishes(id));
      var op := ops[id].(task := Finished);
      if !op.workerStarted {
        op := op.(releasedBeforeStart := true, retirements := op.retirements + 1);
        active := active - 1;
        if op.admissionAcquired {
          permits := permits - {id};
          op := op.(releases := op.releases + 1);
        }
      }
      ops := ops[id := op];
    }

    /** `wait_for_operations`: a true answer means that no body is running. */
    method WaitForOperations() returns (idle: bool)
      requires Inv(Now())
      ensures idle <==> Outstanding(Now()) == {}
      ensures idle ==> Running(Now()) == {}
    {
      idle := active == 0;
      if idle {
        forall id | id in ops ensures id !in Running(Now()) {
          assert OperationInv(Now(), id);
          assert id !in Outstanding(Now());
        }
      }
    }
  }
}
