/**
 * One wake worker, from its debounce to its release, over the shared fence.
 *
 * Other threads run between any two locked regions of the worker: `Others` lets
 * an arbitrary number of their steps happen.  Answers of the desktop, of the
 * store and of the operating system are arbitrary.
 */
module WakeDispatch {
  import opened Wrappers
  import opened WakeFence
  import Tables = ScheduleTable

  datatype Verdict = Deferred | Unclear | Submitted

  datatype Reason =
    | RetryNotDue | TargetNotIdle | TargetArchived | FenceFailed | NativeSubmitted | NativeUnavailable
    | QueueResponseFailed | UnexpectedError | QueueAccepted | LaunchFailure(reason: LaunchReason)

  /** `evidence` is the "submission_attempted" entry. */
  datatype Attempt = Attempt(verdict: Verdict, reason: Reason, evidence: bool, retrySafe: bool)

  /** What the state read of a dispatch found. */
  datatype Reading = ReadFailed | NotEligible | Archived | Idle | NotLoaded

  /** How the locked write region ended. */
  datatype Written = Refused | Raised(spent: bool) | QueueInitiated(processStarted: bool) | OwnerInitiated

  predicate OfWorker(e: Event, id: WorkerId) {
    match e
    case QueueStart(k, _, _, _, _) => k == id
    case QueueFinish(k, _) => k == id
    case Defer(k) => k == id
    case Rearm(k, _, _, _) => k == id
    case Write(k, _, _, _, _) => k == id
    case Settle(k, _) => k == id
    case Restart => true
    case _ => false
  }

  /** A step of another thread leaves this worker as it is. */
  lemma OthersKeepWorker(s: State, e: Event, id: WorkerId)
    requires id in s.workers && !OfWorker(e, id)
    ensures id in Step(s, e).workers && Step(s, e).workers[id] == s.workers[id]
  {
  }

  /** A refused retry leaves its record to the worker; neither outcome submits or releases anything. */
  lemma RearmingOnlyRenews(s: State, id: WorkerId, commit: Commit, target: nat, retryAt: int)
    requires id in s.workers && s.workers[id].phase.Waiting? && s.workers[id].retrying
    ensures
      var t := Step(s, Rearm(id, commit, target, retryAt));
      && t.submissions == s.submissions && t.released == s.released && id in t.workers
      && t.workers[id].retrying && (t.workers[id].phase.Rearmed? || t.workers[id] == s.workers[id].(phase := Decided(false)))
  {
  }

  class WakeWorker {
    const id: WorkerId
    var world: State
    /** Initiations by this worker: queue launches and owner calls. */
    var queueStarts: nat
    var ownerCalls: nat
    /** Generations whose record this worker removed from the registry. */
    var ownReleases: set<Generation>

    ghost predicate Valid()
      reads this
    {
      Inv(world) && id in world.workers
    }

    function Me(): Worker
      reads this
      requires id in world.workers
    {
      world.workers[id]
    }

    /** `_schedule_reserved_codex_relay_wake`: a worker for one reservation that was read earlier. */
    constructor (k: WorkerId, shared: State, r: Reservation)
      requires Inv(shared) && Enabled(shared, Scheduling(k, r))
      ensures Valid() && id == k && world == Step(shared, Scheduling(k, r))
      ensures Me() == Worker(r, !r.stage.Prepared?, Waiting, false)
      ensures queueStarts == 0 && ownerCalls == 0 && ownReleases == {}
    {
      StepKeepsInv(shared, Scheduling(k, r));
      id := k;
      world := SetWorker(shared.(table := Tables.Step(shared.table, Tables.Schedule(Holder(r), k))), k,
                         Worker(r, !r.stage.Prepared?, Waiting, false));
      queueStarts := 0;
      ownerCalls := 0;
      ownReleases := {};
    }

    /** Any number of steps of other threads. */
    method Others()
      requires Valid()
      modifies `world
      ensures Valid() && Me() == old(Me())
      ensures old(world).released <= world.released && old(world).submissions <= world.submissions
      ensures old(world).spent <= world.spent
    {
      var steps: nat := *;
      while steps > 0
        invariant Valid() && Me() == old(Me())
        invariant old(world).released <= world.released && old(world).submissions <= world.submissions
        invariant old(world).spent <= world.spent
      {
        var e: Event := *;
        if !OfWorker(e, id) {
          OthersKeepWorker(world, e, id);
          StepKeepsInv(world, e);
          StepOnlyAdds(world, e);
          world := Step(world, e);
        }
        steps := steps - 1;
      }
    }

    /** The worker's verdict, without any native step. */
    method Conclude(safe: bool)
      requires Valid() && (Me().phase.Waiting? || Me().phase.Rearmed?) && (safe ==> !Me().retrying)
      modifies `world
      ensures Valid() && Me() == old(Me()).(phase := Decided(safe))
      ensures world == old(world).(workers := world.workers)
    {
      assert WorkerInv(world, id);
      SetWorkerKeepsInv(world, id, Me().(phase := Decided(safe)));
      world := SetWorker(world, id, Me().(phase := Decided(safe)));
    }

    /** `begin_native_attempt`: an answer means the held record was current and is now spent. */
    method BeginNativeAttempt(r: Reservation, ready: bool, commit: Commit, retryAt: int) returns (answer: bool)
      requires Valid()
      modifies `world
      ensures world == SpendAndStart(old(world), r, ready, commit, retryAt, false)
      ensures answer == Begun(old(world), r, ready, commit, retryAt)
    {
      answer := false;
      if ready && Current(world.reg, r) && r.stage.Prepared? && r.claimed.None? {
        if !commit.Nothing? {
          var reg := world.reg.(rows := world.reg.rows[r.endpoint := Spent(r, retryAt)]);
          world := Stored(world, reg).(spent := world.spent + {r.generation});
          answer := commit.Answered?;
        }
      }
    }

    /** `rearm_for_retry`, with a verdict at once when the fence refuses it. */
    method RearmForRetry(target: nat, retryAt: int, commit: Commit) returns (rearmed: bool)
      requires Valid() && Me().phase.Waiting? && Me().retrying
      modifies `world
      ensures Valid() && world == Step(old(world), Rearm(id, commit, target, retryAt))
      ensures Me().phase == if rearmed then Rearmed else Decided(false)
      ensures Me().retrying && (!rearmed ==> Me().held == old(Me()).held)
      ensures world.submissions == old(world).submissions && world.released == old(world).released
    {
      StepKeepsInv(world, Rearm(id, commit, target, retryAt));
      RearmingOnlyRenews(world, id, commit, target, retryAt);
      var w := Me();
      var next := if w.held.claimed.None? then Regenerate(world.reg, w.held, target, Prepared, Some(retryAt)) else None;
      world := Stored(world, Commits(world.reg, next, commit));
      rearmed := next.Some? && commit.Answered?;
      if rearmed {
        world := SetWorker(world, id, Worker(next.value.rows[w.held.endpoint], true, Rearmed, false));
      } else {
        world := SetWorker(world, id, w.(phase := Decided(false)));
      }
    }

    /**
     * The region of `run_if_current(reservation, write)`.  Checks before the spend
     * may refuse or raise; after it exactly one transport is initiated.
     */
    method WriteRegion(idle: bool, r: Reservation, ready: bool, commit: Commit, retryAt: int) returns (written: Written)
      requires Valid() && r == Me().held
      requires Me().phase.Rearmed? || (Me().phase.Waiting? && !Me().retrying)
      requires queueStarts == 0 && ownerCalls == 0
      modifies `world, `queueStarts, `ownerCalls
      ensures Valid() && Me().held == r && Me().retrying == old(Me()).retrying && Me().phase.Decided?
      ensures Me().phase.retrySafe ==> queueStarts == 0 && ownerCalls == 0
      ensures match written
        case Refused => Me().phase.retrySafe == (!Me().retrying && r.retryAt.None?)
        case Raised(spent) => Me().phase.retrySafe == (!spent && !Me().retrying) && (queueStarts == 1 ==> spent)
        case QueueInitiated(processStarted) => !Me().phase.retrySafe && idle && queueStarts == 1
        case OwnerInitiated => !Me().phase.retrySafe && !idle && ownerCalls == 1
      ensures queueStarts == (if written.QueueInitiated? || (written.Raised? && written.spent && idle) then 1 else 0)
      ensures ownerCalls == (if written.OwnerInitiated? || (written.Raised? && written.spent && !idle) then 1 else 0)
      ensures queueStarts + ownerCalls == 1 ==> r.generation in world.spent
      ensures old(world).released == world.released && old(world).submissions <= world.submissions
      ensures world.submissions != old(world).submissions ==>
        world.submissions == old(world).submissions + [r.generation] && !written.Refused?
        && (written.Raised? ==> written.spent) && (written.QueueInitiated? ==> written.processStarted)
      ensures written.OwnerInitiated? || (written.QueueInitiated? && written.processStarted) ==>
        world.submissions == old(world).submissions + [r.generation]
    {
      var raises: bool := *;
      if raises {
        Conclude(!Me().retrying);
        return Raised(false);
      }
      var submits: bool := *;
      var fails: bool := *;
      submits := submits || !(idle || fails);
      var begun := SpendAndInitiate(idle, r, ready, commit, retryAt, submits);
      written := if !begun then Refused else if fails then Raised(true) else if idle then QueueInitiated(submits) else OwnerInitiated;
    }

    /** After the checks: spend, then initiate on the transport that fits the target. */
    method SpendAndInitiate(idle: bool, r: Reservation, ready: bool, commit: Commit, retryAt: int, submits: bool) returns (begun: bool)
      requires Valid() && r == Me().held
      requires Me().phase.Rearmed? || (Me().phase.Waiting? && !Me().retrying)
      modifies `world, `queueStarts, `ownerCalls
      ensures Valid() && world == Step(old(world), Write(id, ready, commit, retryAt, submits))
      ensures Me().phase == Decided(!begun && !Me().retrying && r.retryAt.None?)
      ensures Me().held == r && Me().retrying == old(Me()).retrying && world.released == old(world).released
      ensures queueStarts == old(queueStarts) + (if begun && idle then 1 else 0)
      ensures ownerCalls == old(ownerCalls) + (if begun && !idle then 1 else 0)
      ensures world.submissions == old(world).submissions + (if begun && submits then [r.generation] else [])
      ensures begun ==> r.generation in world.spent
    {
      ghost var s := world;
      StepKeepsInv(world, Write(id, ready, commit, retryAt, submits));
      var w := Me();
      begun := BeginNativeAttempt(r, ready, commit, retryAt);
      if begun {
        if idle { queueStarts := queueStarts + 1; } else { ownerCalls := ownerCalls + 1; }
        if submits { world := world.(submissions := world.submissions + [r.generation]); }
      }
      world := SetWorker(world, id, w.(phase := Decided(!begun && !w.retrying && w.held.retryAt.None?), submitted := begun && submits));
      assert world == Step(s, Write(id, ready, commit, retryAt, submits));
    }

    /**
     * `RetainedService.dispatch`.  At most one initiation on one transport; a
     * verdict that permits a retry comes only from a prepared reservation for
     * which this dispatch initiated nothing.
     */
    method Dispatch(r: Reservation, retryAt: int) returns (attempt: Attempt, now: Reservation)
      requires Valid() && Me() == Worker(r, !r.stage.Prepared?, Waiting, false)
      requires queueStarts == 0 && ownerCalls == 0
      modifies `world, `queueStarts, `ownerCalls
      ensures Valid() && Me().phase == Decided(attempt.retrySafe) && Me().held == now
      ensures queueStarts + ownerCalls <= 1
      ensures queueStarts + ownerCalls == 1 ==> !attempt.retrySafe && !attempt.verdict.Deferred?
      ensures queueStarts + ownerCalls == 1 ==> now.generation in world.spent
      ensures attempt.verdict.Deferred? ==>
                attempt.retrySafe == (r.stage.Prepared? && (attempt.reason.FenceFailed? ==> r.retryAt.None?))
      ensures attempt.retrySafe ==> now == r && r.stage.Prepared? && attempt.verdict.Deferred? && !attempt.evidence
      ensures attempt.verdict.Submitted? ==> queueStarts == 1 && attempt.evidence
      ensures ownerCalls == 1 ==> attempt.evidence
      ensures queueStarts == 1 && !attempt.evidence ==> attempt.reason.LaunchFailure?
      ensures r.stage.Prepared? ==> now == r
    {
      now := r;
      var retrying := !r.stage.Prepared?;
      if retrying {
        var due: bool := *;
        if !due {
          Conclude(false);
          return Attempt(Deferred, RetryNotDue, false, false), now;
        }
      }
      Others();
      var reading: Reading := *;
      if reading.ReadFailed? || reading.NotEligible? || reading.Archived? {
        Conclude(!retrying);
        var reason := if reading.ReadFailed? then NativeUnavailable else if reading.NotEligible? then TargetNotIdle else TargetArchived;
        return Attempt(Deferred, reason, false, !retrying), now;
      }
      if retrying {
        var target: nat, commit: Commit, rearmedAt: int := *, *, *;
        var rearmed := RearmForRetry(target, rearmedAt, commit);
        if !rearmed {
          return Attempt(Deferred, FenceFailed, false, false), now;
        }
        now := Me().held;
        Others();
      }
      var ready: bool, commit: Commit := *, *;
      var written := WriteRegion(reading.Idle?, now, ready, commit, retryAt);
      Others();
      match written {
        case Refused =>
          return Attempt(Deferred, FenceFailed, false, !retrying && now.retryAt.None?), now;
        case Raised(spent) =>
          return Attempt(if spent then Unclear else Deferred, NativeUnavailable, spent, !spent && !retrying), now;
        case OwnerInitiated =>
          var failed: bool := *;
          return Attempt(Unclear, if failed then NativeUnavailable else NativeSubmitted, true, false), now;
        case QueueInitiated(processStarted) =>
          attempt := FinishQueue(processStarted);
      }
    }

    /** The queue result of a dispatch: once spent it is never safe to retry. */
    method FinishQueue(processStarted: bool) returns (attempt: Attempt)
      ensures !attempt.retrySafe && !attempt.verdict.Deferred?
      ensures attempt.verdict.Submitted? ==> attempt.evidence && processStarted
      ensures processStarted ==> attempt.evidence
      ensures !attempt.evidence ==> attempt.reason.LaunchFailure?
    {
      var raises: bool := *;
      if raises { return Attempt(Unclear, QueueResponseFailed, true, false); }
      var outcome, reason := LaunchResult(processStarted);
      var launched := AttemptFromLaunch(outcome, reason);
      attempt := Attempt(if launched.verdict.Submitted? then Submitted else Unclear, launched.reason, launched.evidence, false);
    }

    /** `_start_launch` and `_finish_launch`. */
    method LaunchResult(processStarted: bool) returns (outcome: LaunchOutcome, reason: LaunchReason)
      ensures PossibleLaunch(processStarted, outcome, reason)
    {
      if !processStarted {
        reason := *;
        outcome := FailedLaunch;
        if !(reason.InvalidHome? || reason.OsError? || reason.ValueError?) { reason := OsError; }
      } else {
        outcome := *;
        reason := match outcome case Queued => NoReason case Ambiguous => Timeout case FailedLaunch => NonzeroExit;
        var late: bool := *;
        if outcome.Ambiguous? && late { reason := PostStartError; }
      }
    }

    /**
     * `_wake_after_debounce` with the retained service: dispatch, then release
     * the generation exactly when the verdict permits a retry.
     */
    method WakeRetained(r: Reservation, retryAt: int, commit: Commit) returns (attempt: Attempt)
      requires Valid() && Me() == Worker(r, !r.stage.Prepared?, Waiting, false)
      requires queueStarts == 0 && ownerCalls == 0 && ownReleases == {}
      modifies this
      ensures Valid() && Me().phase.Done?
      ensures queueStarts + ownerCalls <= 1
      ensures attempt.retrySafe ==> queueStarts + ownerCalls == 0 && r.stage.Prepared?
      ensures ownReleases <= {r.generation} && (ownReleases != {} ==> attempt.retrySafe)
      ensures forall g :: g in world.released ==> g !in world.submissions
    {
      Others();
      var service: bool, raised: bool := *, *;
      var now := r;
      if !service {
        Conclude(r.stage.Prepared?);
        attempt := Attempt(Deferred, NativeUnavailable, false, r.stage.Prepared?);
      } else {
        attempt, now := Dispatch(r, retryAt);
        if raised {
          // An escaping exception says nothing about the fence: nothing is released.
          attempt := Attempt(Unclear, UnexpectedError, false, false);
        }
      }
      Others();
      SettleAndLeave(now, if service && raised then Nothing else commit);
    }

    /**
     * `_wake_after_debounce` without the retained service: spend, launch the
     * queue process, and release the spent generation when none was started.
     */
    method WakeQueued(r: Reservation, ready: bool, retryAt: int, spending: Commit, releasing: Commit) returns (attempt: Option<Attempt>)
      requires Valid() && Me() == Worker(r, !r.stage.Prepared?, Waiting, false)
      requires queueStarts == 0 && ownerCalls == 0 && ownReleases == {}
      modifies this
      ensures Valid() && Me().phase.Done?
      ensures queueStarts <= 1 && ownerCalls == 0
      ensures attempt.Some? ==> queueStarts == 1
      ensures attempt.Some? && attempt.value.retrySafe ==> r.generation !in world.submissions
      ensures ownReleases <= {r.generation} && (ownReleases != {} ==> attempt.Some? && attempt.value.retrySafe)
      ensures forall g :: g in world.released ==> g !in world.submissions
    {
      Others();
      var processStarted: bool := *;
      var begun := StartQueued(r, ready, spending, retryAt, processStarted);
      if !begun { return None; }
      Others();
      var raised: bool := *;
      var outcome, reason := LaunchResult(processStarted);
      var launched := if raised then Attempt(Unclear, UnexpectedError, true, false) else AttemptFromLaunch(outcome, reason);
      RetrySafeExactlyWithoutProcess(processStarted, outcome, reason);
      assert WorkerInv(world, id);
      LeaveLaunch(launched.retrySafe, releasing);
      return Some(launched);
    }

    /** The region of `run_if_current(reservation, start)`. */
    method StartQueued(r: Reservation, ready: bool, spending: Commit, retryAt: int, processStarted: bool) returns (begun: bool)
      requires Valid() && Me() == Worker(r, !r.stage.Prepared?, Waiting, false)
      modifies `world, `queueStarts
      ensures Valid() && world == Step(old(world), QueueStart(id, ready, spending, retryAt, processStarted))
      ensures begun == Begun(old(world), r, ready, spending, retryAt)
      ensures Me().held == r && Me().phase == if begun then Launching(Spent(r, retryAt), processStarted) else Done
      ensures queueStarts == old(queueStarts) + if begun then 1 else 0
    {
      ghost var s := world;
      StepKeepsInv(world, QueueStart(id, ready, spending, retryAt, processStarted));
      begun := BeginNativeAttempt(r, ready, spending, retryAt);
      if begun {
        queueStarts := queueStarts + 1;
        if processStarted { world := world.(submissions := world.submissions + [r.generation]); }
      }
      var w := Me();
      world := SetWorker(world, id, w.(phase := if begun then Launching(Spent(r, retryAt), processStarted) else Done,
                                       submitted := begun && processStarted));
      assert world == Step(s, QueueStart(id, ready, spending, retryAt, processStarted));
    }

    /** The end of a launch: release the spent reservation when the launch was safe to retry. */
    method LeaveLaunch(safe: bool, commit: Commit)
      requires Valid() && Me().phase.Launching? && (safe ==> !Me().phase.processStarted)
      modifies `world, `ownReleases
      ensures Valid() && Me().phase.Done?
      ensures world == Step(old(world), QueueFinish(id, if safe then commit else Nothing))
      ensures world.submissions == old(world).submissions
      ensures var spent := old(Me()).phase.spent;
        ownReleases == old(ownReleases) + (if safe && Current(old(world).reg, spent) && !commit.Nothing? then {spent.generation} else {})
    {
      var w := Me();
      var spent := w.phase.spent;
      StepKeepsInv(world, QueueFinish(id, if safe then commit else Nothing));
      if safe && Current(world.reg, spent) && !commit.Nothing? {
        var reg := world.reg.(rows := world.reg.rows - {spent.endpoint});
        world := Stored(world, reg).(released := world.released + {spent.generation});
        ownReleases := ownReleases + {spent.generation};
      }
      world := SetWorker(world, id, w.(phase := Done));
    }

    /** The end of a worker: release when permitted, and leave. */
    method SettleAndLeave(now: Reservation, commit: Commit)
      requires Valid() && Me().phase.Decided? && Me().held == now
      modifies `world, `ownReleases
      ensures Valid() && world == Step(old(world), Settle(id, commit))
      ensures Me().phase.Done?
      ensures ownReleases == old(ownReleases)
                + (if old(Me()).phase.retrySafe && Current(old(world).reg, now) && !commit.Nothing? then {now.generation} else {})
    {
      StepKeepsInv(world, Settle(id, commit));
      var w := Me();
      if w.phase.retrySafe && Current(world.reg, now) && !commit.Nothing? {
        var reg := world.reg.(rows := world.reg.rows - {now.endpoint});
        world := Stored(world, reg).(released := world.released + {now.generation});
        ownReleases := ownReleases + {now.generation};
      }
      world := SetWorker(world, id, w.(phase := Done));
    }
  }

  /** `_attempt_from_launch`. */
  function AttemptFromLaunch(outcome: LaunchOutcome, reason: LaunchReason): (a: Attempt)
    ensures a.retrySafe <==> LaunchRetrySafe(outcome, reason)
    ensures a.retrySafe ==> a.verdict.Deferred? && !a.evidence
    ensures a.evidence || a.retrySafe
  {
    if outcome.Queued? then Attempt(Submitted, QueueAccepted, true, false)
    else if outcome.Ambiguous? || reason.NonzeroExit? then Attempt(Unclear, LaunchFailure(reason), true, false)
    else if outcome.FailedLaunch? && (reason.InvalidHome? || reason.OsError? || reason.ValueError?)
    then Attempt(Deferred, LaunchFailure(reason), false, true)
    else Attempt(Unclear, LaunchFailure(reason), true, false)
  }
}
