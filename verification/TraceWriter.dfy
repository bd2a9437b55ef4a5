/**
 * The bounded best-effort trace queue: 64 slots, one writer thread, and a close
 * that several callers may race.
 *
 * `enqueue` is split where the writer thread can interleave with it (slot taken,
 * job submitted, done-callback attached); the writer thread and `close` are
 * split likewise.  A run is any sequence of these events.
 */
module TraceWriter {

  type EventId = nat

  const SLOTS: nat := 64

  datatype Status = Queued | Started | Ended | Dropped

  datatype Job = Job(event: EventId, status: Status, callback: bool, slotHeld: bool)

  /** Who is inside the `enqueue` lock and how far it got. */
  datatype Lock = Free | HasSlot(event: EventId) | Submitted(index: nat)

  datatype State = State(
    free: nat,
    lock: Lock,
    closed: bool,
    shutdown: bool,
    returned: bool,
    begun: nat,
    jobs: seq<Job>,
    written: seq<EventId>,
    offered: set<EventId>,
    rejected: set<EventId>)

  datatype Event =
    | TakeSlot(event: EventId)
    | Submit(accepted: bool)
    | AttachCallback
    | WriterStarts
    | WriterEnds
    | ReleaseSlot(index: nat)
    | MarkClosed
    | Shutdown
    | CloseReturns

  const INITIAL := State(SLOTS, Free, false, false, false, 0, [], [], {}, {})

  predicate WriterBusy(s: State) {
    0 < s.begun <= |s.jobs| && s.jobs[s.begun - 1].status.Started?
  }

  predicate Enabled(s: State, e: Event) {
    match e
    case TakeSlot(event) => s.lock.Free? && event !in s.offered
    case Submit(_) => s.lock.HasSlot?
    case AttachCallback => s.lock.Submitted? && s.lock.index < |s.jobs|
    case WriterStarts => !WriterBusy(s) && s.begun < |s.jobs| && s.jobs[s.begun].status.Queued?
    case WriterEnds => WriterBusy(s)
    case ReleaseSlot(i) =>
      i < |s.jobs| && (s.jobs[i].status.Ended? || s.jobs[i].status.Dropped?) && s.jobs[i].callback && s.jobs[i].slotHeld
    case MarkClosed => s.lock.Free?
    case Shutdown => s.closed
    case CloseReturns => s.shutdown && !WriterBusy(s)
  }

  /** `shutdown(cancel_futures=True)`: queued jobs are cancelled, started ones are not. */
  function CancelQueued(jobs: seq<Job>): (r: seq<Job>)
    ensures |r| == |jobs|
    ensures forall i :: 0 <= i < |jobs| ==>
      r[i] == if jobs[i].status.Queued? then jobs[i].(status := Dropped) else jobs[i]
  {
    if jobs == [] then []
    else [if jobs[0].status.Queued? then jobs[0].(status := Dropped) else jobs[0]] + CancelQueued(jobs[1..])
  }

  function Step(s: State, e: Event): State {
    if !Enabled(s, e) then s else
    match e
    case TakeSlot(event) =>
      var o := s.(offered := s.offered + {event});
      if s.closed || s.free == 0 then o.(rejected := s.rejected + {event})
      else o.(free := s.free - 1, lock := HasSlot(event))
    case Submit(accepted) =>
      if accepted
      then s.(jobs := s.jobs + [Job(s.lock.event, Queued, false, true)], lock := Submitted(|s.jobs|))
      else s.(free := s.free + 1, rejected := s.rejected + {s.lock.event}, lock := Free)
    case AttachCallback =>
      // A callback attached to a finished future runs at once.
      var i := s.lock.index;
      var done := s.jobs[i].status.Ended? || s.jobs[i].status.Dropped?;
      s.(jobs := s.jobs[i := s.jobs[i].(callback := true, slotHeld := !done)],
         free := if done then s.free + 1 else s.free, lock := Free)
    case WriterStarts =>
      s.(jobs := s.jobs[s.begun := s.jobs[s.begun].(status := Started)], begun := s.begun + 1,
         written := s.written + [s.jobs[s.begun].event])
    case WriterEnds => s.(jobs := s.jobs[s.begun - 1 := s.jobs[s.begun - 1].(status := Ended)])
    case ReleaseSlot(i) => s.(jobs := s.jobs[i := s.jobs[i].(slotHeld := false)], free := s.free + 1)
    case MarkClosed => s.(closed := true)
    case Shutdown => s.(shutdown := true, jobs := CancelQueued(s.jobs))
    case CloseReturns => s.(returned := true)
  }

  function Run(s: State, events: seq<Event>): State
    decreases |events|
  {
    if events == [] then s else Run(Step(s, events[0]), events[1..])
  }

  /** The accepted events, in the order `enqueue` accepted them. */
  function Accepted(jobs: seq<Job>): (r: seq<EventId>)
    ensures |r| == |jobs|
    ensures forall i :: 0 <= i < |jobs| ==> r[i] == jobs[i].event
  {
    seq(|jobs|, i requires 0 <= i < |jobs| => jobs[i].event)
  }

  function HeldSlots(s: State): set<nat> {
    set i: nat | i < |s.jobs| && s.jobs[i].slotHeld
  }

  /** Slots out of the semaphore: one per job not yet released, and the one `enqueue` is holding. */
  function OutstandingSlots(s: State): nat {
    |HeldSlots(s)| + if s.lock.HasSlot? then 1 else 0
  }

  ghost predicate JobInv(s: State, i: nat)
    requires i < |s.jobs|
  {
    var job := s.jobs[i];
    && (i < s.begun ==> job.status.Ended? || (job.status.Started? && i == s.begun - 1))
    && (i >= s.begun ==> if s.shutdown then job.status.Dropped? else job.status.Queued?)
    && (job.status.Queued? || job.status.Started? ==> job.slotHeld)
    && (!job.callback <==> s.lock == Submitted(i))
    && (!job.callback ==> job.slotHeld)
    && job.event in s.offered && job.event !in s.rejected
  }

  ghost predicate JobsInv(s: State) {
    forall i :: 0 <= i < |s.jobs| ==> JobInv(s, i)
  }

  ghost predicate Distinct(jobs: seq<Job>) {
    forall i, j :: 0 <= i < j < |jobs| ==> jobs[i].event != jobs[j].event
  }

  ghost predicate Inv(s: State) {
    && s.free + OutstandingSlots(s) == SLOTS
    && s.begun <= |s.jobs|
    && JobsInv(s)
    && Distinct(s.jobs)
    && s.rejected <= s.offered
    && (s.lock.HasSlot? ==>
          && !s.closed && s.lock.event in s.offered && s.lock.event !in s.rejected
          && forall i :: 0 <= i < |s.jobs| ==> s.jobs[i].event != s.lock.event)
    && (s.lock.Submitted? ==> !s.closed && s.lock.index < |s.jobs|)
    && (s.shutdown ==> s.closed)
    && (s.returned ==> s.shutdown && !WriterBusy(s))
    && s.written == Accepted(s.jobs)[..s.begun]
  }

  lemma HeldAfterUpdate(s: State, t: State, i: nat)
    requires i < |s.jobs| == |t.jobs| && t.jobs == s.jobs[i := t.jobs[i]]
    ensures HeldSlots(t) == if t.jobs[i].slotHeld then HeldSlots(s) + {i} else HeldSlots(s) - {i}
  {
  }

  lemma SubmitKeepsInv(s: State)
    requires Inv(s) && s.lock.HasSlot?
    ensures Inv(Step(s, Submit(true)))
  {
    var t := Step(s, Submit(true));
    assert HeldSlots(t) == HeldSlots(s) + {|s.jobs|};
    assert Accepted(t.jobs)[..t.begun] == Accepted(s.jobs)[..s.begun];
    forall i | 0 <= i < |t.jobs| ensures JobInv(t, i) {
      if i < |s.jobs| { assert JobInv(s, i); }
    }
  }

  /** An update of job `i` in place, without moving `begun`. */
  predicate Updates(s: State, e: Event, i: nat) {
    (e.AttachCallback? && s.lock == Submitted(i)) || (e.WriterEnds? && i == s.begun - 1) || e == ReleaseSlot(i)
  }

  lemma UpdateMovesOneJob(s: State, e: Event, i: nat)
    requires Inv(s) && Enabled(s, e) && Updates(s, e, i)
    ensures var t := Step(s, e);
      && i < |s.jobs| == |t.jobs| && t.jobs == s.jobs[i := t.jobs[i]] && t.jobs[i].event == s.jobs[i].event
      && s.jobs[i].slotHeld && t.free == s.free + (if t.jobs[i].slotHeld then 0 else 1)
      && t.lock == (if e.AttachCallback? then Free else s.lock)
      && JobInv(t, i)
  {
    assert JobInv(s, i);
  }

  lemma UpdateKeepsJobs(s: State, e: Event, i: nat)
    requires Inv(s) && Enabled(s, e) && Updates(s, e, i)
    ensures forall k :: 0 <= k < |Step(s, e).jobs| ==> JobInv(Step(s, e), k)
  {
    UpdateMovesOneJob(s, e, i);
    forall k | 0 <= k < |s.jobs|
      ensures JobInv(Step(s, e), k)
    {
      assert JobInv(s, k);
    }
  }

  /** Updating one job in place. */
  lemma UpdateKeepsInv(s: State, e: Event, i: nat)
    requires Inv(s) && Enabled(s, e) && Updates(s, e, i)
    ensures Inv(Step(s, e))
  {
    var t := Step(s, e);
    UpdateMovesOneJob(s, e, i);
    UpdateKeepsJobs(s, e, i);
    HeldAfterUpdate(s, t, i);
    assert i in HeldSlots(s);
    if t.jobs[i].slotHeld { assert HeldSlots(t) == HeldSlots(s); }
    SameEvents(s.jobs, t.jobs);
  }

  lemma StartKeepsInv(s: State)
    requires Inv(s) && Enabled(s, WriterStarts)
    ensures Inv(Step(s, WriterStarts))
  {
    var t := Step(s, WriterStarts);
    assert JobInv(s, s.begun);
    SameSlotsHeld(s, t);
    SameEvents(s.jobs, t.jobs);
    assert Accepted(s.jobs)[..s.begun + 1] == Accepted(s.jobs)[..s.begun] + [s.jobs[s.begun].event];
    forall k | 0 <= k < |t.jobs| ensures JobInv(t, k) { assert JobInv(s, k); }
  }

  lemma SameSlotsHeld(s: State, t: State)
    requires |t.jobs| == |s.jobs| && forall i :: 0 <= i < |s.jobs| ==> t.jobs[i].slotHeld == s.jobs[i].slotHeld
    ensures HeldSlots(t) == HeldSlots(s)
  {
  }

  lemma SameEvents(a: seq<Job>, b: seq<Job>)
    requires |b| == |a| && forall i :: 0 <= i < |a| ==> b[i].event == a[i].event
    ensures Accepted(b) == Accepted(a) && (Distinct(a) ==> Distinct(b))
  {
  }

  lemma ShutdownKeepsJobs(s: State)
    requires Inv(s) && s.closed
    ensures JobsInv(Step(s, Shutdown))
  {
    forall k | 0 <= k < |s.jobs|
      ensures JobInv(Step(s, Shutdown), k)
    {
      assert JobInv(s, k);
    }
  }

  lemma ShutdownKeepsInv(s: State)
    requires Inv(s) && s.closed
    ensures Inv(Step(s, Shutdown))
  {
    var t := Step(s, Shutdown);
    ShutdownKeepsJobs(s);
    SameSlotsHeld(s, t);
    SameEvents(s.jobs, t.jobs);
  }

  /** Steps that leave the job list alone. */
  lemma SameJobsKeepsInv(s: State, e: Event)
    requires Inv(s) && Enabled(s, e)
    requires e.TakeSlot? || e == Submit(false) || e.MarkClosed? || e.CloseReturns?
    ensures Inv(Step(s, e))
  {
    var t := Step(s, e);
    assert HeldSlots(t) == HeldSlots(s);
    forall k | 0 <= k < |t.jobs| ensures JobInv(t, k) && (t.lock.HasSlot? ==> t.jobs[k].event != t.lock.event) {
      assert JobInv(s, k);
    }
  }

  lemma StepKeepsInv(s: State, e: Event)
    requires Inv(s)
    ensures Inv(Step(s, e))
  {
    if !Enabled(s, e) { return; }
    match e
    case Submit(accepted) => if accepted { SubmitKeepsInv(s); } else { SameJobsKeepsInv(s, e); }
    case AttachCallback => UpdateKeepsInv(s, e, s.lock.index);
    case WriterStarts => StartKeepsInv(s);
    case WriterEnds => UpdateKeepsInv(s, e, s.begun - 1);
    case ReleaseSlot(i) => UpdateKeepsInv(s, e, i);
    case Shutdown => ShutdownKeepsInv(s);
    case TakeSlot(_) => SameJobsKeepsInv(s, e);
    case MarkClosed => SameJobsKeepsInv(s, e);
    case CloseReturns => SameJobsKeepsInv(s, e);
  }

  lemma {:induction false} RunKeepsInv(s: State, events: seq<Event>)
    requires Inv(s)
    ensures Inv(Run(s, events))
    decreases |events|
  {
    if events != [] {
      StepKeepsInv(s, events[0]);
      RunKeepsInv(Step(s, events[0]), events[1..]);
    }
  }

  lemma Reachable(events: seq<Event>)
    ensures Inv(Run(INITIAL, events))
  {
    assert HeldSlots(INITIAL) == {};
    RunKeepsInv(INITIAL, events);
  }

  /** Free slots plus outstanding slots are always 64. */
  lemma SlotsAreConserved(events: seq<Event>)
    ensures var s := Run(INITIAL, events); s.free + OutstandingSlots(s) == SLOTS
  {
    Reachable(events);
  }

  /**
   * What reached the writer is exactly a prefix of what was accepted: at most
   * once each, in acceptance order, and never anything that was rejected.
   */
  lemma WrittenIsAPrefixOfAccepted(events: seq<Event>)
    ensures
      var s := Run(INITIAL, events);
      && s.written <= Accepted(s.jobs)
      && (forall i, j :: 0 <= i < j < |s.written| ==> s.written[i] != s.written[j])
      && forall event :: event in s.rejected ==> event !in s.written
  {
    Reachable(events);
    var s := Run(INITIAL, events);
    forall i | 0 <= i < |s.written| ensures s.written[i] !in s.rejected { assert JobInv(s, i); }
  }

  /**
   * An accepted event is lost only through `close`: without a shutdown, a writer
   * that has run out of work has written everything that was accepted.
   */
  lemma OnlyCloseDropsEvents(events: seq<Event>)
    requires var s := Run(INITIAL, events); !s.shutdown && !Enabled(s, WriterStarts) && !WriterBusy(s)
    ensures var s := Run(INITIAL, events); s.written == Accepted(s.jobs)
  {
    Reachable(events);
    var s := Run(INITIAL, events);
    assert s.begun < |s.jobs| ==> JobInv(s, s.begun);
  }

  /** A job is cancelled exactly when it was never begun and the queue was shut down. */
  lemma DroppedExactlyByShutdown(events: seq<Event>, i: nat)
    requires i < |Run(INITIAL, events).jobs|
    ensures var s := Run(INITIAL, events); s.jobs[i].status.Dropped? <==> s.shutdown && s.begun <= i
  {
    Reachable(events);
    assert JobInv(Run(INITIAL, events), i);
  }

  /** After any `close` returned no writer runs, and none ever runs again. */
  lemma {:induction false} NothingRunsAfterClose(s: State, events: seq<Event>)
    requires Inv(s) && s.returned
    ensures var t := Run(s, events); t.returned && !WriterBusy(t) && t.written == s.written
    decreases |events|
  {
    if events != [] {
      var t := Step(s, events[0]);
      StepKeepsInv(s, events[0]);
      if s.begun < |s.jobs| { assert JobInv(s, s.begun); }
      assert t.returned && t.written == s.written;
      NothingRunsAfterClose(t, events[1..]);
    }
  }

  lemma FinishedJobHoldsNothingToStart(s: State)
    requires Inv(s) && s.shutdown
    ensures !Enabled(s, WriterStarts)
  {
    assert s.begun < |s.jobs| ==> JobInv(s, s.begun);
  }

  /** `enqueue` run without interference, when the semaphore has a slot. */
  lemma AcceptingPath(s: State, event: EventId)
    requires Inv(s) && s.lock.Free? && event !in s.offered && !s.closed && s.free > 0
    ensures
      var t := s.(free := s.free - 1, offered := s.offered + {event}, jobs := s.jobs + [Job(event, Queued, true, true)]);
      t == Step(Step(Step(s, TakeSlot(event)), Submit(true)), AttachCallback) && Inv(t)
  {
    var s1 := Step(s, TakeSlot(event));
    var s2 := Step(s1, Submit(true));
    StepKeepsInv(s, TakeSlot(event));
    StepKeepsInv(s1, Submit(true));
    StepKeepsInv(s2, AttachCallback);
    assert s2.jobs[|s.jobs| := Job(event, Queued, true, true)] == s.jobs + [Job(event, Queued, true, true)];
  }

  /** `enqueue` when the writer is closed or full, or when the executor refuses the job. */
  lemma RejectingPath(s: State, event: EventId)
    requires Inv(s) && s.lock.Free? && event !in s.offered
    ensures
      var t := s.(offered := s.offered + {event}, rejected := s.rejected + {event});
      && t == (if s.closed || s.free == 0 then Step(s, TakeSlot(event))
               else Step(Step(s, TakeSlot(event)), Submit(false)))
      && Inv(t)
  {
    StepKeepsInv(s, TakeSlot(event));
    StepKeepsInv(Step(s, TakeSlot(event)), Submit(false));
  }

  lemma AcceptingKeepsInv(s: State, event: EventId)
    requires Inv(s) && s.lock.Free? && event !in s.offered && !s.closed && s.free > 0
    ensures Inv(s.(free := s.free - 1, offered := s.offered + {event}, jobs := s.jobs + [Job(event, Queued, true, true)]))
  {
    AcceptingPath(s, event);
  }

  lemma RejectingKeepsInv(s: State, event: EventId)
    requires Inv(s) && s.lock.Free? && event !in s.offered
    ensures Inv(s.(offered := s.offered + {event}, rejected := s.rejected + {event}))
  {
    RejectingPath(s, event);
  }

  /** The writer object.  Its methods are the lock regions of the source. */
  class RelayTraceWriter {
    var slots: nat
    var lock: Lock
    var closed: bool
    var shutdown: bool
    var returned: bool
    var begun: nat
    var jobs: seq<Job>
    var written: seq<EventId>
    ghost var offered: set<EventId>
    var rejected: set<EventId>

    ghost function Now(): State
      reads this
    {
      State(slots, lock, closed, shutdown, returned, begun, jobs, written, offered, rejected)
    }

    constructor ()
      ensures Inv(Now()) && Now() == INITIAL
    {
      slots, lock, closed, shutdown, returned, begun := SLOTS, Free, false, false, false, 0;
      jobs, written, offered, rejected := [], [], {}, {};
      new;
      Reachable([]);
    }

    /** `enqueue`: the answer is true exactly when the event joined the accepted ones. */
    method Enqueue(event: EventId, submitFails: bool) returns (accepted: bool)
      requires Inv(Now()) && lock.Free? && event !in offered
      modifies this
      ensures Inv(Now()) && lock.Free?
      ensures accepted <==> !old(closed) && old(slots) > 0 && !submitFails
      ensures Accepted(jobs) == Accepted(old(jobs)) + (if accepted then [event] else [])
      ensures slots == old(slots) - (if accepted then 1 else 0)
      ensures rejected == old(rejected) + (if accepted then {} else {event})
      ensures written == old(written) && closed == old(closed) && begun == old(begun)
    {
      offered := offered + {event};
      if closed || slots == 0 {
        RejectingKeepsInv(old(Now()), event);
        rejected := rejected + {event};
        return false;
      }
      slots := slots - 1;
      if submitFails {
        RejectingKeepsInv(old(Now()), event);
        slots := slots + 1;
        rejected := rejected + {event};
        return false;
      }
      AcceptingKeepsInv(old(Now()), event);
      jobs := jobs + [Job(event, Queued, true, true)];
      return true;
    }

    /** The single writer thread takes the oldest queued job and runs it to its end. */
    method WriteNext()
      requires Inv(Now()) && Enabled(Now(), WriterStarts)
      modifies this
      ensures Inv(Now()) && Now() == Step(Step(old(Now()), WriterStarts), WriterEnds)
      ensures written == old(written) + [old(jobs[begun].event)]
    {
      ghost var s0 := Now();
      StartKeepsInv(s0);
      StepKeepsInv(Step(s0, WriterStarts), WriterEnds);
      written := written + [jobs[begun].event];
      jobs := jobs[begun := jobs[begun].(status := Ended)];
      begun := begun + 1;
      assert jobs == Step(Step(s0, WriterStarts), WriterEnds).jobs;
    }

    /** `with self._lock: self._closed = True`. */
    method Mark()
      requires Inv(Now()) && lock.Free?
      modifies `closed
      ensures Inv(Now()) && Now() == Step(old(Now()), MarkClosed)
    {
      StepKeepsInv(Now(), MarkClosed);
      closed := true;
    }

    /** The cancelling half of the executor's shutdown. */
    method CancelPending()
      requires Inv(Now()) && closed
      modifies `shutdown, `jobs
      ensures Inv(Now()) && Now() == Step(old(Now()), Shutdown)
      ensures shutdown && Accepted(jobs) == Accepted(old(jobs))
    {
      ShutdownKeepsInv(Now());
      SameEvents(jobs, CancelQueued(jobs));
      shutdown := true;
      jobs := CancelQueued(jobs);
    }

    /** The job in progress, if there is one, runs to its end. */
    method FinishCurrent()
      requires Inv(Now()) && shutdown
      modifies `jobs
      ensures Inv(Now()) && !WriterBusy(Now()) && Accepted(jobs) == Accepted(old(jobs))
    {
      if begun > 0 && jobs[begun - 1].status.Started? {
        StepKeepsInv(Now(), WriterEnds);
        SameEvents(jobs, jobs[begun - 1 := jobs[begun - 1].(status := Ended)]);
        jobs := jobs[begun - 1 := jobs[begun - 1].(status := Ended)];
      }
    }

    /** The waiting half: a job in progress ends first, and none can follow it. */
    method Join()
      requires Inv(Now()) && shutdown
      modifies `jobs, `returned
      ensures Inv(Now()) && returned && !WriterBusy(Now()) && closed
      ensures Accepted(jobs) == Accepted(old(jobs))
    {
      FinishCurrent();
      FinishedJobHoldsNothingToStart(Now());
      StepKeepsInv(Now(), CloseReturns);
      returned := true;
    }

    /** `close`. */
    method Close()
      requires Inv(Now()) && lock.Free?
      modifies `closed, `shutdown, `jobs, `returned
      ensures Inv(Now()) && closed && returned && !WriterBusy(Now())
      ensures Accepted(jobs) == Accepted(old(jobs))
    {
      Mark();
      CancelPending();
      Join();
    }
  }
}
