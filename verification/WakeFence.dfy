/**
 * The durable wake fence: one reservation per endpoint, spent before anything
 * native is started, and released for retry only by comparing the whole record.
 *
 * Any number of workers run over one registry.  A worker may hold a reservation
 * that is long out of date, and every registry transition may commit without
 * returning its result.
 */
module WakeFence {
  import opened Wrappers
  import Tables = ScheduleTable

  type Endpoint = nat
  type Generation = nat
  type WorkerId = nat

  datatype Stage = Prepared | Reserved | Accepted | Uncertain

  /** `target` stands for the session and container, `delivery` for the delivery id. */
  datatype Reservation = Reservation(
    endpoint: Endpoint,
    delivery: nat,
    target: nat,
    generation: Generation,
    stage: Stage,
    claimed: Option<nat>,
    retryAt: Option<int>)

  /** The persisted rows and the generation high-water mark. */
  datatype Registry = Registry(rows: map<Endpoint, Reservation>, generation: Generation)

  /** What becomes of a transition: nothing, a commit with its answer, or a commit whose answer is lost. */
  datatype Commit = Nothing | Answered | AnswerLost

  predicate Current(reg: Registry, r: Reservation) {
    r.endpoint in reg.rows && reg.rows[r.endpoint] == r
  }

  // ---- Transitions: the new registry, where the stored record allows it ----

  function Reserve(reg: Registry, endpoint: Endpoint, delivery: nat, target: nat): Option<Registry> {
    if endpoint in reg.rows || (exists e :: e in reg.rows && reg.rows[e].delivery == delivery) then None
    else
      var g := reg.generation + 1;
      Some(Registry(reg.rows[endpoint := Reservation(endpoint, delivery, target, g, Prepared, None, None)], g))
  }

  /** Spend a prepared reservation. */
  function BeginNative(reg: Registry, r: Reservation, retryAt: int): Option<Registry> {
    if Current(reg, r) && r.stage.Prepared? && r.claimed.None?
    then Some(reg.(rows := reg.rows[r.endpoint := Spent(r, retryAt)]))
    else None
  }

  function Spent(r: Reservation, retryAt: int): Reservation {
    r.(stage := Uncertain, retryAt := Some(retryAt))
  }

  /** Give a spent or stale reservation a new generation: a retry, or a replaced claim. */
  function Regenerate(reg: Registry, r: Reservation, target: nat, stage: Stage, retryAt: Option<int>): Option<Registry> {
    if Current(reg, r)
    then
      var g := reg.generation + 1;
      var renewed := r.(generation := g, stage := stage, claimed := None, retryAt := retryAt, target := target);
      Some(Registry(reg.rows[r.endpoint := renewed], g))
    else None
  }

  function Correlate(reg: Registry, endpoint: Endpoint, generation: Generation, attempts: nat): Option<Registry> {
    if endpoint in reg.rows && reg.rows[endpoint].generation == generation
       && (reg.rows[endpoint].claimed.None? || reg.rows[endpoint].claimed == Some(attempts))
    then Some(reg.(rows := reg.rows[endpoint := reg.rows[endpoint].(claimed := Some(attempts))]))
    else None
  }

  function Accept(reg: Registry, r: Reservation): Option<Registry> {
    if r.endpoint in reg.rows && r.stage.Uncertain? && reg.rows[r.endpoint].stage.Uncertain?
       && reg.rows[r.endpoint].generation == r.generation && reg.rows[r.endpoint].delivery == r.delivery
       && reg.rows[r.endpoint].target == r.target
    then Some(reg.(rows := reg.rows[r.endpoint := reg.rows[r.endpoint].(stage := Accepted)]))
    else None
  }

  function ClampCooldown(reg: Registry, r: Reservation, retryAt: int): Option<Registry> {
    if Current(reg, r) && !r.stage.Prepared?
    then Some(reg.(rows := reg.rows[r.endpoint := r.(retryAt := Some(retryAt))]))
    else None
  }

  /** `release_generation`: the stored record must be exactly the given one. */
  function Release(reg: Registry, r: Reservation): Option<Registry> {
    if Current(reg, r) then Some(reg.(rows := reg.rows - {r.endpoint})) else None
  }

  // ---- Launch results ----

  datatype LaunchReason = InvalidHome | OsError | ValueError | NonzeroExit | Timeout | PostStartError | NoReason
  datatype LaunchOutcome = Queued | Ambiguous | FailedLaunch

  /** `_finish_launch(_start_launch(...))`: without a process only the three immediate failures exist. */
  predicate PossibleLaunch(processStarted: bool, outcome: LaunchOutcome, reason: LaunchReason) {
    if !processStarted then outcome.FailedLaunch? && (reason.InvalidHome? || reason.OsError? || reason.ValueError?)
    else match outcome
      case Queued => reason.NoReason?
      case Ambiguous => reason.Timeout? || reason.PostStartError?
      case FailedLaunch => reason.NonzeroExit?
  }

  /** `native_retry_safe` of `_attempt_from_launch`. */
  predicate LaunchRetrySafe(outcome: LaunchOutcome, reason: LaunchReason) {
    !(outcome.Queued? || outcome.Ambiguous? || reason.NonzeroExit?)
    && outcome.FailedLaunch? && (reason.InvalidHome? || reason.OsError? || reason.ValueError?)
  }

  /** A launch is safe to retry exactly when no process was started. */
  lemma RetrySafeExactlyWithoutProcess(processStarted: bool, outcome: LaunchOutcome, reason: LaunchReason)
    requires PossibleLaunch(processStarted, outcome, reason)
    ensures LaunchRetrySafe(outcome, reason) <==> !processStarted
  {
  }

  // ---- Workers ----

  /** How far a worker got; `retrying` is fixed when a retained dispatch starts. */
  datatype Phase =
    | Waiting
    | Launching(spent: Reservation, processStarted: bool)
    | Rearmed
    | Decided(retrySafe: bool)
    | Done

  /** `submitted` records that this worker made the native submission of its generation. */
  datatype Worker = Worker(held: Reservation, retrying: bool, phase: Phase, submitted: bool)

  /**
   * `submissions` lists the generation of every native submission, in order; `past`
   * are those made before the process last started.  `table` is the process-wide
   * schedule, and `seen` are the records its threads may have read.
   */
  datatype State = State(
    reg: Registry,
    seen: set<Reservation>,
    workers: map<WorkerId, Worker>,
    spent: set<Generation>,
    submissions: seq<Generation>,
    released: set<Generation>,
    past: set<Generation>,
    table: Tables.Table)

  const NO_SCHEDULE := Tables.Table(map[], map[], map[])

  function Holder(r: Reservation): Tables.Holder {
    Tables.Holder(r.target, r.generation, r.delivery)
  }

  function RowsOf(reg: Registry): set<Reservation> {
    set e | e in reg.rows :: reg.rows[e]
  }

  /** A process starting on a persisted registry; nothing of an earlier process is known. */
  function Started(reg: Registry): State {
    State(reg, RowsOf(reg), map[], {}, [], {}, {}, NO_SCHEDULE)
  }

  /** What persistence promises: rows are keyed by endpoint, and generations are distinct and below the mark. */
  ghost predicate WellKept(reg: Registry) {
    && (forall e :: e in reg.rows ==> reg.rows[e].endpoint == e && reg.rows[e].generation <= reg.generation)
    && (forall e, f :: e in reg.rows && f in reg.rows && reg.rows[e].generation == reg.rows[f].generation ==> e == f)
  }

  datatype Event =
    | Reserving(endpoint: Endpoint, delivery: nat, target: nat)
    | Replacing(r: Reservation, target: nat, stage: Stage)
    | Correlating(endpoint: Endpoint, generation: Generation, attempts: nat)
    | Accepting(r: Reservation)
    | Clamping(r: Reservation, retryAt: int)
    | Ending(r: Reservation)
    | Scheduling(id: WorkerId, r: Reservation)
    | Abandoning(r: Reservation, commit: Commit)
    | QueueStart(id: WorkerId, ready: bool, commit: Commit, retryAt: int, processStarted: bool)
    | QueueFinish(id: WorkerId, commit: Commit)
    | Defer(id: WorkerId)
    | Rearm(id: WorkerId, commit: Commit, target: nat, retryAt: int)
    | Write(id: WorkerId, ready: bool, commit: Commit, retryAt: int, submits: bool)
    | Settle(id: WorkerId, commit: Commit)
    | Tabling(op: Tables.Op)
    | Restart

  /** A transition takes effect unless it was not committed. */
  function Commits(reg: Registry, next: Option<Registry>, commit: Commit): Registry {
    if next.Some? && !commit.Nothing? then next.value else reg
  }

  /** Readers may have seen every record that was ever stored. */
  function Stored(s: State, reg: Registry): State {
    s.(reg := reg, seen := s.seen + RowsOf(reg))
  }

  /** A retry release: the generation is recorded when its record is really removed. */
  function RetryRelease(s: State, r: Reservation, commit: Commit): State {
    if Release(s.reg, r).Some? && !commit.Nothing?
    then Stored(s, Release(s.reg, r).value).(released := s.released + {r.generation})
    else s
  }

  function SetWorker(s: State, id: WorkerId, w: Worker): State {
    s.(workers := s.workers[id := w])
  }

  /**
   * The indivisible region under the registry lock: check that the held record is
   * current, spend it, and start natively if the spending was answered.
   */
  function SpendAndStart(s: State, r: Reservation, ready: bool, commit: Commit, retryAt: int, starts: bool): State {
    var next := if ready then BeginNative(s.reg, r, retryAt) else None;
    if next.None? || commit.Nothing? then s
    else
      var t := Stored(s, next.value).(spent := s.spent + {r.generation});
      if commit.Answered? && starts then t.(submissions := s.submissions + [r.generation]) else t
  }

  predicate Begun(s: State, r: Reservation, ready: bool, commit: Commit, retryAt: int) {
    ready && commit.Answered? && BeginNative(s.reg, r, retryAt).Some?
  }

  predicate Enabled(s: State, e: Event) {
    match e
    case Replacing(r, _, stage) => r in s.seen && (stage.Prepared? || stage.Reserved?)
    case Accepting(r) => r in s.seen
    case Clamping(r, _) => r in s.seen
    case Ending(r) => r in s.seen
    case Scheduling(id, r) => id !in s.workers && r in s.seen && !Tables.Scheduled(s.table, Holder(r))
    case Tabling(op) => !op.Schedule?
    case Abandoning(r, _) => r in s.seen
    case QueueStart(id, _, _, _, _) => id in s.workers && s.workers[id].phase.Waiting?
    case QueueFinish(id, _) => id in s.workers && s.workers[id].phase.Launching?
    case Defer(id) => id in s.workers && (s.workers[id].phase.Waiting? || s.workers[id].phase.Rearmed?)
    case Rearm(id, _, _, _) => id in s.workers && s.workers[id].phase.Waiting? && s.workers[id].retrying
    case Write(id, _, _, _, _) =>
      id in s.workers && (s.workers[id].phase.Rearmed? || (s.workers[id].phase.Waiting? && !s.workers[id].retrying))
    case Settle(id, _) => id in s.workers && s.workers[id].phase.Decided?
    case _ => true
  }

  function Step(s: State, e: Event): State {
    if !Enabled(s, e) then s else
    match e
    case Restart =>
      // Memory is lost: threads, tables and records read earlier; the rows stay.
      s.(workers := map[], table := NO_SCHEDULE, seen := RowsOf(s.reg), past := set g | g in s.submissions)
    case Tabling(op) => s.(table := Tables.Step(s.table, op))
    case Reserving(endpoint, delivery, target) =>
      Stored(s, Commits(s.reg, Reserve(s.reg, endpoint, delivery, target), Answered))
    case Replacing(r, target, stage) => Stored(s, Commits(s.reg, Regenerate(s.reg, r, target, stage, None), Answered))
    case Correlating(endpoint, g, attempts) => Stored(s, Commits(s.reg, Correlate(s.reg, endpoint, g, attempts), Answered))
    case Accepting(r) => Stored(s, Commits(s.reg, Accept(s.reg, r), Answered))
    case Clamping(r, retryAt) => Stored(s, Commits(s.reg, ClampCooldown(s.reg, r, retryAt), Answered))
    case Ending(r) => Stored(s, Commits(s.reg, Release(s.reg, r), Answered))
    case Scheduling(id, r) =>
      SetWorker(s.(table := Tables.Step(s.table, Tables.Schedule(Holder(r), id))), id, Worker(r, !r.stage.Prepared?, Waiting, false))
    case Abandoning(r, commit) =>
      // Shutdown, or a thread that could not be started.
      if r.stage.Prepared? then RetryRelease(s, r, commit) else s
    case QueueStart(id, ready, commit, retryAt, processStarted) =>
      var w := s.workers[id];
      var phase := if Begun(s, w.held, ready, commit, retryAt)
                   then Launching(Spent(w.held, retryAt), processStarted) else Done;
      SetWorker(SpendAndStart(s, w.held, ready, commit, retryAt, processStarted), id,
                w.(phase := phase, submitted := phase.Launching? && processStarted))
    case QueueFinish(id, commit) =>
      var w := s.workers[id];
      var t := if w.phase.processStarted then s else RetryRelease(s, w.phase.spent, commit);
      SetWorker(t, id, w.(phase := Done))
    case Defer(id) =>
      var w := s.workers[id];
      SetWorker(s, id, w.(phase := Decided(!w.retrying)))
    case Rearm(id, commit, target, retryAt) =>
      var w := s.workers[id];
      var next := if w.held.claimed.None? then Regenerate(s.reg, w.held, target, Prepared, Some(retryAt)) else None;
      var t := Stored(s, Commits(s.reg, next, commit));
      if next.Some? && commit.Answered?
      then SetWorker(t, id, Worker(next.value.rows[w.held.endpoint], true, Rearmed, false))
      else SetWorker(t, id, w.(phase := Decided(false)))
    case Write(id, ready, commit, retryAt, submits) =>
      var w := s.workers[id];
      var begun := Begun(s, w.held, ready, commit, retryAt);
      var safe := !begun && !w.retrying && w.held.retryAt.None?;
      SetWorker(SpendAndStart(s, w.held, ready, commit, retryAt, submits), id,
                w.(phase := Decided(safe), submitted := begun && submits))
    case Settle(id, commit) =>
      var w := s.workers[id];
      var t := if w.phase.retrySafe then RetryRelease(s, w.held, commit) else s;
      SetWorker(t, id, w.(phase := Done))
  }

  function Run(s: State, events: seq<Event>): State
    decreases |events|
  {
    if events == [] then s else Run(Step(s, events[0]), events[1..])
  }

  // ---- What every run keeps ----

  ghost predicate RowInv(s: State, e: Endpoint)
    requires e in s.reg.rows
  {
    var r := s.reg.rows[e];
    && r.endpoint == e && r.generation <= s.reg.generation
    && (r.stage.Prepared? ==> r.generation !in s.spent)
    && r.generation !in s.released
  }

  ghost predicate RowsInv(s: State) {
    && (forall e :: e in s.reg.rows ==> RowInv(s, e))
    && (forall e, f :: e in s.reg.rows && f in s.reg.rows && s.reg.rows[e].generation == s.reg.rows[f].generation ==> e == f)
  }

  ghost predicate WorkerInv(s: State, id: WorkerId)
    requires id in s.workers
  {
    var w := s.workers[id];
    && (w.phase.Launching? ==> w.phase.spent.generation in s.spent)
    && (w.phase.Launching? && !w.phase.processStarted ==> w.phase.spent.generation !in s.submissions)
    && (w.phase.Decided? && w.phase.retrySafe ==> w.held.stage.Prepared?)
    && (!w.retrying ==> w.held.stage.Prepared?)
    && w.held in s.seen
    && (w.submitted ==> w.held.generation in s.submissions)
    && (w.submitted ==> !w.phase.Waiting? && !w.phase.Rearmed? && !(w.phase.Decided? && w.phase.retrySafe))
    && (w.phase.Launching? ==> w.phase.spent.generation == w.held.generation && w.submitted == w.phase.processStarted)
  }

  /** A worker of this process made the submission of `g`. */
  ghost predicate SubmittedBy(s: State, id: WorkerId, g: Generation) {
    id in s.workers && s.workers[id].submitted && s.workers[id].held.generation == g
  }

  /** Every submission of this process was made by a worker; a prepared record in memory is not from before it. */
  ghost predicate AuthorInv(s: State) {
    && (forall g :: g in s.submissions && g !in s.past ==> exists id :: SubmittedBy(s, id, g))
    && (forall r :: r in s.seen && r.stage.Prepared? ==> r.generation !in s.past)
    && (forall g :: g in s.past ==> g <= s.reg.generation && g in s.spent)
  }

  ghost predicate LedgerInv(s: State) {
    && (forall g :: g in s.spent ==> g <= s.reg.generation)
    && (forall g :: g in s.released ==> g <= s.reg.generation)
    && (forall g :: g in s.submissions ==> g in s.spent)
    && (forall g :: g in s.released ==> g !in s.submissions)
    && (forall i, j :: 0 <= i < j < |s.submissions| ==> s.submissions[i] != s.submissions[j])
  }

  ghost predicate Inv(s: State) {
    RowsInv(s) && LedgerInv(s) && forall id :: id in s.workers ==> WorkerInv(s, id)
  }

  // ---- One registry transition at a time ----

  lemma ReserveKeepsInv(s: State, endpoint: Endpoint, delivery: nat, target: nat)
    requires Inv(s) && Reserve(s.reg, endpoint, delivery, target).Some?
    ensures Inv(Stored(s, Reserve(s.reg, endpoint, delivery, target).value))
  {
    var t := Stored(s, Reserve(s.reg, endpoint, delivery, target).value);
    assert forall e :: e in t.reg.rows && e != endpoint ==> RowInv(s, e) && RowInv(t, e);
    assert forall id :: id in t.workers ==> WorkerInv(s, id);
  }

  lemma RegenerateKeepsInv(s: State, r: Reservation, target: nat, stage: Stage, retryAt: Option<int>)
    requires Inv(s) && Regenerate(s.reg, r, target, stage, retryAt).Some?
    ensures Inv(Stored(s, Regenerate(s.reg, r, target, stage, retryAt).value))
  {
    var t := Stored(s, Regenerate(s.reg, r, target, stage, retryAt).value);
    assert forall e :: e in t.reg.rows ==> RowInv(s, e) && (e != r.endpoint ==> RowInv(t, e));
    assert forall id :: id in t.workers ==> WorkerInv(s, id);
  }

  /** A transition that rewrites one row and keeps its generation without making it prepared. */
  lemma RewriteKeepsInv(s: State, e: Endpoint, row: Reservation)
    requires Inv(s) && e in s.reg.rows && row.endpoint == e && row.generation == s.reg.rows[e].generation
    requires row.stage.Prepared? ==> s.reg.rows[e].stage.Prepared?
    ensures Inv(Stored(s, s.reg.(rows := s.reg.rows[e := row])))
  {
    var t := Stored(s, s.reg.(rows := s.reg.rows[e := row]));
    assert forall f :: f in t.reg.rows ==> RowInv(s, f) && RowInv(t, f);
    assert forall id :: id in t.workers ==> WorkerInv(s, id);
  }

  lemma RemoveKeepsInv(s: State, r: Reservation)
    requires Inv(s) && Release(s.reg, r).Some?
    ensures Inv(Stored(s, Release(s.reg, r).value))
  {
    var t := Stored(s, Release(s.reg, r).value);
    assert forall e :: e in t.reg.rows ==> RowInv(s, e) && RowInv(t, e);
    assert forall id :: id in t.workers ==> WorkerInv(s, id);
  }

  /** Releasing for retry is sound for a prepared record, and for a spent one that never reached a process. */
  lemma RetryReleaseKeepsInv(s: State, r: Reservation, commit: Commit)
    requires Inv(s)
    requires r.stage.Prepared? || r.generation !in s.submissions
    ensures Inv(RetryRelease(s, r, commit))
    ensures RetryRelease(s, r, commit).workers == s.workers
  {
    if Release(s.reg, r).Some? && !commit.Nothing? {
      RemoveKeepsInv(s, r);
      var t := RetryRelease(s, r, commit);
      assert RowInv(s, r.endpoint);
      assert forall e :: e in t.reg.rows ==> RowInv(s, e) && RowInv(t, e);
      assert forall id :: id in t.workers ==> WorkerInv(s, id);
    }
  }

  lemma SpendingKeepsInv(s: State, r: Reservation, retryAt: int)
    requires Inv(s) && BeginNative(s.reg, r, retryAt).Some?
    ensures var t := Stored(s, BeginNative(s.reg, r, retryAt).value).(spent := s.spent + {r.generation});
      Inv(t) && r.generation !in t.submissions && r.generation !in t.released
  {
    RewriteKeepsInv(s, r.endpoint, Spent(r, retryAt));
    assert RowInv(s, r.endpoint);
    NotingTheSpentKeepsInv(Stored(s, BeginNative(s.reg, r, retryAt).value), r.endpoint);
  }

  lemma NotingTheSpentKeepsInv(s: State, endpoint: Endpoint)
    requires Inv(s) && endpoint in s.reg.rows && !s.reg.rows[endpoint].stage.Prepared?
    ensures Inv(s.(spent := s.spent + {s.reg.rows[endpoint].generation}))
  {
    var t := s.(spent := s.spent + {s.reg.rows[endpoint].generation});
    assert forall e :: e in t.reg.rows ==> RowInv(s, e) && RowInv(t, e);
    assert forall id :: id in t.workers ==> WorkerInv(s, id);
  }

  /** A spent generation without a submission may be submitted, unless a launch without a process spent it. */
  lemma SubmittingKeepsInv(s: State, g: Generation)
    requires Inv(s) && g in s.spent && g !in s.submissions && g !in s.released
    requires forall id :: id in s.workers && s.workers[id].phase.Launching? ==> s.workers[id].phase.spent.generation != g
    ensures Inv(s.(submissions := s.submissions + [g]))
  {
    var t := s.(submissions := s.submissions + [g]);
    assert forall e :: e in t.reg.rows ==> RowInv(s, e) && RowInv(t, e);
    assert forall id :: id in t.workers ==> WorkerInv(s, id) && WorkerInv(t, id);
  }

  /** Spending and starting in one locked region never submits a released or submitted generation. */
  lemma SpendAndStartKeepsInv(s: State, r: Reservation, ready: bool, commit: Commit, retryAt: int, starts: bool)
    requires Inv(s)
    ensures var t := SpendAndStart(s, r, ready, commit, retryAt, starts);
      && Inv(t) && t.workers == s.workers
      && (Begun(s, r, ready, commit, retryAt) ==>
            r.generation in t.spent && (!starts ==> r.generation !in t.submissions))
  {
    if ready && BeginNative(s.reg, r, retryAt).Some? && !commit.Nothing? {
      SpendingKeepsInv(s, r, retryAt);
      assert RowInv(s, r.endpoint);
      assert forall id :: id in s.workers ==> WorkerInv(s, id);
      SubmittingKeepsInv(Stored(s, BeginNative(s.reg, r, retryAt).value).(spent := s.spent + {r.generation}), r.generation);
    }
  }

  lemma SetWorkerKeepsInv(s: State, id: WorkerId, w: Worker)
    requires Inv(s) && WorkerInv(s.(workers := map[id := w]), id)
    ensures Inv(SetWorker(s, id, w))
  {
    var t := SetWorker(s, id, w);
    assert forall e :: e in t.reg.rows ==> RowInv(s, e) && RowInv(t, e);
    assert forall k :: k in t.workers && k != id ==> WorkerInv(s, k);
  }

  // ---- Every step ----

  predicate OfRegistry(e: Event) {
    e.Reserving? || e.Replacing? || e.Correlating? || e.Accepting? || e.Clamping? || e.Ending? || e.Abandoning?
  }

  lemma RegistryStepKeepsInv(s: State, e: Event)
    requires Inv(s) && Enabled(s, e) && OfRegistry(e)
    ensures Inv(Step(s, e))
  {
    StoredUnchanged(s);
    match e {
      case Reserving(endpoint, delivery, target) => {
        if Reserve(s.reg, endpoint, delivery, target).Some? { ReserveKeepsInv(s, endpoint, delivery, target); }
      }
      case Replacing(r, target, stage) => {
        if Current(s.reg, r) { RegenerateKeepsInv(s, r, target, stage, None); }
      }
      case Correlating(endpoint, g, attempts) => {
        if endpoint in s.reg.rows {
          assert RowInv(s, endpoint);
          RewriteKeepsInv(s, endpoint, s.reg.rows[endpoint].(claimed := Some(attempts)));
        }
      }
      case Accepting(r) => {
        if r.endpoint in s.reg.rows {
          assert RowInv(s, r.endpoint);
          RewriteKeepsInv(s, r.endpoint, s.reg.rows[r.endpoint].(stage := Accepted));
        }
      }
      case Clamping(r, retryAt) => {
        if Current(s.reg, r) { RewriteKeepsInv(s, r.endpoint, r.(retryAt := Some(retryAt))); }
      }
      case Ending(r) => {
        if Current(s.reg, r) { RemoveKeepsInv(s, r); }
      }
      case Abandoning(r, commit) => {
        if r.stage.Prepared? { RetryReleaseKeepsInv(s, r, commit); }
      }
    }
  }

  lemma StoredUnchanged(s: State)
    requires Inv(s)
    ensures Inv(Stored(s, s.reg)) && Stored(s, s.reg).workers == s.workers
  {
    var t := Stored(s, s.reg);
    assert forall e :: e in t.reg.rows ==> RowInv(s, e) && RowInv(t, e);
    assert forall id :: id in t.workers ==> WorkerInv(s, id) && WorkerInv(t, id);
  }

  lemma RearmStepKeepsInv(s: State, e: Event)
    requires Inv(s) && Enabled(s, e) && e.Rearm?
    ensures Inv(Step(s, e))
  {
    var w := s.workers[e.id];
    var next := if w.held.claimed.None? then Regenerate(s.reg, w.held, e.target, Prepared, Some(e.retryAt)) else None;
    var t := Stored(s, Commits(s.reg, next, e.commit));
    StoredUnchanged(s);
    if next.Some? { RegenerateKeepsInv(s, w.held, e.target, Prepared, Some(e.retryAt)); }
    assert WorkerInv(s, e.id);
    if next.Some? && e.commit.Answered? {
      SetWorkerKeepsInv(t, e.id, Worker(next.value.rows[w.held.endpoint], true, Rearmed, false));
    } else {
      SetWorkerKeepsInv(t, e.id, w.(phase := Decided(false)));
    }
  }

  lemma SubmittingStepKeepsInv(s: State, e: Event)
    requires Inv(s) && Enabled(s, e) && (e.QueueStart? || e.Write?)
    ensures Inv(Step(s, e))
  {
    var w := s.workers[e.id];
    assert WorkerInv(s, e.id);
    var starts := if e.QueueStart? then e.processStarted else e.submits;
    SpendAndStartKeepsInv(s, w.held, e.ready, e.commit, e.retryAt, starts);
    var t := SpendAndStart(s, w.held, e.ready, e.commit, e.retryAt, starts);
    SetWorkerKeepsInv(t, e.id, Step(s, e).workers[e.id]);
  }

  lemma ReleasingStepKeepsInv(s: State, e: Event)
    requires Inv(s) && Enabled(s, e) && (e.QueueFinish? || e.Settle?)
    ensures Inv(Step(s, e))
  {
    var w := s.workers[e.id];
    assert WorkerInv(s, e.id);
    if e.QueueFinish? && !w.phase.processStarted {
      RetryReleaseKeepsInv(s, w.phase.spent, e.commit);
      SetWorkerKeepsInv(RetryRelease(s, w.phase.spent, e.commit), e.id, w.(phase := Done));
    } else if e.Settle? && w.phase.retrySafe {
      RetryReleaseKeepsInv(s, w.held, e.commit);
      SetWorkerKeepsInv(RetryRelease(s, w.held, e.commit), e.id, w.(phase := Done));
    } else {
      SetWorkerKeepsInv(s, e.id, w.(phase := Done));
    }
  }

  lemma SameRowsKeepInv(s: State, t: State)
    requires Inv(s) && t == s.(table := t.table)
    ensures Inv(t)
  {
    assert forall e :: e in t.reg.rows ==> RowInv(s, e) && RowInv(t, e);
    assert forall id :: id in t.workers ==> WorkerInv(s, id) && WorkerInv(t, id);
  }

  lemma StepKeepsInv(s: State, e: Event)
    requires Inv(s)
    ensures Inv(Step(s, e))
  {
    if !Enabled(s, e) {
    } else if OfRegistry(e) {
      RegistryStepKeepsInv(s, e);
    } else {
      match e {
        case Scheduling(id, r) => {
          var t := s.(table := Step(s, e).table);
          SameRowsKeepInv(s, t);
          SetWorkerKeepsInv(t, id, Worker(r, !r.stage.Prepared?, Waiting, false));
        }
        case Tabling(_) => SameRowsKeepInv(s, Step(s, e));
        case Defer(id) => {
          assert WorkerInv(s, id);
          SetWorkerKeepsInv(s, id, s.workers[id].(phase := Decided(!s.workers[id].retrying)));
        }
        case Rearm(_, _, _, _) => RearmStepKeepsInv(s, e);
        case QueueStart(_, _, _, _, _) => SubmittingStepKeepsInv(s, e);
        case Write(_, _, _, _, _) => SubmittingStepKeepsInv(s, e);
        case QueueFinish(_, _) => ReleasingStepKeepsInv(s, e);
        case Settle(_, _) => ReleasingStepKeepsInv(s, e);
        case Restart => assert forall f :: f in s.reg.rows ==> RowInv(s, f) && RowInv(Step(s, e), f);
      }
    }
  }

  // ---- Every run ----

  lemma {:induction false} RunKeepsInv(s: State, events: seq<Event>)
    requires Inv(s)
    ensures Inv(Run(s, events))
    decreases |events|
  {
    if events != [] {
      StepKeepsInv(s, events[0]);
      RunKeepsInv(Step(s, events[0]), events[1..]);
    }
  }

  lemma StartedInv(reg: Registry)
    requires WellKept(reg)
    ensures Inv(Started(reg))
  {
    assert forall e :: e in reg.rows ==> RowInv(Started(reg), e);
  }

  /**
   * In every run over a well-kept registry, a generation that was released for
   * retry has no native submission, before its release or after it, and no
   * generation is submitted twice.
   */
  lemma ReleasedMeansNeverSubmitted(reg: Registry, events: seq<Event>)
    requires WellKept(reg)
    ensures var t := Run(Started(reg), events);
      && (forall g :: g in t.released ==> g !in t.submissions)
      && (forall i, j :: 0 <= i < j < |t.submissions| ==> t.submissions[i] != t.submissions[j])
  {
    StartedInv(reg);
    RunKeepsInv(Started(reg), events);
  }

  /** The registry stays well kept, so the guarantees carry over to the next process. */
  lemma RegistryStaysWellKept(reg: Registry, events: seq<Event>)
    requires WellKept(reg)
    ensures WellKept(Run(Started(reg), events).reg)
  {
    StartedInv(reg);
    RunKeepsInv(Started(reg), events);
    var t := Run(Started(reg), events);
    assert forall e :: e in t.reg.rows ==> RowInv(t, e);
  }

  lemma StepOnlyAdds(s: State, e: Event)
    requires Inv(s)
    ensures var t := Step(s, e);
      s.released <= t.released && s.spent <= t.spent && s.submissions <= t.submissions && s.reg.generation <= t.reg.generation
  {
  }

  lemma {:induction false} RunOnlyAdds(s: State, events: seq<Event>)
    requires Inv(s)
    ensures var t := Run(s, events);
      s.released <= t.released && s.spent <= t.spent && s.submissions <= t.submissions && s.reg.generation <= t.reg.generation
    decreases |events|
  {
    if events != [] {
      StepOnlyAdds(s, events[0]);
      StepKeepsInv(s, events[0]);
      RunOnlyAdds(Step(s, events[0]), events[1..]);
    }
  }

  /** Whatever happens after a release, its generation is neither submitted nor stored again. */
  lemma ReleaseIsFinal(s: State, events: seq<Event>, g: Generation)
    requires Inv(s) && g in s.released
    ensures var t := Run(s, events);
      g !in t.submissions && forall e :: e in t.reg.rows ==> t.reg.rows[e].generation != g
  {
    RunOnlyAdds(s, events);
    RunKeepsInv(s, events);
    var t := Run(s, events);
    assert forall e :: e in t.reg.rows ==> RowInv(t, e);
  }

  // ---- Who submitted ----

  /** What a step that is not a restart leaves of the authorship of submissions. */
  ghost predicate AuthorsKept(s: State, t: State) {
    && t.past == s.past && t.seen <= s.seen + RowsOf(t.reg)
    && (forall id, g :: SubmittedBy(s, id, g) ==> SubmittedBy(t, id, g))
    && (forall g :: g in t.submissions ==> g in s.submissions || exists id :: SubmittedBy(t, id, g))
  }

  lemma RegistryStepKeepsAuthors(s: State, e: Event)
    requires OfRegistry(e)
    ensures AuthorsKept(s, Step(s, e))
  {
    assert Step(s, e).workers == s.workers && Step(s, e).submissions == s.submissions;
  }

  lemma SubmittingStepKeepsAuthors(s: State, e: Event)
    requires Inv(s) && Enabled(s, e) && (e.QueueStart? || e.Write?)
    ensures AuthorsKept(s, Step(s, e))
  {
    var t := Step(s, e);
    assert WorkerInv(s, e.id);
    assert forall g :: g in t.submissions && g !in s.submissions ==> SubmittedBy(t, e.id, g);
  }

  lemma WorkerStepKeepsAuthors(s: State, e: Event)
    requires Inv(s) && !OfRegistry(e) && !e.Restart? && !e.QueueStart? && !e.Write?
    ensures AuthorsKept(s, Step(s, e))
  {
    if Enabled(s, e) && !e.Tabling? && !e.Scheduling? { assert WorkerInv(s, e.id); }
    assert Step(s, e).submissions == s.submissions;
  }

  lemma StepKeepsAuthorInv(s: State, e: Event)
    requires Inv(s) && AuthorInv(s)
    ensures AuthorInv(Step(s, e))
  {
    var t := Step(s, e);
    StepKeepsInv(s, e);
    StepOnlyAdds(s, e);
    if e.Restart? {
      PreparedRowsAreUnsubmitted(t);
    } else {
      if OfRegistry(e) { RegistryStepKeepsAuthors(s, e); }
      else if (e.QueueStart? || e.Write?) && Enabled(s, e) { SubmittingStepKeepsAuthors(s, e); }
      else if !e.QueueStart? && !e.Write? { WorkerStepKeepsAuthors(s, e); }
      AuthorsCarryOver(s, t);
    }
  }

  lemma PreparedRowsAreUnsubmitted(t: State)
    requires Inv(t)
    ensures forall r :: r in RowsOf(t.reg) && r.stage.Prepared? ==> r.generation !in t.spent && r.generation !in t.submissions
  {
    forall r | r in RowsOf(t.reg) && r.stage.Prepared?
      ensures r.generation !in t.spent && r.generation !in t.submissions
    {
      var e :| e in t.reg.rows && t.reg.rows[e] == r;
      assert RowInv(t, e);
    }
  }

  lemma AuthorsCarryOver(s: State, t: State)
    requires AuthorInv(s) && Inv(t) && AuthorsKept(s, t) && s.spent <= t.spent && s.reg.generation <= t.reg.generation
    ensures AuthorInv(t)
  {
    PreparedRowsAreUnsubmitted(t);
    forall g | g in t.submissions && g !in t.past
      ensures exists id :: SubmittedBy(t, id, g)
    {
      if g in s.submissions {
        var id :| SubmittedBy(s, id, g);
        assert SubmittedBy(t, id, g);
      }
    }
  }

  lemma {:induction false} RunKeepsAuthorInv(s: State, events: seq<Event>)
    requires Inv(s) && AuthorInv(s)
    ensures AuthorInv(Run(s, events))
    decreases |events|
  {
    if events != [] {
      StepKeepsInv(s, events[0]);
      StepKeepsAuthorInv(s, events[0]);
      RunKeepsAuthorInv(Step(s, events[0]), events[1..]);
    }
  }

  /**
   * A verdict that permits a retry is wrong about its generation exactly when
   * another worker of this process holds that generation and submitted it.  Then the
   * held record is no longer the stored one, so the comparison withholds the release.
   */
  lemma SafeVerdictsAreWrongExactlyAfterAnotherSubmission(reg: Registry, events: seq<Event>, id: WorkerId, commit: Commit)
    requires WellKept(reg)
    requires var t := Run(Started(reg), events); id in t.workers && t.workers[id].phase == Decided(true)
    ensures
      var t := Run(Started(reg), events);
      var g := t.workers[id].held.generation;
      && (g in t.submissions <==> exists other :: other != id && SubmittedBy(t, other, g))
      && (Current(t.reg, t.workers[id].held) ==> g !in t.submissions)
      && (g in t.submissions ==> Step(t, Settle(id, commit)).released == t.released)
  {
    StartedInv(reg);
    RunKeepsInv(Started(reg), events);
    RunKeepsAuthorInv(Started(reg), events);
    var t := Run(Started(reg), events);
    var w := t.workers[id];
    var g := w.held.generation;
    assert WorkerInv(t, id);
    assert !SubmittedBy(t, id, g);
    forall other | SubmittedBy(t, other, g)
      ensures g in t.submissions
    {
      assert WorkerInv(t, other);
    }
    if Current(t.reg, w.held) { assert RowInv(t, w.held.endpoint); }
  }

  /** A record persisted as spent, and what a retained retry makes of it. */
  function RearmedRecord(r: Reservation, retryAt: int): Reservation {
    Reservation(r.endpoint, r.delivery, r.target, r.generation + 1, Prepared, None, Some(retryAt))
  }

  /**
   * Such a verdict is reached: a dispatch rearms a spent record, a sweep resumes it
   * under its new generation, the first dispatch submits, and the second finds its
   * target busy.  The second calls its attempt safe; its release is refused.
   */
  lemma VerdictAloneIsNotEnough(r: Reservation, rearmedAt: int, retryAt: int)
    requires r.stage.Uncertain? && r.claimed.None?
    ensures
      var s := Started(Registry(map[r.endpoint := r], r.generation));
      var q := RearmedRecord(r, rearmedAt);
      var t := Run(s, [Scheduling(1, r), Rearm(1, Answered, r.target, rearmedAt), Scheduling(2, q),
                       Write(1, true, Answered, retryAt, true), Defer(2)]);
      && 2 in t.workers && t.workers[2] == Worker(q, false, Decided(true), false) && t.submissions == [q.generation]
      && Step(t, Settle(2, Answered)).released == {}
  {
    var s := Started(Registry(map[r.endpoint := r], r.generation));
    var q := RearmedRecord(r, rearmedAt);
    var t := TwoHoldersArise(r, rearmedAt);
    var first := [Scheduling(1, r), Rearm(1, Answered, r.target, rearmedAt), Scheduling(2, q)];
    var last := [Write(1, true, Answered, retryAt, true), Defer(2)];
    RunAppends(s, first, last);
    TheSecondHolderIsWrong(t, q, retryAt);
    assert first + last == [Scheduling(1, r), Rearm(1, Answered, r.target, rearmedAt), Scheduling(2, q),
                            Write(1, true, Answered, retryAt, true), Defer(2)];
  }

  lemma RunOfTwo(s: State, a: Event, b: Event)
    ensures Run(s, [a, b]) == Step(Step(s, a), b)
  {
    assert [a, b][1..] == [b] && [b][1..] == [];
    assert Run(Step(s, a), [b]) == Run(Step(Step(s, a), b), []);
  }

  lemma RunOfThree(s: State, a: Event, b: Event, c: Event)
    ensures Run(s, [a, b, c]) == Step(Step(Step(s, a), b), c)
  {
    assert [a, b, c][1..] == [b, c];
    RunOfTwo(Step(s, a), b, c);
  }

  /** The first holder spends the record and submits it. */
  lemma TheFirstHolderSubmits(t: State, q: Reservation, retryAt: int) returns (u: State)
    requires q.stage.Prepared? && q.claimed.None?
    requires 1 in t.workers && t.workers[1] == Worker(q, true, Rearmed, false)
    requires t.reg == Registry(map[q.endpoint := q], q.generation) && t.submissions == []
    ensures u == Step(t, Write(1, true, Answered, retryAt, true))
    ensures u.workers == t.workers[1 := Worker(q, true, Decided(false), true)]
    ensures u.submissions == [q.generation] && u.released == t.released
    ensures u.reg.rows == map[q.endpoint := Spent(q, retryAt)]
  {
    u := Step(t, Write(1, true, Answered, retryAt, true));
    assert Begun(t, q, true, Answered, retryAt);
    assert u.reg.rows == map[q.endpoint := Spent(q, retryAt)];
  }

  /** The release of a record that is not the stored one is refused. */
  lemma SettlingAnotherRecordReleasesNothing(v: State, id: WorkerId, commit: Commit)
    requires id in v.workers && v.workers[id].phase == Decided(true) && !Current(v.reg, v.workers[id].held)
    ensures Step(v, Settle(id, commit)).released == v.released
  {
  }

  lemma TheSecondHolderIsWrong(t: State, q: Reservation, retryAt: int)
    requires q.stage.Prepared? && q.claimed.None?
    requires t.workers == map[1 := Worker(q, true, Rearmed, false), 2 := Worker(q, false, Waiting, false)]
    requires t.reg == Registry(map[q.endpoint := q], q.generation) && t.submissions == [] && t.released == {}
    ensures
      var v := Run(t, [Write(1, true, Answered, retryAt, true), Defer(2)]);
      && 2 in v.workers && v.workers[2] == Worker(q, false, Decided(true), false) && v.submissions == [q.generation]
      && Step(v, Settle(2, Answered)).released == {}
  {
    var u := TheFirstHolderSubmits(t, q, retryAt);
    assert u.workers[2] == Worker(q, false, Waiting, false);
    var v := Step(u, Defer(2));
    assert v.workers[2] == Worker(q, false, Decided(true), false) && v.reg == u.reg && v.submissions == u.submissions;
    assert v.released == u.released;
    SettlingAnotherRecordReleasesNothing(v, 2, Answered);
    RunOfTwo(t, Write(1, true, Answered, retryAt, true), Defer(2));
  }

  lemma {:induction false} RunAppends(s: State, a: seq<Event>, b: seq<Event>)
    ensures Run(s, a + b) == Run(Run(s, a), b)
    decreases |a|
  {
    if a == [] {
      assert a + b == b;
    } else {
      assert (a + b)[1..] == a[1..] + b;
      RunAppends(Step(s, a[0]), a[1..], b);
    }
  }

  /** A dispatch of a spent record gives it a new generation. */
  lemma ASpentRecordIsRearmed(r: Reservation, rearmedAt: int) returns (t: State)
    requires r.stage.Uncertain? && r.claimed.None?
    ensures
      var s := Started(Registry(map[r.endpoint := r], r.generation));
      var q := RearmedRecord(r, rearmedAt);
      && t == Step(Step(s, Scheduling(1, r)), Rearm(1, Answered, r.target, rearmedAt))
      && t.workers == map[1 := Worker(q, true, Rearmed, false)] && q in t.seen
      && t.reg == Registry(map[r.endpoint := q], q.generation) && t.submissions == [] && t.released == {}
      && !Tables.Scheduled(t.table, Holder(q))
  {
    var s := Started(Registry(map[r.endpoint := r], r.generation));
    var q := RearmedRecord(r, rearmedAt);
    assert s.reg.rows[r.endpoint] == r && r in s.seen;
    var s1 := Step(s, Scheduling(1, r));
    assert s1.workers[1] == Worker(r, true, Waiting, false);
    t := Step(s1, Rearm(1, Answered, r.target, rearmedAt));
    assert t.reg.rows[r.endpoint] == q && q in t.seen && t.reg.rows == map[r.endpoint := q];
  }

  /** A sweep may hold the rearmed record while the dispatch that rearmed it still runs. */
  lemma TwoHoldersArise(r: Reservation, rearmedAt: int) returns (t: State)
    requires r.stage.Uncertain? && r.claimed.None?
    ensures
      var s := Started(Registry(map[r.endpoint := r], r.generation));
      var q := RearmedRecord(r, rearmedAt);
      && t == Run(s, [Scheduling(1, r), Rearm(1, Answered, r.target, rearmedAt), Scheduling(2, q)])
      && t.workers == map[1 := Worker(q, true, Rearmed, false), 2 := Worker(q, false, Waiting, false)]
      && t.reg == Registry(map[r.endpoint := q], q.generation) && t.submissions == [] && t.released == {}
  {
    var s := Started(Registry(map[r.endpoint := r], r.generation));
    var q := RearmedRecord(r, rearmedAt);
    var u := ASpentRecordIsRearmed(r, rearmedAt);
    t := SecondScheduling(u, q);
    RunOfThree(s, Scheduling(1, r), Rearm(1, Answered, r.target, rearmedAt), Scheduling(2, q));
  }

  lemma SecondScheduling(u: State, q: Reservation) returns (t: State)
    requires q.stage.Prepared? && q in u.seen && 2 !in u.workers && !Tables.Scheduled(u.table, Holder(q))
    ensures t == Step(u, Scheduling(2, q)) && t.workers == u.workers[2 := Worker(q, false, Waiting, false)]
    ensures t.reg == u.reg && t.submissions == u.submissions && t.released == u.released
  {
    t := Step(u, Scheduling(2, q));
  }
}
