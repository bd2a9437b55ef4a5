/**
 * The enrollment diagnostics a retained service publishes, and the health reader
 * that refuses any snapshot it cannot vouch for.
 */
module Enrollment {
  import opened Wrappers

  /** Failure reasons; `Text` spells them as they are published. */
  datatype Reason =
    | Busy | Deadline | FileUnavailable | FileWriteFailed | InvalidMessage | InvalidPath | InvalidPolicy
    | InvalidPolicyLock | InvalidResponse | MessageLimit | NativeFailed | PathUnavailable | PeerGone
    | PeerMismatch | PeerUnavailable | PolicyBusy | PolicyChanged | PolicyInactive | Stopped | TransportFailed
    | UnsafeAcl | UnsafeOwner | UnsafePath | UnsupportedAcl | RegistrationMissing | PeerClosed | Timeout
    | NativeToolFailed

  /** Where a failure was observed. */
  datatype Stage = Register | Maintenance | Reopen | StateRead | OwnerResult

  function Text(r: Reason): string {
    match r
    case Busy => "busy"
    case Deadline => "deadline"
    case FileUnavailable => "file-unavailable"
    case FileWriteFailed => "file-write-failed"
    case InvalidMessage => "invalid-message"
    case InvalidPath => "invalid-path"
    case InvalidPolicy => "invalid-policy"
    case InvalidPolicyLock => "invalid-policy-lock"
    case InvalidResponse => "invalid-response"
    case MessageLimit => "message-limit"
    case NativeFailed => "native-failed"
    case PathUnavailable => "path-unavailable"
    case PeerGone => "peer-gone"
    case PeerMismatch => "peer-mismatch"
    case PeerUnavailable => "peer-unavailable"
    case PolicyBusy => "policy-busy"
    case PolicyChanged => "policy-changed"
    case PolicyInactive => "policy-inactive"
    case Stopped => "stopped"
    case TransportFailed => "transport-failed"
    case UnsafeAcl => "unsafe-acl"
    case UnsafeOwner => "unsafe-owner"
    case UnsafePath => "unsafe-path"
    case UnsupportedAcl => "unsupported-acl"
    case RegistrationMissing => "registration-missing"
    case PeerClosed => "peer-closed"
    case Timeout => "timeout"
    case NativeToolFailed => "native-tool-failed"
  }

  function StageText(s: Stage): string {
    match s
    case Register => "register"
    case Maintenance => "maintenance"
    case Reopen => "reopen"
    case StateRead => "state-read"
    case OwnerResult => "owner-result"
  }

  datatype Diagnostics = Diagnostics(
    observedAt: Option<string>,
    accepted: bool,
    remembered: bool,
    custodyPresent: bool,
    unresolvedHandles: bool,
    continuityOptedIn: bool,
    failure: Option<(Stage, Reason)>)

  // ---- The writer's and the reader's vocabularies ----

  const FAILURE_CATEGORIES: set<Reason> := {
    Busy, Deadline, FileUnavailable, FileWriteFailed, InvalidMessage, InvalidPath, InvalidPolicy,
    InvalidPolicyLock, InvalidResponse, MessageLimit, NativeFailed, PathUnavailable, PeerGone, PeerMismatch,
    PeerUnavailable, PolicyBusy, PolicyChanged, PolicyInactive, Stopped, TransportFailed, UnsafeAcl,
    UnsafeOwner, UnsafePath, UnsupportedAcl, RegistrationMissing, PeerClosed}

  const WRITER_REASONS: set<Reason> := FAILURE_CATEGORIES + {Timeout, NativeToolFailed}

  const READER_REASONS: set<Reason> := {
    Busy, Deadline, FileUnavailable, FileWriteFailed, InvalidMessage, InvalidPath, InvalidPolicy,
    InvalidPolicyLock, InvalidResponse, MessageLimit, NativeFailed, PathUnavailable, PeerGone, PeerMismatch,
    PeerUnavailable, PolicyBusy, PolicyChanged, PolicyInactive, Stopped, TransportFailed, UnsafeAcl,
    UnsafeOwner, UnsafePath, UnsupportedAcl, RegistrationMissing, Timeout, NativeToolFailed}

  /** `_inventory_reason`: any exception, with or without a category, as one of seven reasons. */
  function InventoryReason(category: Option<Reason>): Reason {
    if category.None? then NativeFailed
    else match category.value
      case Deadline => Timeout
      case InvalidPolicy => PolicyInactive
      case FileUnavailable => PolicyInactive
      case PathUnavailable => PolicyInactive
      case PolicyBusy => Busy
      case PeerGone => PeerMismatch
      case PolicyInactive => PolicyInactive
      case PolicyChanged => PolicyChanged
      case PeerMismatch => PeerMismatch
      case Busy => Busy
      case Stopped => Stopped
      case Timeout => Timeout
      case _ => NativeFailed
  }

  /** The reason a failed dispatch records. */
  function DispatchReason(category: Option<Reason>): Reason {
    if category == Some(NativeToolFailed) || category == Some(RegistrationMissing) then category.value
    else InventoryReason(category)
  }

  /** The writer admits exactly one reason that the reader refuses. */
  lemma VocabulariesDifferByPeerClosed()
    ensures WRITER_REASONS - READER_REASONS == {PeerClosed} && READER_REASONS <= WRITER_REASONS
  {
    assert PeerClosed in WRITER_REASONS;
    forall r: Reason ensures r !in READER_REASONS ==> r == PeerClosed { ReaderOnlyRefusesPeerClosed(r); }
  }

  lemma ReaderOnlyRefusesPeerClosed(r: Reason)
    ensures r in WRITER_REASONS && (r !in READER_REASONS <==> r == PeerClosed)
  {
    match r {
      case Busy =>
      case Deadline =>
      case FileUnavailable =>
      case FileWriteFailed =>
      case InvalidMessage =>
      case InvalidPath =>
      case InvalidPolicy =>
      case InvalidPolicyLock =>
      case InvalidResponse =>
      case MessageLimit =>
      case NativeFailed =>
      case PathUnavailable =>
      case PeerGone =>
      case PeerMismatch =>
      case PeerUnavailable =>
      case PolicyBusy =>
      case PolicyChanged =>
      case PolicyInactive =>
      case Stopped =>
      case TransportFailed =>
      case UnsafeAcl =>
      case UnsafeOwner =>
      case UnsafePath =>
      case UnsupportedAcl =>
      case RegistrationMissing =>
      case PeerClosed =>
      case Timeout =>
      case NativeToolFailed =>
    }
  }

  /** Known to the reader, as `ReaderOnlyRefusesPeerClosed` shows. */
  predicate Legible(r: Reason) {
    r != PeerClosed
  }

  /** No call site records that reason, whatever exception it was given. */
  lemma RecordedReasonsAreReadable(category: Option<Reason>)
    ensures InventoryReason(category) in READER_REASONS && InventoryReason(category) in WRITER_REASONS
    ensures DispatchReason(category) in READER_REASONS && DispatchReason(category) in WRITER_REASONS
    ensures Legible(InventoryReason(category)) && Legible(DispatchReason(category))
  {
    ReaderOnlyRefusesPeerClosed(InventoryReason(category));
    ReaderOnlyRefusesPeerClosed(DispatchReason(category));
  }

  // ---- The reader ----

  datatype Health = Unavailable | Health(state: string, diagnostics: Diagnostics)

  /** How long a text may be and whether it parses as a timestamp are the reader's own checks. */
  predicate Readable(d: Diagnostics, parses: string -> bool) {
    && d.observedAt.Some? && |d.observedAt.value| <= 64 && parses(d.observedAt.value)
    && (d.failure.Some? ==>
          && |StageText(d.failure.value.0)| <= 24 && |Text(d.failure.value.1)| <= 32
          && d.failure.value.1 in READER_REASONS)
    && (d.remembered ==> d.accepted)
  }

  function StateName(accepted: bool, remembered: bool, custody: bool, unresolved: bool): string {
    if unresolved then "unresolved_handles"
    else if !accepted then "never_registered"
    else if remembered && custody then "registered"
    else if remembered then "retained_disconnected"
    else if custody then "authority_cleared"
    else "released"
  }

  lemma OnlyDoubtIsNamedUnresolved(accepted: bool, remembered: bool, custody: bool, unresolved: bool)
    ensures StateName(accepted, remembered, custody, unresolved) == "unresolved_handles" <==> unresolved
  {
    assert "never_registered"[0] != "unresolved_handles"[0] && "registered"[0] != "unresolved_handles"[0];
    assert "retained_disconnected"[0] != "unresolved_handles"[0] && "authority_cleared"[0] != "unresolved_handles"[0];
    assert "released"[0] != "unresolved_handles"[0];
  }

  /** `_native_enrollment_health` of a running service. */
  function NativeEnrollmentHealth(lost: bool, published: Option<Diagnostics>, parses: string -> bool): Health {
    if lost || published.None? || !Readable(published.value, parses) then Unavailable
    else
      var d := published.value;
      Health(StateName(d.accepted, d.remembered, d.custodyPresent, d.unresolvedHandles), d)
  }

  lemma StageFits(stage: Stage)
    ensures |StageText(stage)| <= 24
  {
  }

  /** The stage and reason sets fit the reader's length limits. */
  lemma VocabularyFits(stage: Stage, reason: Reason)
    ensures |StageText(stage)| <= 24 && |Text(reason)| <= 32
  {
    StageFits(stage);
  }

  /** A published flag changes only when a new value is given. */
  function Either(update: Option<bool>, previous: bool): bool {
    if update.Some? then update.value else previous
  }

  /** Acceptance is never taken back, the given fields have their new values, and the others their old ones. */
  predicate Replaced(before: Diagnostics, after: Diagnostics, accepted: bool, remembered: Option<bool>,
                     custodyPresent: Option<bool>, unresolvedHandles: Option<bool>, optedIn: Option<bool>,
                     failure: Option<(Stage, Reason)>, clock: Option<string>) {
    && after.observedAt == clock
    && after.accepted == (before.accepted || accepted)
    && after.remembered == Either(remembered, before.remembered)
    && after.custodyPresent == Either(custodyPresent, before.custodyPresent)
    && after.unresolvedHandles == Either(unresolvedHandles, before.unresolvedHandles)
    && after.continuityOptedIn == Either(optedIn, before.continuityOptedIn)
    && after.failure == (if failure.Some? then failure else before.failure)
  }

  /** The copy is made and the given fields are written into it. */
  method Replace(previous: Diagnostics, accepted: bool, remembered: Option<bool>, custodyPresent: Option<bool>,
                 unresolvedHandles: Option<bool>, optedIn: Option<bool>, failure: Option<(Stage, Reason)>,
                 clock: Option<string>)
    returns (snapshot: Diagnostics)
    ensures Replaced(previous, snapshot, accepted, remembered, custodyPresent, unresolvedHandles, optedIn, failure, clock)
  {
    snapshot := previous.(
      observedAt := clock, accepted := previous.accepted || accepted, remembered := Either(remembered, previous.remembered),
      custodyPresent := Either(custodyPresent, previous.custodyPresent),
      unresolvedHandles := Either(unresolvedHandles, previous.unresolvedHandles),
      continuityOptedIn := Either(optedIn, previous.continuityOptedIn));
    if failure.Some? {
      snapshot := snapshot.(failure := failure);
    }
  }

  /** The answers the surroundings give to one `register` request; `Some` is a failure with its category, if it has one. */
  datatype Knock = Knock(
    wellFormed: bool,
    continuityWellFormed: bool,
    peerGone: Option<Option<Reason>>,
    callerMatches: bool,
    endpoint: string,
    optedIn: bool,
    custodyGone: Option<Option<Reason>>,
    fingerprintMatches: bool,
    openFails: Option<Option<Reason>>,
    leftUnresolved: bool,
    resultFails: Option<Option<Reason>>)

  datatype Verdict = Registered | Denied

  class RetainedService {
    const parses: string -> bool
    var registration: Option<string>
    var custody: Option<bool>
    var unresolved: bool
    var stopping: bool
    var nativeUncertain: bool
    var lost: bool
    var diagnostics: Option<Diagnostics>
    ghost var everRegistered: bool
    ghost var clockWorked: bool
    /** `unresolved` was set outside the custody lock, and the diagnostics are not invalidated yet. */
    ghost var tearing: bool

    /** A clock reading that the reader will accept. */
    predicate Good(clock: Option<string>) {
      clock.Some? && |clock.value| <= 64 && parses(clock.value)
    }

    ghost predicate HandlesUnresolved()
      reads this
    {
      unresolved || custody == Some(true)
    }

    /** What is published is what is the case, and the reader can read it. */
    ghost predicate Mirrors(d: Diagnostics)
      reads this
    {
      && d.remembered == registration.Some?
      && d.custodyPresent == custody.Some?
      && d.unresolvedHandles == HandlesUnresolved()
      && d.accepted == everRegistered
    }

    /** Every snapshot tells of an acceptance exactly if there was one, and passes the reader's checks while the clock works. */
    ghost predicate Sound(d: Diagnostics, registered: bool, clocks: bool) {
      && d.accepted == registered
      && (d.remembered ==> d.accepted)
      && (d.failure.Some? ==> Legible(d.failure.value.1))
      && (clocks ==> Good(d.observedAt))
    }

    ghost predicate Published(d: Diagnostics)
      reads this
    {
      Sound(d, everRegistered, clockWorked)
    }

    lemma ReplacedStaysSound(d: Diagnostics, e: Diagnostics, registered: bool, clocks: bool, accepted: bool, remembered: Option<bool>,
                             custodyPresent: Option<bool>, unresolvedHandles: Option<bool>, optedIn: Option<bool>,
                             failure: Option<(Stage, Reason)>, clock: Option<string>)
      requires Sound(d, registered, clocks)
      requires Replaced(d, e, accepted, remembered, custodyPresent, unresolvedHandles, optedIn, failure, clock)
      requires remembered == Some(true) ==> registered || accepted
      requires failure.Some? ==> Legible(failure.value.1)
      ensures Sound(e, registered || accepted, clocks && Good(clock))
    {
    }

    /** Holds whenever the custody lock is free; only a teardown may leave the flags behind the facts. */
    ghost predicate Valid()
      reads this
    {
      && (registration.Some? ==> everRegistered)
      && (!lost ==> diagnostics.Some? && Published(diagnostics.value) && (!tearing ==> Mirrors(diagnostics.value)))
      && (tearing ==> unresolved)
    }

    /** Between two publications of one locked region only the flags may lag behind. */
    ghost predicate Open()
      reads this
    {
      (!lost ==> diagnostics.Some? && Published(diagnostics.value)) && (tearing ==> unresolved)
    }

    /**
     * The reader, which takes no lock, accepts every snapshot that is ever published,
     * in the middle of a locked region too, and shows it unchanged.
     */
    lemma SnapshotsAreReadable()
      requires Open() && clockWorked
      ensures
        var health := NativeEnrollmentHealth(lost, diagnostics, parses);
        if lost then health.Unavailable? else health.Health? && health.diagnostics == diagnostics.value
    {
      if !lost && diagnostics.value.failure.Some? {
        VocabularyFits(diagnostics.value.failure.value.0, diagnostics.value.failure.value.1);
        ReaderOnlyRefusesPeerClosed(diagnostics.value.failure.value.1);
      }
    }

    ghost function TrueState(): string
      reads this
    {
      StateName(everRegistered, registration.Some?, custody.Some?, HandlesUnresolved())
    }

    /**
     * Whenever the custody lock is free the reader's state is the true one, exactly
     * outside a teardown whose unresolved handles are not published yet.
     */
    lemma StateIsTrueExactlyOutsideATeardown()
      requires Valid() && clockWorked && !lost
      ensures
        var health := NativeEnrollmentHealth(lost, diagnostics, parses);
        && health.Health?
        && (health.state == TrueState() <==> !tearing || diagnostics.value.unresolvedHandles)
    {
      SnapshotsAreReadable();
      var d := diagnostics.value;
      OnlyDoubtIsNamedUnresolved(d.accepted, d.remembered, d.custodyPresent, d.unresolvedHandles);
    }

    constructor (parses: string -> bool, clock: Option<string>)
      ensures Valid() && this.parses == parses && clockWorked == Good(clock) && !lost
    {
      this.parses := parses;
      registration, custody, unresolved, stopping, nativeUncertain := None, None, false, false, false;
      lost, tearing := false, false;
      diagnostics := Some(Diagnostics(clock, false, false, false, false, false, None));
      everRegistered := false;
      clockWorked := clock.Some? && |clock.value| <= 64 && parses(clock.value);
    }

    /** `_invalidate_enrollment_diagnostics`; nothing ever undoes it. */
    method Invalidate()
      modifies this`lost, this`diagnostics
      ensures lost && diagnostics.None?
    {
      lost, diagnostics := true, None;
    }

    /** `_publish_enrollment_diagnostics`; `fails` stands for any exception inside it. */
    method Publish(accepted: bool, remembered: Option<bool>, custodyPresent: Option<bool>,
                   unresolvedHandles: Option<bool>, optedIn: Option<bool>, failure: Option<(Stage, Reason)>,
                   clock: Option<string>, fails: bool)
      requires Open()
      requires remembered == Some(true) ==> everRegistered || accepted
      requires failure.Some? ==> Legible(failure.value.1)
      modifies this`lost, this`diagnostics, this`everRegistered, this`clockWorked
      ensures Open()
      ensures everRegistered == (old(everRegistered) || accepted)
      ensures clockWorked == (old(clockWorked) && Good(clock))
      ensures lost == (old(lost) || fails)
      ensures !lost ==>
        diagnostics.Some? && Replaced(old(diagnostics).value, diagnostics.value, accepted, remembered, custodyPresent,
                                      unresolvedHandles, optedIn, failure, clock)
    {
      if fails && !lost {
        Invalidate();
      } else if !lost {
        var previous := diagnostics.value;
        var snapshot := Replace(previous, accepted, remembered, custodyPresent, unresolvedHandles, optedIn, failure, clock);
        ReplacedStaysSound(previous, snapshot, everRegistered, clockWorked,
                           accepted, remembered, custodyPresent, unresolvedHandles, optedIn, failure, clock);
        diagnostics := Some(snapshot);
      }
      everRegistered := everRegistered || accepted;
      clockWorked := clockWorked && Good(clock);
    }

    /** `_record_enrollment_failure`. */
    method RecordFailure(stage: Stage, reason: Reason, clock: Option<string>, fails: bool)
      requires Open() && Legible(reason)
      modifies this`lost, this`diagnostics, this`everRegistered, this`clockWorked
      ensures Open() && (old(lost) ==> lost) && everRegistered == old(everRegistered)
      ensures clockWorked ==> old(clockWorked)
      ensures Good(clock) ==> clockWorked == old(clockWorked)
      ensures !lost ==>
        var before, after := old(diagnostics).value, diagnostics.value;
        && after.remembered == before.remembered && after.custodyPresent == before.custodyPresent
        && after.unresolvedHandles == before.unresolvedHandles
      ensures !lost ==> diagnostics.value.failure == Noted(Some((stage, reason)), old(diagnostics).value.failure)
    {
      if reason in WRITER_REASONS {
        Publish(false, None, None, None, None, Some((stage, reason)), clock, fails);
      }
    }

    /** The flags as they are, as `_clear_registration` and `_drop` publish them. */
    method PublishFlags(clock: Option<string>, fails: bool)
      requires Open() && (registration.Some? ==> everRegistered)
      modifies this`lost, this`diagnostics, this`everRegistered, this`clockWorked
      ensures Valid() && (old(lost) ==> lost) && everRegistered == old(everRegistered)
      ensures clockWorked == (old(clockWorked) && Good(clock))
      ensures !lost ==> diagnostics.value.failure == old(diagnostics).value.failure
    {
      Publish(false, Some(registration.Some?), Some(custody.Some?), Some(unresolved || custody == Some(true)),
              None, None, clock, fails);
    }

    /** `_clear_registration`. */
    method ClearRegistration(clock: Option<string>, fails: bool)
      requires Open()
      modifies this`registration, this`lost, this`diagnostics, this`everRegistered, this`clockWorked
      ensures Valid() && registration.None? && (old(lost) ==> lost) && everRegistered == old(everRegistered)
      ensures clockWorked == (old(clockWorked) && Good(clock))
      ensures !lost ==> diagnostics.value.failure == old(diagnostics).value.failure
    {
      registration := None;
      PublishFlags(clock, fails);
    }

    /**
     * `_drop`: the registration outlives its custody only when asked to and
     * nothing native is in doubt; an unresolved custody is kept and stops the
     * service.
     */
    method Drop(preserve: bool, failure: Option<(Stage, Reason)>, clock: Option<string>, fails: bool)
      requires Open() && (registration.Some? ==> everRegistered)
      requires failure.Some? ==> Legible(failure.value.1)
      modifies this
      ensures Valid() && (old(lost) ==> lost)
      ensures everRegistered == old(everRegistered)
      ensures registration == (if preserve && !old(unresolved) && !old(stopping) && !old(nativeUncertain)
                               then old(registration) else None)
      ensures custody == AfterDrop(old(custody))
      ensures unresolved == (old(unresolved) || old(custody) == Some(true))
      ensures stopping == (old(stopping) || old(custody) == Some(true))
      ensures Good(clock) ==> clockWorked == old(clockWorked)
      ensures nativeUncertain == old(nativeUncertain)
      ensures !lost ==> diagnostics.value.failure == Noted(failure, old(diagnostics).value.failure)
    {
      if failure.Some? {
        RecordFailure(failure.value.0, failure.value.1, clock, fails);
      }
      GiveUp(preserve, clock, fails);
    }

    /** `_drop` after its failure, if it has one, is recorded. */
    method GiveUp(preserve: bool, clock: Option<string>, fails: bool)
      requires Open() && (registration.Some? ==> everRegistered)
      modifies this
      ensures Valid() && (old(lost) ==> lost)
      ensures everRegistered == old(everRegistered)
      ensures registration == (if preserve && !old(unresolved) && !old(stopping) && !old(nativeUncertain)
                               then old(registration) else None)
      ensures custody == AfterDrop(old(custody))
      ensures unresolved == (old(unresolved) || old(custody) == Some(true))
      ensures stopping == (old(stopping) || old(custody) == Some(true))
      ensures Good(clock) ==> clockWorked == old(clockWorked)
      ensures nativeUncertain == old(nativeUncertain)
      ensures !lost ==> diagnostics.value.failure == old(diagnostics).value.failure
    {
      if !preserve || unresolved || stopping || nativeUncertain {
        ClearRegistration(clock, fails);
      }
      LetGo();
      PublishFlags(clock, fails);
    }

    /** The last failure that is shown: a new one only if the writer admits its reason. */
    function Noted(failure: Option<(Stage, Reason)>, before: Option<(Stage, Reason)>): Option<(Stage, Reason)> {
      if failure.Some? && failure.value.1 in WRITER_REASONS then failure else before
    }

    /** Custody whose handles are in doubt is kept and stops the service; other custody ends. */
    method LetGo()
      modifies this`custody, this`unresolved, this`stopping
      ensures custody == AfterDrop(old(custody))
      ensures unresolved == (old(unresolved) || old(custody) == Some(true))
      ensures stopping == (old(stopping) || old(custody) == Some(true))
    {
      if custody.Some? {
        if custody.value {
          unresolved, stopping := true, true;
        } else {
          custody := None;
        }
      }
    }

    /** What `_check_custody` raises, given what the surroundings raise; with a category or without one. */
    function Complaint(surroundings: Option<Option<Reason>>): Option<Option<Reason>>
      reads this
    {
      if stopping || unresolved || nativeUncertain || custody.None? || custody == Some(true) then Some(Some(Stopped))
      else surroundings
    }

    /** Custody in doubt is kept; other custody is gone. */
    function AfterDrop(held: Option<bool>): Option<bool> {
      if held == Some(true) then held else None
    }

    /** `_check_custody`. */
    method CheckCustody(surroundings: Option<Option<Reason>>) returns (failed: Option<Option<Reason>>)
      ensures failed == Complaint(surroundings)
      ensures failed.None? ==> !HandlesUnresolved() && custody.Some? && !stopping
    {
      if stopping || unresolved || nativeUncertain || custody.None? || custody == Some(true) {
        return Some(Some(Stopped));
      }
      return surroundings;
    }

    /** The `register` verb of `_process`, under the custody lock. */
    method Register(k: Knock, clock: Option<string>, fails: bool) returns (verdict: Verdict)
      requires Valid()
      modifies this
      ensures Valid() && (old(lost) ==> lost) && (old(everRegistered) ==> everRegistered)
      ensures verdict.Registered? ==> everRegistered && custody == Some(false)
      ensures Good(clock) ==> clockWorked == old(clockWorked)
    {
      if !k.wellFormed || !k.continuityWellFormed {
        RecordFailure(Stage.Register, InvalidMessage, clock, fails);
        return Denied;
      }
      if k.peerGone.Some? {
        RecordedReasonsAreReadable(k.peerGone.value);
        RecordFailure(Stage.Register, InventoryReason(k.peerGone.value), clock, fails);
        return Denied;
      }
      if !k.callerMatches {
        RecordFailure(Stage.Register, PeerMismatch, clock, fails);
        return Denied;
      }
      if custody.Some? {
        verdict := Renew(k, clock, fails);
      } else {
        verdict := Enroll(k, clock, fails);
      }
    }

    /** Registering again over a custody that is still held. */
    method Renew(k: Knock, clock: Option<string>, fails: bool) returns (verdict: Verdict)
      requires Valid() && custody.Some?
      modifies this
      ensures Valid() && (old(lost) ==> lost) && (old(everRegistered) ==> everRegistered)
      ensures verdict.Registered? <==>
                && old(Complaint(k.custodyGone)).None? && k.fingerprintMatches && k.resultFails.None?
                && (old(registration).Some? ==> k.endpoint == old(registration).value)
      ensures verdict.Registered? ==> everRegistered && custody == Some(false) && registration == old(registration)
      ensures Good(clock) ==> clockWorked == old(clockWorked)
    {
      var complaint := CheckCustody(k.custodyGone);
      if complaint.Some? {
        RecordedReasonsAreReadable(complaint.value);
        RecordFailure(Stage.Register, InventoryReason(complaint.value), clock, fails);
        return Denied;
      }
      if !k.fingerprintMatches {
        RecordFailure(Stage.Register, PeerMismatch, clock, fails);
        Drop(false, None, clock, fails);
        return Denied;
      }
      if registration.Some? && k.endpoint != registration.value {
        RecordFailure(Stage.Register, PeerMismatch, clock, fails);
        ClearRegistration(clock, fails);
        return Denied;
      }
      assert custody != Some(true) && custody == Some(custody.value);
      assert !custody.value;
      Publish(true, Some(registration.Some?), Some(true), Some(false), Some(k.optedIn), None, clock, fails);
      // An answer that cannot be given denies the request and takes nothing back.
      return if k.resultFails.None? then Registered else Denied;
    }

    /** A first registration succeeds. */
    predicate Opens(k: Knock)
      reads this
    {
      k.openFails.None? && k.resultFails.None? && !unresolved && !stopping && !nativeUncertain
    }

    /** Why a first registration is denied. */
    function DenialOf(k: Knock): Option<Reason> {
      if k.openFails.Some? then k.openFails.value else if k.resultFails.Some? then k.resultFails.value else Some(Stopped)
    }

    /**
     * A first registration: open custody and remember it, or drop everything; a
     * denial leaves no registration, no custody but one in doubt, and its reason.
     */
    method Enroll(k: Knock, clock: Option<string>, fails: bool) returns (verdict: Verdict)
      requires Valid() && custody.None?
      modifies this
      ensures Valid() && (old(lost) ==> lost) && (old(everRegistered) ==> everRegistered)
      ensures verdict.Registered? <==> old(Opens(k))
      ensures verdict.Registered? ==> everRegistered && custody == Some(false) && registration == Some(k.endpoint)
      ensures verdict.Denied? ==>
                && registration.None?
                && (custody.Some? ==> custody == Some(true) && k.leftUnresolved && unresolved && stopping)
                && (!lost ==> diagnostics.value.failure == Some((Stage.Register, InventoryReason(DenialOf(k)))))
      ensures Good(clock) ==> clockWorked == old(clockWorked)
    {
      if k.openFails.None? && !unresolved && !stopping && !nativeUncertain {
        Accept(k, clock, fails);
        if k.resultFails.None? {
          return Registered;
        }
      } else if k.leftUnresolved {
        custody := Some(true);
      }
      Abandon(Stage.Register, DenialOf(k), clock, fails);
      return Denied;
    }

    /** A failure is recorded under its reason, and everything but custody in doubt is dropped. */
    method Abandon(stage: Stage, category: Option<Reason>, clock: Option<string>, fails: bool)
      requires Open() && (registration.Some? ==> everRegistered)
      modifies this
      ensures Valid() && (old(lost) ==> lost) && everRegistered == old(everRegistered)
      ensures registration.None? && custody == AfterDrop(old(custody))
      ensures custody.Some? ==> unresolved && stopping
      ensures Good(clock) ==> clockWorked == old(clockWorked)
      ensures !lost ==> diagnostics.value.failure == Some((stage, InventoryReason(category)))
    {
      RecordedReasonsAreReadable(category);
      RecordFailure(stage, InventoryReason(category), clock, fails);
      GiveUp(false, clock, fails);
    }

    /** A first registration takes effect and is published. */
    method Accept(k: Knock, clock: Option<string>, fails: bool)
      requires Valid() && !unresolved
      modifies this`custody, this`registration, this`lost, this`diagnostics, this`everRegistered, this`clockWorked
      ensures Valid() && (old(lost) ==> lost) && everRegistered
      ensures custody == Some(false) && registration == Some(k.endpoint)
      ensures Good(clock) ==> clockWorked == old(clockWorked)
    {
      custody := Some(false);
      registration := Some(k.endpoint);
      Publish(true, Some(true), Some(true), Some(false), Some(k.optedIn), None, clock, fails);
    }

    /** `_maintain`: custody that fails its check is dropped with its registration, and the reason recorded. */
    method Maintain(surroundings: Option<Option<Reason>>, clock: Option<string>, fails: bool)
      requires Valid()
      modifies this
      ensures Valid() && (old(lost) ==> lost) && everRegistered == old(everRegistered)
      ensures old(custody).None? || old(Complaint(surroundings)).None? ==>
                registration == old(registration) && custody == old(custody) && diagnostics == old(diagnostics) && lost == old(lost)
      ensures old(custody).Some? && old(Complaint(surroundings)).Some? ==>
                && registration.None? && custody == AfterDrop(old(custody))
                && (custody.Some? ==> unresolved && stopping)
                && (!lost ==> diagnostics.value.failure == Some((Maintenance, InventoryReason(old(Complaint(surroundings)).value))))
      ensures Good(clock) ==> clockWorked == old(clockWorked)
    {
      if custody.None? {
        return;
      }
      var complaint := CheckCustody(surroundings);
      if complaint.Some? {
        Abandon(Maintenance, complaint.value, clock, fails);
      }
    }

    /**
     * `_reopen_registration`: custody comes back for a remembered registration, or an
     * exception with its category; `left` is the custody a failed opening leaves behind.
     */
    method Reopen(sourceChanged: bool, peerGone: Option<Option<Reason>>, openFails: Option<Option<Reason>>, left: Option<bool>,
                  clock: Option<string>, fails: bool) returns (failed: Option<Option<Reason>>)
      requires Valid() && custody.None?
      modifies this
      ensures Open() && (registration.Some? ==> everRegistered)
      ensures registration == old(registration) && everRegistered == old(everRegistered) && (old(lost) ==> lost)
      ensures failed ==
              (if stopping || unresolved || nativeUncertain then Some(Some(Stopped))
               else if registration.None? then Some(Some(RegistrationMissing))
               else if sourceChanged then Some(Some(PeerMismatch))
               else if peerGone.Some? then peerGone
               else openFails)
      ensures failed.None? ==> Valid() && custody == Some(false) && registration.Some?
      ensures failed.Some? ==> diagnostics == old(diagnostics) && lost == old(lost) && (custody.Some? ==> custody == left)
      ensures Good(clock) ==> clockWorked == old(clockWorked)
    {
      if stopping || unresolved || nativeUncertain {
        return Some(Some(Stopped));
      }
      if registration.None? {
        return Some(Some(RegistrationMissing));
      }
      if sourceChanged {
        return Some(Some(PeerMismatch));
      }
      if peerGone.Some? {
        return peerGone;
      }
      if openFails.Some? {
        custody := left;
        return openFails;
      }
      custody := Some(false);
      Publish(false, Some(true), Some(true), Some(false), None, None, clock, fails);
      return None;
    }

    /** The exception handler of `dispatch`; `ioUnresolved` is what the failed exchange left behind. */
    method DispatchFailed(stage: Stage, category: Option<Reason>, preserve: bool, ioUnresolved: bool,
                          clock: Option<string>, fails: bool)
      requires Open() && (registration.Some? ==> everRegistered)
      modifies this
      ensures Valid() && (old(lost) ==> lost) && everRegistered == old(everRegistered)
      ensures registration == (if preserve && old(custody) == Some(false) && !ioUnresolved
                                  && !old(unresolved) && !old(stopping) && !old(nativeUncertain)
                               then old(registration) else None)
      ensures custody == (if old(custody) == Some(true) || (old(custody).Some? && ioUnresolved) then Some(true) else None)
      ensures !lost ==> diagnostics.value.failure == Some((stage, DispatchReason(category)))
      ensures Good(clock) ==> clockWorked == old(clockWorked)
    {
      if custody.Some? && ioUnresolved {
        custody := Some(true);
      }
      RecordedReasonsAreReadable(category);
      Drop(preserve && custody == Some(false), Some((stage, DispatchReason(category))), clock, fails);
    }

    /**
     * `stop` up to the join of its worker, and `_run` at its end: a worker that does
     * not end, or a pipe left in doubt, is noted without the custody lock.
     */
    method NoteDoubt(doubt: bool)
      requires Valid()
      modifies this`unresolved, this`tearing
      ensures Valid() && unresolved == (old(unresolved) || doubt)
      ensures tearing == (old(tearing) || (doubt && !old(unresolved)))
    {
      tearing := tearing || (doubt && !unresolved);
      unresolved := unresolved || doubt;
    }

    /** The last step of `stop` and of `_run`: handles in doubt make the diagnostics unavailable. */
    method InvalidateInDoubt()
      requires Valid()
      modifies this`lost, this`diagnostics, this`tearing
      ensures Valid() && !tearing && (unresolved ==> lost)
      ensures !unresolved ==> lost == old(lost) && diagnostics == old(diagnostics)
    {
      if unresolved {
        Invalidate();
      }
      tearing := false;
    }

    /** `stop` up to its join: the registration goes under the custody lock. */
    method BeginStop(clock: Option<string>, fails: bool)
      requires Valid()
      modifies this`stopping, this`registration, this`lost, this`diagnostics, this`everRegistered, this`clockWorked
      ensures Valid() && (old(lost) ==> lost) && registration.None? && stopping
    {
      stopping := true;
      ClearRegistration(clock, fails);
    }

    /** `stop`, when nothing else runs between its steps. */
    method Stop(workerAlive: bool, clock: Option<string>, fails: bool)
      requires Valid()
      modifies this
      ensures Valid() && (old(lost) ==> lost) && registration.None? && stopping && !tearing
      ensures unresolved == (old(unresolved) || workerAlive) && (unresolved ==> lost)
    {
      BeginStop(clock, fails);
      NoteDoubt(workerAlive);
      InvalidateInDoubt();
    }
  }
}
