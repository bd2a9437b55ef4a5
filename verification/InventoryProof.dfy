/**
 * The write-once proof files of an inventory attempt, and the operator's
 * independent reader of them.
 */
module InventoryProof {
  import opened Wrappers

  /** The policy file's content; `identity` stands for its process, desktop and version fields. */
  datatype Policy = Policy(revision: nat, expiresAt: int, enabled: bool, revoked: bool, identity: string)

  datatype Phase = Before | Exit | After | Failure

  datatype Cause = NoFailure | PolicyInactive | PolicyChanged | PeerMismatch | Busy | Stopped | TimedOut | NativeFailed

  /** One proof document.  The fingerprint identifies the policy, so it is kept as the policy itself. */
  datatype Proof = Proof(
    epoch: string,
    revision: nat,
    fingerprint: Policy,
    beforeOk: bool,
    afterOk: bool,
    sourceExited: bool,
    failure: Cause)

  type Directory = map<Phase, Proof>

  // ---- The reader ----

  datatype Reading =
    | Invalid
    | Read(pass: bool, beforeOk: bool, sourceExited: bool, afterOk: bool)

  predicate PhaseAllowed(phase: Phase, v: Proof, epoch: string, expected: Policy) {
    && v.epoch == epoch && v.revision == expected.revision && v.fingerprint == expected
    && match phase
       case Failure =>
         !v.failure.NoFailure? && !(v.sourceExited && !v.beforeOk) && !(v.afterOk && !(v.beforeOk && v.sourceExited))
       case Before => v.failure.NoFailure? && v.beforeOk && !v.sourceExited && !v.afterOk
       case Exit => v.failure.NoFailure? && v.beforeOk && v.sourceExited && !v.afterOk
       case After => v.failure.NoFailure? && v.beforeOk && v.sourceExited && v.afterOk
  }

  /** `read_inventory_proof`. */
  function ReadInventoryProof(files: Directory, epoch: string, expected: Policy): Reading {
    if exists phase :: phase in files && !PhaseAllowed(phase, files[phase], epoch, expected) then Invalid
    else if Failure in files
            && (After in files || (Before in files && !files[Failure].beforeOk)
                || (Exit in files && !files[Failure].sourceExited)) then Invalid
    else Read(Failure !in files && Before in files && Exit in files && After in files,
              Before in files, Exit in files, After in files)
  }

  // ---- One attempt ----

  /** The proof in memory, the phases this attempt published, and the directory. */
  datatype Attempt = Attempt(proof: Proof, published: set<Phase>, files: Directory)

  function Start(epoch: string, policy: Policy, files: Directory): Attempt {
    Attempt(Proof(epoch, policy.revision, policy, false, false, false, NoFailure), {}, files)
  }

  function PhaseOf(p: Proof): Option<Phase> {
    if !p.failure.NoFailure? then Some(Failure)
    else if p.afterOk then Some(After)
    else if p.sourceExited then Some(Exit)
    else if p.beforeOk then Some(Before)
    else None
  }

  /**
   * `_publish_proof`: false is an exception.  Publication is a rename without
   * replacement, so an existing phase file makes it fail.
   */
  function Publish(a: Attempt, io: bool): (Attempt, bool) {
    var phase := PhaseOf(a.proof);
    if phase.None? || phase.value in a.published then (a, true)
    else if !io || phase.value in a.files then (a, false)
    else (a.(published := a.published + {phase.value}, files := a.files[phase.value := a.proof]), true)
  }

  /** `_proof_failure`. */
  function Fail(a: Attempt, cause: Cause, io: bool): (Attempt, bool) {
    if After !in a.published && a.proof.failure.NoFailure?
    then Publish(a.(proof := a.proof.(failure := cause)), io)
    else (a, true)
  }

  predicate ProofShape(p: Proof) {
    (p.sourceExited ==> p.beforeOk) && (p.afterOk ==> p.sourceExited)
  }

  /** What the proof in memory and its publications keep, whatever the directory holds. */
  ghost predicate ProgressInv(a: Attempt) {
    && ProofShape(a.proof)
    && a.proof.revision == a.proof.fingerprint.revision
    && (Before in a.published ==> a.proof.beforeOk)
    && (Exit in a.published ==> a.proof.sourceExited && Before in a.published)
    && (After in a.published ==> a.proof.afterOk && a.proof.failure.NoFailure? && Exit in a.published)
    && (Failure in a.published ==> !a.proof.failure.NoFailure? && After !in a.published)
  }

  /** What an attempt started over an empty directory keeps. */
  ghost predicate AttemptInv(a: Attempt) {
    && ProgressInv(a)
    && a.files.Keys <= a.published
    && (forall phase :: phase in a.files ==> PhaseAllowed(phase, a.files[phase], a.proof.epoch, a.proof.fingerprint))
    && (Failure in a.files ==>
          && (Before in a.published ==> a.files[Failure].beforeOk)
          && (Exit in a.published ==> a.files[Failure].sourceExited))
  }

  /** The phase to publish next has everything before it published already. */
  predicate InOrder(a: Attempt) {
    match PhaseOf(a.proof)
    case Some(Exit) => Before in a.published
    case Some(After) => Exit in a.published && Before in a.published
    case _ => true
  }

  /** Publishing in order keeps the progress, and a readable directory readable. */
  lemma PublishKeepsInv(a: Attempt, io: bool)
    requires ProgressInv(a) && InOrder(a)
    ensures ProgressInv(Publish(a, io).0)
    ensures AttemptInv(a) ==> AttemptInv(Publish(a, io).0)
  {
  }

  lemma FailKeepsInv(a: Attempt, cause: Cause, io: bool)
    requires ProgressInv(a) && !cause.NoFailure?
    ensures ProgressInv(Fail(a, cause, io).0)
    ensures AttemptInv(a) ==> AttemptInv(Fail(a, cause, io).0)
  {
    if After !in a.published && a.proof.failure.NoFailure? {
      PublishKeepsInv(a.(proof := a.proof.(failure := cause)), io);
    }
  }

  /**
   * The reader never calls the files of such an attempt invalid; it reports a
   * pass exactly when the three phases are there; and a failure and an `after`
   * are never there together.
   */
  lemma AttemptsAreReadable(a: Attempt)
    requires AttemptInv(a)
    ensures
      var reading := ReadInventoryProof(a.files, a.proof.epoch, a.proof.fingerprint);
      && reading.Read?
      && (reading.pass <==> Before in a.files && Exit in a.files && After in a.files)
      && !(Failure in a.files && After in a.files)
  {
  }

  // ---- Attempts over files left behind ----

  /** The publications one attempt can make, in the order the source makes them. */
  datatype Move = Witness(io: bool, failIo: bool) | SourceGone(io: bool, failIo: bool) | Again(io: bool, failIo: bool)
                | Break(cause: Cause, failIo: bool)

  predicate CanMove(a: Attempt, m: Move) {
    && a.proof.failure.NoFailure?
    && match m
       case Witness(_, _) => !a.proof.beforeOk
       case SourceGone(_, _) => Before in a.published && !a.proof.sourceExited
       case Again(_, _) => Exit in a.published && !a.proof.afterOk
       case Break(cause, _) => !cause.NoFailure?
  }

  function Marked(p: Proof, m: Move): Proof {
    match m
    case Witness(_, _) => p.(beforeOk := true)
    case SourceGone(_, _) => p.(sourceExited := true)
    case Again(_, _) => p.(afterOk := true)
    case Break(_, _) => p
  }

  /** A publication that raises ends the attempt with a failure. */
  function Advance(a: Attempt, m: Move): Attempt {
    if !CanMove(a, m) then a
    else if m.Break? then Fail(a, m.cause, m.failIo).0
    else
      var (b, ok) := Publish(a.(proof := Marked(a.proof, m)), m.io);
      if ok then b else Fail(b, NativeFailed, m.failIo).0
  }

  function Continue(a: Attempt, moves: seq<Move>): Attempt
    decreases |moves|
  {
    if moves == [] then a else Continue(Advance(a, moves[0]), moves[1..])
  }

  lemma AdvanceKeepsInv(a: Attempt, m: Move)
    requires AttemptInv(a)
    ensures AttemptInv(Advance(a, m))
  {
    if CanMove(a, m) {
      if m.Break? {
        FailKeepsInv(a, m.cause, m.failIo);
      } else {
        var marked := a.(proof := Marked(a.proof, m));
        PublishKeepsInv(marked, m.io);
        FailKeepsInv(Publish(marked, m.io).0, NativeFailed, m.failIo);
      }
    }
  }

  lemma {:induction false} ContinueKeepsInv(a: Attempt, moves: seq<Move>)
    requires AttemptInv(a)
    ensures AttemptInv(Continue(a, moves))
    decreases |moves|
  {
    if moves != [] {
      AdvanceKeepsInv(a, moves[0]);
      ContinueKeepsInv(Advance(a, moves[0]), moves[1..]);
    }
  }

  /** Every attempt over an empty directory is readable at every point. */
  lemma FreshAttemptsAreReadable(epoch: string, policy: Policy, moves: seq<Move>)
    ensures
      var a := Continue(Start(epoch, policy, map[]), moves);
      ReadInventoryProof(a.files, epoch, policy).Read?
  {
    ContinueKeepsInv(Start(epoch, policy, map[]), moves);
    SameIdentity(Start(epoch, policy, map[]), moves);
    AttemptsAreReadable(Continue(Start(epoch, policy, map[]), moves));
  }

  lemma {:induction false} SameIdentity(a: Attempt, moves: seq<Move>)
    ensures
      var b := Continue(a, moves);
      b.proof.epoch == a.proof.epoch && b.proof.fingerprint == a.proof.fingerprint && b.proof.revision == a.proof.revision
    decreases |moves|
  {
    if moves != [] { SameIdentity(Advance(a, moves[0]), moves[1..]); }
  }

  /** Files that an earlier attempt under the same policy left, phase after phase. */
  predicate LeftBehind(files: Directory, epoch: string, policy: Policy) {
    && ReadInventoryProof(files, epoch, policy).Read?
    && (Exit in files ==> Before in files)
    && (After in files ==> Exit in files)
  }

  /** Nothing can be published over these files, or there are none. */
  predicate Inert(files: Directory) {
    files == map[] || (Before in files && Failure in files)
  }

  /** An attempt stuck behind both its first and its last possible file. */
  ghost predicate Blocked(a: Attempt) {
    && Before in a.files && Failure in a.files && a.published == {}
    && (a.proof.failure.NoFailure? ==> !a.proof.beforeOk && !a.proof.sourceExited && !a.proof.afterOk)
  }

  lemma {:induction false} BlockedAttemptsChangeNothing(a: Attempt, moves: seq<Move>)
    requires Blocked(a)
    ensures Continue(a, moves).files == a.files
    decreases |moves|
  {
    if moves != [] {
      var b := Advance(a, moves[0]);
      assert b.files == a.files && b.published == {};
      BlockedAttemptsChangeNothing(b, moves[1..]);
    }
  }

  /**
   * A second attempt under the policy of an earlier one is readable at every
   * point exactly when the earlier one left nothing, or left both its `before`
   * and its failure.
   */
  lemma RepeatedAttemptsAreReadableExactlyWhenInert(files: Directory, epoch: string, policy: Policy)
    requires LeftBehind(files, epoch, policy)
    ensures
      (forall moves :: ReadInventoryProof(Continue(Start(epoch, policy, files), moves).files, epoch, policy).Read?)
      <==> Inert(files)
  {
    if Inert(files) {
      forall moves ensures ReadInventoryProof(Continue(Start(epoch, policy, files), moves).files, epoch, policy).Read? {
        if files == map[] { FreshAttemptsAreReadable(epoch, policy, moves); }
        else { BlockedAttemptsChangeNothing(Start(epoch, policy, files), moves); }
      }
    } else {
      var moves := BreakingMoves(files, epoch, policy);
      assert !ReadInventoryProof(Continue(Start(epoch, policy, files), moves).files, epoch, policy).Read?;
    }
  }

  /** The moves that spoil the directory: an early failure, or a full success over an old failure. */
  lemma BreakingMoves(files: Directory, epoch: string, policy: Policy) returns (moves: seq<Move>)
    requires LeftBehind(files, epoch, policy) && !Inert(files)
    ensures ReadInventoryProof(Continue(Start(epoch, policy, files), moves).files, epoch, policy).Invalid?
  {
    var a := Start(epoch, policy, files);
    if Failure !in files {
      assert Before in files;
      moves := [Break(NativeFailed, true)];
      var b := Advance(a, moves[0]);
      assert Continue(a, moves) == b by { assert moves[1..] == []; }
      assert b.files[Failure].beforeOk == false;
    } else {
      var w, g, t := Witness(true, true), SourceGone(true, true), Again(true, true);
      moves := [w, g, t];
      var b := Advance(a, w);
      assert CanMove(a, w) && Before in b.published && b.files.Keys == files.Keys + {Before};
      var c := Advance(b, g);
      assert CanMove(b, g) && Exit in c.published && c.files.Keys == b.files.Keys + {Exit};
      var d := Advance(c, t);
      assert CanMove(c, t) && d.files.Keys == c.files.Keys + {After};
      assert moves[1..] == [g, t] && [g, t][1..] == [t] && [t][1..] == [];
      assert Continue(a, moves) == Continue(b, [g, t]) == Continue(c, [t]) == Continue(d, []) == d;
      assert After in d.files && Failure in d.files;
    }
  }
}
