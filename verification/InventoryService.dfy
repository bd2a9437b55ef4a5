/**
 * The inventory service around its proof: policy loading, fencing, release,
 * custody and the points at which it publishes.
 *
 * What a locked look at the policy file and the clock shows is an argument, or
 * arbitrary; other native answers are drawn inside the methods, so each contract
 * holds for every answer.  The ghost field `orderly` says that the looks so far
 * moved as provisioning moves them: a revision is never reused for another
 * content and never goes back, and the UTC clock does not run backwards.
 */
module InventoryService {
  import opened Wrappers
  import opened InventoryProof

  const GRANT_SECONDS: int := 300

  predicate ValidAt(p: Policy, now: int) {
    p.enabled && !p.revoked && 0 < p.expiresAt - now <= GRANT_SECONDS
  }

  /** One look: the policy file, if it can be read, and the clock, which `_maintain` may read `again`. */
  datatype Sight = Sight(current: Option<Policy>, now: int, again: int)

  /** How provisioning may move the policy file between two looks at it. */
  predicate Follows(before: Option<Policy>, after: Option<Policy>) {
    before.Some? && after.Some? ==> after.value.revision > before.value.revision || after == before
  }

  // ---- Authority ----

  datatype Authority = Authority(policy: Option<Policy>, fenced: bool, replaceAllowed: bool, releaseRevision: nat)

  /** When `_authorize` lets a policy become, or stay, the current one. */
  predicate Admits(a: Authority, files: Directory, current: Policy, now: int) {
    && ValidAt(current, now)
    && (if a.policy.Some? && a.policy.value != current
        then a.replaceAllowed && current.revision > a.policy.value.revision && current.revision > a.releaseRevision
        else !a.fenced)
    && (a.policy == Some(current) || files == map[])
  }

  function Admitted(a: Authority, current: Policy): Authority {
    Authority(Some(current), false, false, a.releaseRevision)
  }

  /** A look at which `_maintain` releases the policy. */
  predicate Revokes(p: Policy, sight: Sight) {
    sight.current.Some? && (sight.now >= p.expiresAt || sight.current.value.revoked || !sight.current.value.enabled)
  }

  function Larger(a: nat, b: nat): nat { if a >= b then a else b }

  /** The revision that a replacing policy has to exceed. */
  function NotedRevision(a: Authority, current: Policy): nat
    requires a.policy.Some?
  {
    var released := if current.revoked || !current.enabled then current.revision else a.policy.value.revision;
    Larger(Larger(a.releaseRevision, a.policy.value.revision), released)
  }

  function Released(a: Authority, current: Policy): Authority
    requires a.policy.Some?
  {
    Authority(a.policy, true, true, NotedRevision(a, current))
  }

  /** A new source process connects: after a release it lifts the fence. */
  function Lifted(a: Authority): Authority {
    if a.replaceAllowed then a.(fenced := false) else a
  }

  /**
   * The clock steps back behind the expiry that released a policy, and the policy
   * is admitted again over the files of its finished attempt, which the new attempt
   * can make invalid.
   */
  lemma RollbackReadmitsTheReleasedPolicy(a: Authority, p: Policy, epoch: string, files: Directory)
    requires a.policy == Some(p) && p.enabled && !p.revoked
    requires LeftBehind(files, epoch, p) && !Inert(files)
    ensures
      var before, after := Sight(Some(p), p.expiresAt, p.expiresAt), Sight(Some(p), p.expiresAt - 1, p.expiresAt - 1);
      var lifted := Lifted(Released(a, p));
      && Revokes(p, before) && Follows(before.current, after.current) && after.now < before.again
      && Admits(lifted, files, p, after.now)
      && exists moves :: ReadInventoryProof(Continue(Start(epoch, p, files), moves).files, epoch, p).Invalid?
  {
    var moves := BreakingMoves(files, epoch, p);
  }

  /** The failure of an attempt that never witnessed anything is enough: a whole new attempt fits over it. */
  lemma RollbackOverAFailureAlone(a: Authority, p: Policy, epoch: string, cause: Cause)
    requires a.policy == Some(p) && p.enabled && !p.revoked && !cause.NoFailure?
    ensures
      var files := map[Failure := Proof(epoch, p.revision, p, false, false, false, cause)];
      var moves := [Witness(true, true), SourceGone(true, true), Again(true, true)];
      && ReadInventoryProof(files, epoch, p).Read?
      && Admits(Lifted(Released(a, p)), files, p, p.expiresAt - 1)
      && ReadInventoryProof(Continue(Start(epoch, p, files), moves).files, epoch, p).Invalid?
  {
    var files := map[Failure := Proof(epoch, p.revision, p, false, false, false, cause)];
    var w, g, t := Witness(true, true), SourceGone(true, true), Again(true, true);
    var b := Advance(Start(epoch, p, files), w);
    var c := Advance(b, g);
    var d := Advance(c, t);
    assert [w, g, t][1..] == [g, t] && [g, t][1..] == [t] && [t][1..] == [];
    assert Continue(b, [g, t]) == Continue(c, [t]) == Continue(d, []) == d;
    assert Before in b.published && Exit in c.published;
    assert After in d.files && Failure in d.files;
  }

  /** The same attempt with the same witnesses; only its failure may have been set. */
  predicate SameWitnesses(a: Option<Proof>, b: Option<Proof>) {
    && (a.Some? <==> b.Some?)
    && (a.Some? ==> b.value == a.value.(failure := b.value.failure))
  }

  /** What an orderly run has last seen: a released policy is behind the file or behind the clock. */
  predicate SeenInOrder(seen: Option<Policy>, clock: int, released: bool, p: Policy) {
    && seen.Some? && seen.value.revision >= p.revision
    && (seen.value.revision == p.revision ==> seen == Some(p))
    && (released ==> seen.value.revision > p.revision || clock >= p.expiresAt)
  }

  class InventoryService {
    const epoch: string
    var policy: Option<Policy>
    var desktop: Option<Policy>
    var custody: bool
    var custodyUnresolved: bool
    var unresolved: bool
    var stopping: bool
    var fenced: bool
    var replaceAllowed: bool
    var releaseRevision: nat
    var afterAttempted: bool
    var proof: Option<Proof>
    var published: set<Phase>
    var files: Directory
    /** The last policy file and the last clock seen, and whether every look followed the one before. */
    ghost var lastSeen: Option<Policy>
    ghost var clock: int
    ghost var orderly: bool
    /** The current attempt was started over phase files. */
    ghost var overLeftovers: bool

    function Now(): Authority
      reads this`policy, this`fenced, this`replaceAllowed, this`releaseRevision
    {
      Authority(policy, fenced, replaceAllowed, releaseRevision)
    }

    ghost predicate ProofOf(p: Policy)
      reads this`proof
    {
      proof.Some? && proof.value.fingerprint == p
    }

    /** The attempt has succeeded or failed; nothing more will be published for it. */
    ghost predicate Settled()
      reads this`proof, this`published
    {
      proof.Some? ==> After in published || !proof.value.failure.NoFailure?
    }

    /** Fenced, with the attempt settled and custody gone, or kept in doubt while the service stops. */
    ghost predicate Aborted()
      reads this
    {
      fenced && Settled() && (custody ==> unresolved && stopping)
    }

    ghost predicate InStep(sight: Sight)
      reads this`lastSeen, this`clock
    {
      Follows(lastSeen, sight.current) && (lastSeen.Some? ==> sight.now >= clock) && sight.again >= sight.now
    }

    /** What the proof in memory promises has been published, unless the attempt failed. */
    ghost predicate Witnessed()
      reads this`proof, this`published
    {
      proof.Some? && proof.value.failure.NoFailure? ==>
        && (proof.value.beforeOk ==> Before in published)
        && (proof.value.sourceExited ==> Exit in published)
        && (proof.value.afterOk ==> After in published)
    }

    ghost predicate AttemptKept()
      reads this`proof, this`published, this`files, this`afterAttempted, this`overLeftovers
    {
      (proof.None? ==> published == {}) &&
      (proof.Some? ==>
        var a := Attempt(proof.value, published, files);
        && proof.value.epoch == epoch
        && ProgressInv(a)
        && (!overLeftovers ==> AttemptInv(a))
        && (!afterAttempted ==> !proof.value.sourceExited && !proof.value.afterOk))
    }

    /** How the attempt and custody belong to the policy. */
    ghost predicate PolicyHeld()
      reads this`policy, this`custody, this`proof, this`published, this`files
    {
      && (policy.None? ==> proof.None? && !custody)
      && (policy.Some? ==>
            var p := policy.value;
            && p.enabled && !p.revoked
            && (proof.Some? ==> proof.value.fingerprint.revision <= p.revision)
            && (!ProofOf(p) ==> files == map[] && !custody && Settled()))
    }

    ghost predicate PolicyKept()
      reads this
    {
      && PolicyHeld()
      && (policy.Some? && replaceAllowed ==> !custody && Settled())
      && (policy.Some? && orderly ==> SeenInOrder(lastSeen, clock, replaceAllowed, policy.value))
    }

    /** A policy whose attempt has ended cannot be attempted again until it is released. */
    ghost predicate Fencing()
      reads this`policy, this`proof, this`custody, this`fenced, this`replaceAllowed, this`stopping, this`unresolved
    {
      policy.Some? && ProofOf(policy.value) && !custody ==> fenced || replaceAllowed || stopping || unresolved
    }

    ghost predicate Inv()
      reads this
    {
      && AttemptKept() && PolicyKept() && Witnessed()
      && (orderly ==> Fencing() && !overLeftovers)
      && (custody && (custodyUnresolved || (proof.Some? && !proof.value.failure.NoFailure?)) ==> unresolved && stopping)
    }

    /** At every moment between methods the operator's reader accepts the directory of an orderly run. */
    lemma DirectoryIsReadable()
      requires Inv() && proof.Some? && (orderly || !overLeftovers)
      ensures
        var reading := ReadInventoryProof(files, epoch, proof.value.fingerprint);
        && reading.Read?
        && (reading.pass <==> Before in files && Exit in files && After in files)
        && !(Failure in files && After in files)
    {
      AttemptsAreReadable(Attempt(proof.value, published, files));
    }

    /** Before its first attempt a policy's directory is empty, so the reader reports it incomplete. */
    lemma UnattemptedPolicyIsReadable()
      requires Inv() && policy.Some? && !ProofOf(policy.value)
      ensures ReadInventoryProof(files, epoch, policy.value) == Read(false, false, false, false)
    {
    }

    /**
     * Without custody, phase files are met exactly when the policy that was released
     * itself is shown again before its expiry, after a new source lifted its fence;
     * a look in step with the ones before never shows that.
     */
    lemma LeftoversAreMetExactlyByAReleasedPolicy(sight: Sight)
      requires Inv() && orderly && policy.Some? && !custody && !stopping && !unresolved
      requires sight.current.Some? && files != map[]
      ensures Admits(Now(), files, sight.current.value, sight.now)
              <==> (sight.current == policy && replaceAllowed && !fenced && ValidAt(policy.value, sight.now))
      ensures InStep(sight) ==> !Admits(Now(), files, sight.current.value, sight.now)
    {
    }

    /** The directory may hold files of earlier services. */
    constructor (epoch: string, found: Directory)
      ensures Inv() && this.epoch == epoch && policy.None? && proof.None? && files == found && orderly
    {
      this.epoch := epoch;
      policy, desktop, custody, custodyUnresolved, unresolved := None, None, false, false, false;
      stopping, fenced, replaceAllowed, releaseRevision, afterAttempted := false, false, false, 0, false;
      proof, published, files := None, {}, found;
      lastSeen, clock, orderly, overLeftovers := None, 0, true, false;
    }

    /** The policy file and the clock, as they happen to be now. */
    ghost method Look(sight: Sight)
      requires Inv()
      modifies this`lastSeen, this`clock, this`orderly
      ensures Inv() && orderly == (old(orderly) && old(InStep(sight)))
      ensures lastSeen == (if sight.current.Some? then sight.current else old(lastSeen)) && clock == sight.again
    {
      orderly := orderly && InStep(sight);
      lastSeen := if sight.current.Some? then sight.current else lastSeen;
      clock := sight.again;
    }

    /** `_publish_proof`; false is an exception. */
    method PublishProof() returns (ok: bool)
      requires proof.Some? && AttemptKept() && InOrder(Attempt(proof.value, published, files))
      modifies this`published, this`files
      ensures AttemptKept()
      ensures var phase := PhaseOf(proof.value);
        if ok && phase.Some? && phase.value !in old(published)
        then phase.value !in old(files) && published == old(published) + {phase.value}
             && files == old(files)[phase.value := proof.value]
        else published == old(published) && files == old(files)
      ensures ok ==> PhaseOf(proof.value).None? || PhaseOf(proof.value).value in published
    {
      var io: bool := *;
      PublishKeepsInv(Attempt(proof.value, published, files), io);
      var (a, done) := Publish(Attempt(proof.value, published, files), io);
      published, files := a.published, a.files;
      return done;
    }

    /** `_proof_failure`; false is an exception.  Afterwards the attempt is settled either way. */
    method ProofFailure(cause: Cause) returns (ok: bool)
      requires AttemptKept() && !cause.NoFailure?
      modifies this`proof, this`published, this`files
      ensures AttemptKept() && Settled()
      ensures SameWitnesses(old(proof), proof) && old(published) <= published <= old(published) + {Failure}
      ensures old(Settled()) ==> proof == old(proof) && published == old(published) && files == old(files) && ok
      ensures proof.Some? && proof.value.failure.NoFailure? ==> proof == old(proof) && published == old(published)
    {
      if proof.None? {
        return true;
      }
      var io: bool := *;
      FailKeepsInv(Attempt(proof.value, published, files), cause, io);
      var (a, done) := Fail(Attempt(proof.value, published, files), cause, io);
      proof, published, files := Some(a.proof), a.published, a.files;
      return done;
    }

    /** The same where a policy is held; what the attempt promises is then as published as it will be. */
    method Settle(cause: Cause) returns (ok: bool)
      requires AttemptKept() && PolicyHeld() && !cause.NoFailure?
      modifies this`proof, this`published, this`files
      ensures AttemptKept() && PolicyHeld() && Settled() && Witnessed() && (old(Settled()) ==> ok && SameAttempt())
      ensures SameWitnesses(old(proof), proof) && old(published) <= published <= old(published) + {Failure}
    {
      ok := ProofFailure(cause);
    }

    /** `_drop`: an unresolved custody is kept and stops the service. */
    method Drop()
      modifies this`custody, this`unresolved, this`stopping, this`desktop
      ensures custody == (old(custody) && custodyUnresolved)
      ensures custody ==> unresolved && stopping && desktop == old(desktop)
      ensures (old(unresolved) ==> unresolved) && (old(stopping) ==> stopping)
      ensures !custody ==> desktop.None? && unresolved == old(unresolved) && stopping == old(stopping)
    {
      if custody {
        if custodyUnresolved {
          unresolved, stopping := true, true;
          return;
        }
        custody := false;
      }
      desktop := None;
    }

    /** Everything but the seen looks is as before. */
    twostate predicate Unchanged()
      reads this
    {
      && Now() == old(Now()) && desktop == old(desktop) && custody == old(custody)
      && custodyUnresolved == old(custodyUnresolved) && unresolved == old(unresolved) && stopping == old(stopping)
      && afterAttempted == old(afterAttempted) && SameAttempt()
    }

    twostate predicate SameAttempt()
      reads this
    {
      && proof == old(proof) && published == old(published) && files == old(files) && overLeftovers == old(overLeftovers)
    }

    /** What a fenced and settled attempt still has to show. */
    lemma EndedIsInv()
      requires AttemptKept() && PolicyHeld() && Settled() && Witnessed() && fenced && (orderly ==> !overLeftovers)
      requires policy.Some? && replaceAllowed ==> !custody
      requires policy.Some? && orderly ==> SeenInOrder(lastSeen, clock, replaceAllowed, policy.value)
      requires custody ==> unresolved && stopping
      ensures Inv() && Aborted()
    {
    }

    /** Fence, drop and record the failure: the exception handler shared by the attempt's methods. */
    method Abort(cause: Cause) returns (ok: bool)
      requires AttemptKept() && PolicyKept() && (orderly ==> !overLeftovers) && !cause.NoFailure?
      modifies this`fenced, this`custody, this`unresolved, this`stopping, this`desktop, this`proof, this`published, this`files
      ensures Inv() && Aborted() && (old(Settled()) ==> ok)
      ensures custody == (old(custody) && custodyUnresolved)
      ensures SameWitnesses(old(proof), proof) && old(published) <= published <= old(published) + {Failure}
    {
      FenceAndDrop();
      ok := Settle(cause);
      EndedIsInv();
    }

    method FenceAndDrop()
      requires AttemptKept() && PolicyKept()
      modifies this`fenced, this`custody, this`unresolved, this`stopping, this`desktop
      ensures AttemptKept() && PolicyKept() && fenced
      ensures custody == (old(custody) && custodyUnresolved) && (custody ==> unresolved && stopping)
    {
      fenced := true;
      Drop();
    }

    /** Nothing to maintain: no policy, or a released one with nothing left open. */
    ghost predicate Idle()
      reads this
    {
      policy.None? || (replaceAllowed && !custody && desktop.None?)
    }

    ghost predicate Undisturbed(sight: Sight, peerOk: bool)
      reads this
    {
      policy.Some? && !Revokes(policy.value, sight) && sight.current == policy && ValidAt(policy.value, sight.again) && (desktop.Some? ==> peerOk)
    }

    /**
     * The policy was revoked, disabled or expired: everything is dropped and a
     * later policy may replace it.  A failure that cannot be published is caught
     * by the caller's own handler, which finds the attempt already settled.
     */
    method Release(current: Policy)
      requires Inv() && policy.Some? && lastSeen == Some(current)
      requires current.revoked || !current.enabled || (orderly ==> clock >= policy.value.expiresAt)
      modifies this`fenced, this`replaceAllowed, this`releaseRevision, this`custody, this`unresolved, this`stopping,
               this`desktop, this`proof, this`published, this`files
      ensures Inv() && Aborted()
      ensures Now() == Released(old(Now()), current).(replaceAllowed := !unresolved)
      ensures custody == (old(custody) && custodyUnresolved)
      ensures SameWitnesses(old(proof), proof) && old(published) <= published <= old(published) + {Failure}
    {
      DropAndMark(current);
      var ok := Settle(PolicyInactive);
      EndedIsInv();
    }

    /** Custody goes, and a later policy may replace this one unless custody is in doubt. */
    method DropAndMark(current: Policy)
      requires Inv() && policy.Some? && lastSeen == Some(current)
      requires current.revoked || !current.enabled || (orderly ==> clock >= policy.value.expiresAt)
      modifies this`fenced, this`replaceAllowed, this`releaseRevision, this`custody, this`unresolved, this`stopping, this`desktop
      ensures AttemptKept() && PolicyHeld() && fenced
      ensures (replaceAllowed ==> !custody) && (orderly ==> SeenInOrder(lastSeen, clock, replaceAllowed, policy.value))
      ensures custody == (old(custody) && custodyUnresolved) && (custody ==> unresolved && stopping)
      ensures Now() == Released(old(Now()), current).(replaceAllowed := !unresolved)
    {
      Drop();
      releaseRevision := NotedRevision(Now(), current);
      replaceAllowed := !unresolved;
      fenced := true;
    }

    /**
     * `_maintain`; true is an exception out of it.  A revoked or expired policy is
     * released, any other disturbance fences; either settles the attempt.
     */
    method Maintain(sight: Sight, peerOk: bool) returns (raised: bool)
      requires Inv()
      modifies this`fenced, this`replaceAllowed, this`releaseRevision, this`custody, this`unresolved, this`stopping,
               this`desktop, this`proof, this`published, this`files, this`lastSeen, this`clock, this`orderly
      ensures Inv() && (custody ==> old(custody))
      ensures SameWitnesses(old(proof), proof) && old(published) <= published <= old(published) + {Failure}
      ensures orderly == (old(orderly) && (old(Idle()) || old(InStep(sight))))
      ensures old(Idle()) || old(Undisturbed(sight, peerOk)) ==> Unchanged() && !raised
      ensures !old(Idle()) && !old(Undisturbed(sight, peerOk)) ==>
                Aborted() && custody == (old(custody) && custodyUnresolved)
      ensures !old(Idle()) && Revokes(policy.value, sight) ==>
                !raised && Now() == Released(old(Now()), sight.current.value).(replaceAllowed := !unresolved)
      ensures !old(Idle()) && !Revokes(policy.value, sight) && !old(Undisturbed(sight, peerOk)) ==>
                Now() == old(Now()).(fenced := true)
    {
      if policy.None? || (replaceAllowed && !custody && desktop.None?) {
        return false;
      }
      Look(sight);
      raised := MaintainPolicy(sight, peerOk);
    }

    /** `_maintain` after its look: a policy to release, or what else may disturb it. */
    method MaintainPolicy(sight: Sight, peerOk: bool) returns (raised: bool)
      requires Inv() && policy.Some? && clock == sight.again && (sight.current.Some? ==> lastSeen == sight.current)
      requires orderly ==> sight.again >= sight.now
      modifies this`fenced, this`replaceAllowed, this`releaseRevision, this`custody, this`unresolved, this`stopping,
               this`desktop, this`proof, this`published, this`files
      ensures Inv() && (custody ==> old(custody))
      ensures SameWitnesses(old(proof), proof) && old(published) <= published <= old(published) + {Failure}
      ensures old(Undisturbed(sight, peerOk)) ==> Unchanged() && !raised
      ensures !old(Undisturbed(sight, peerOk)) ==> Aborted() && custody == (old(custody) && custodyUnresolved)
      ensures Revokes(policy.value, sight) ==>
                !raised && Now() == Released(old(Now()), sight.current.value).(replaceAllowed := !unresolved)
      ensures !Revokes(policy.value, sight) && !old(Undisturbed(sight, peerOk)) ==> Now() == old(Now()).(fenced := true)
    {
      if Revokes(policy.value, sight) {
        Release(sight.current.value);
        return false;
      }
      raised := Disturb(sight, peerOk);
    }

    /** The rest of `_maintain`: a changed or invalid policy, or a lost desktop. */
    method Disturb(sight: Sight, peerOk: bool) returns (raised: bool)
      requires Inv() && policy.Some? && !Revokes(policy.value, sight)
      modifies this`fenced, this`custody, this`unresolved, this`stopping, this`desktop, this`proof, this`published, this`files
      ensures Inv() && (custody ==> old(custody))
      ensures SameWitnesses(old(proof), proof) && old(published) <= published <= old(published) + {Failure}
      ensures old(Undisturbed(sight, peerOk)) ==> Unchanged() && !raised
      ensures !old(Undisturbed(sight, peerOk)) ==>
                Aborted() && custody == (old(custody) && custodyUnresolved) && Now() == old(Now()).(fenced := true)
    {
      if sight.current != policy || !ValidAt(policy.value, sight.again) || (desktop.Some? && !peerOk) {
        var cause := if sight.current.None? then PolicyInactive else if sight.current != policy then PolicyChanged else PeerMismatch;
        var ok := Abort(cause);
        return !ok;
      }
      return false;
    }

    /**
     * `_authorize`: the policy in the file becomes the current one.  `peersOk` are
     * the checks of the two processes and of the desktop.
     */
    method Authorize(sight: Sight, ownIdentity: bool, peersOk: bool) returns (authorized: bool)
      requires Inv()
      modifies this`policy, this`fenced, this`replaceAllowed, this`desktop, this`lastSeen, this`clock, this`orderly
      ensures Inv()
      ensures authorized <==>
        && !stopping && !unresolved && sight.current.Some? && ownIdentity && peersOk
        && Admits(old(Now()), files, sight.current.value, sight.now)
        && (old(desktop).Some? ==> old(desktop) == sight.current)
      ensures authorized ==> Now() == Admitted(old(Now()), sight.current.value) && desktop == sight.current
      ensures !authorized ==> Now() == old(Now()) && desktop == old(desktop)
      ensures orderly == (old(orderly) && (stopping || unresolved || old(InStep(sight))))
      ensures authorized && orderly && !custody ==> files == map[] && !ProofOf(policy.value)
    {
      if stopping || unresolved {
        return false;
      }
      Look(sight);
      var current, now := sight.current, sight.now;
      if current.None? || !ValidAt(current.value, now) || !ownIdentity {
        return false;
      }
      if policy.Some? && current != policy {
        if !replaceAllowed || current.value.revision <= policy.value.revision || current.value.revision <= releaseRevision {
          return false;
        }
      } else if fenced {
        return false;
      }
      if (current != policy && files != map[]) || (desktop.Some? && desktop != current) || !peersOk {
        return false;
      }
      Install(current.value, now);
      return true;
    }

    /** An admitted policy takes the place of the one before. */
    method Install(current: Policy, now: int)
      requires Inv() && Admits(Now(), files, current, now)
      requires lastSeen == Some(current) && (orderly && policy == Some(current) ==> !replaceAllowed)
      modifies this`policy, this`fenced, this`replaceAllowed, this`desktop
      ensures Inv() && Now() == Admitted(old(Now()), current) && desktop == Some(current)
      ensures orderly && !custody && !stopping && !unresolved ==> files == map[] && !ProofOf(current)
    {
      desktop := Some(current);
      policy, fenced, replaceAllowed := Some(current), false, false;
    }

    /** What an exception handler may rely on. */
    ghost predicate Recoverable()
      reads this
    {
      AttemptKept() && PolicyKept() && (orderly ==> !overLeftovers)
    }

    /**
     * `_observe`: one fixed read under custody; a successful one changes nothing
     * but the looks.  An exchange that leaves its pipe in doubt raises.
     */
    method Observe() returns (observed: bool)
      requires Inv()
      modifies this
      ensures Recoverable() && policy == old(policy) && afterAttempted == old(afterAttempted) && overLeftovers == old(overLeftovers)
      ensures custody ==> old(custody)
      ensures SameWitnesses(old(proof), proof)
      ensures old(published) <= published
      ensures published <= old(published) + {Failure}
      ensures observed ==> Inv() && custody && !stopping && !custodyUnresolved && SameAttempt() && Now() == old(Now())
    {
      var sight: Sight, peerOk: bool := *, *;
      var raised := Maintain(sight, peerOk);
      if raised || !custody || stopping {
        return false;
      }
      assert SameAttempt();
      var answered: bool := *;
      if !answered {
        var inDoubt: bool := *;
        custodyUnresolved := custodyUnresolved || inDoubt;
        return false;
      }
      sight, peerOk := *, *;
      raised := Maintain(sight, peerOk);
      return !raised && custody;
    }

    /**
     * The `transfer` verb.  A registration over held custody changes nothing but the
     * looks; a new one ends with custody and exactly the `before` phase published.
     * A refusal leaves the attempt alone or ends aborted.
     */
    method Transfer(ownIdentity: bool) returns (registered: bool)
      requires Inv()
      modifies this
      ensures Inv() && (registered ==> custody && policy.Some?)
      ensures registered && old(custody) ==> SameAttempt()
      ensures registered && !old(custody) ==>
                ProofOf(policy.value) && published == {Before} && !fenced && !afterAttempted
                && proof.value == Start(epoch, policy.value, files).proof.(beforeOk := true)
      ensures !registered ==> (SameAttempt() && custody == old(custody)) || Aborted()
    {
      var sight: Sight, peersOk: bool := *, *;
      registered := Authorize(sight, ownIdentity, peersOk);
      if !registered || custody {
        return;
      }
      var admitted: bool := *;
      if !admitted {
        return false;
      }
      sight, peersOk := *, *;
      var again := Authorize(sight, ownIdentity, peersOk);
      if !again {
        var quiet := Abort(PolicyChanged);
        return false;
      }
      registered := OpenAttempt(ownIdentity);
    }

    /** `transfer` from a fresh authorization on: a new attempt with its custody, or an aborted one. */
    method OpenAttempt(ownIdentity: bool) returns (registered: bool)
      requires Inv() && policy.Some? && !custody && !replaceAllowed && !fenced
      requires orderly ==> files == map[]
      modifies this
      ensures Inv() && (registered ==> custody && policy.Some?)
      ensures registered ==>
                ProofOf(policy.value) && published == {Before} && !fenced && !afterAttempted
                && proof.value == Start(epoch, policy.value, files).proof.(beforeOk := true)
      ensures !registered ==> Aborted()
    {
      BeginAttempt();
      var connected: bool := *;
      if !connected {
        var quiet := Abort(NativeFailed);
        return false;
      }
      custody, custodyUnresolved := true, false;
      registered := BeforeWitness(ownIdentity);
      if !registered {
        var quiet := Abort(NativeFailed);
      }
    }

    /** The proof of a new attempt; phase files that are there stay there. */
    method BeginAttempt()
      requires Inv() && policy.Some? && !custody && !replaceAllowed
      requires orderly ==> files == map[]
      modifies this`proof, this`published, this`afterAttempted, this`overLeftovers
      ensures Recoverable() && Witnessed() && ProofOf(policy.value) && published == {} && !afterAttempted
      ensures proof.value == Start(epoch, policy.value, files).proof
      ensures overLeftovers <==> files != map[]
    {
      proof := Some(Start(epoch, policy.value, files).proof);
      afterAttempted, published := false, {};
      overLeftovers := files != map[];
    }

    /** From open custody to the published `before` phase; false is any exception on the way. */
    method BeforeWitness(ownIdentity: bool) returns (ok: bool)
      requires Inv() && policy.Some? && custody && !afterAttempted && !fenced
      requires published == {} && proof == Some(Start(epoch, policy.value, files).proof)
      modifies this
      ensures Recoverable() && (ok ==> Inv() && custody && !fenced && !afterAttempted && policy.Some?)
      ensures ok ==> published == {Before} && proof == Some(Start(epoch, policy.value, files).proof.(beforeOk := true))
    {
      var sight: Sight, peersOk: bool, sourceAlive: bool := *, *, *;
      ok := Authorize(sight, ownIdentity, peersOk);
      if !ok || !sourceAlive {
        return false;
      }
      ok := Observe();
      sourceAlive := *;
      if !ok || !sourceAlive {
        return false;
      }
      proof := Some(proof.value.(beforeOk := true));
      ok := PublishProof();
    }

    /**
     * `_after_source_exit`; true is an exception out of it.  It runs at most once in
     * an attempt; it ends with `exit` and then `after` published, or aborted.
     */
    method AfterSourceExit() returns (raised: bool)
      requires Inv()
      modifies this
      ensures Inv() && policy == old(policy)
      ensures !old(custody) || old(proof).None? || old(afterAttempted) || !old(proof).value.beforeOk ==> Unchanged() && !raised
      ensures !afterAttempted ==> Unchanged() && !raised
      ensures afterAttempted && !old(afterAttempted) ==>
                Aborted() || (old(published) == {Before} && published == {Before, Exit, After}
                              && proof == Some(old(proof).value.(sourceExited := true, afterOk := true)) && !raised)
      ensures After in published ==> Exit in published && Before in published
    {
      if !custody || proof.None? || afterAttempted || !proof.value.beforeOk {
        return false;
      }
      var exited: bool := *;
      var odd: bool := *;
      if !exited && !odd {
        return false;
      }
      afterAttempted := true;
      var ok := false;
      if !odd {
        ok := AfterWitness();
      }
      if !ok {
        var quiet := Abort(NativeFailed);
        return !quiet;
      }
      return false;
    }

    /** The proven exit of the source is published before anything else is read. */
    method ExitWitness() returns (ok: bool)
      requires Inv() && policy.Some? && ProofOf(policy.value) && custody && afterAttempted
      requires proof.value.beforeOk && !proof.value.sourceExited && !proof.value.afterOk
      modifies this`proof, this`published, this`files
      ensures Recoverable()
      ensures ok ==> Inv() && proof == Some(old(proof).value.(sourceExited := true))
      ensures ok && proof.value.failure.NoFailure? ==> old(published) == {Before} && published == {Before, Exit}
    {
      assert proof.value.failure.NoFailure? ==> forall phase :: phase in published <==> phase == Before;
      proof := Some(proof.value.(sourceExited := true));
      ok := PublishProof();
    }

    /** From the proven exit of the source to the published `after` phase. */
    method AfterWitness() returns (ok: bool)
      requires Inv() && policy.Some? && ProofOf(policy.value) && custody && afterAttempted
      requires proof.value.beforeOk && !proof.value.sourceExited && !proof.value.afterOk
      modifies this
      ensures Recoverable() && policy == old(policy) && afterAttempted
      ensures ok ==> Inv() && old(published) == {Before} && published == {Before, Exit, After}
      ensures ok ==> proof == Some(old(proof).value.(sourceExited := true, afterOk := true))
    {
      ok := ExitWitness();
      if !ok {
        return;
      }
      label Exited:
      var sight: Sight, peerOk: bool := *, *;
      var raised := Maintain(sight, peerOk);
      if raised || stopping || !custody {
        return false;
      }
      assert proof == old@Exited(proof) && published == {Before, Exit};
      ok := Observe();
      if !ok {
        return;
      }
      proof := Some(proof.value.(afterOk := true));
      ok := PublishProof();
    }

    /** A new source process connects: after a release it lifts the fence. */
    method NewSource()
      requires Inv()
      modifies this`fenced
      ensures Inv() && Now() == Lifted(old(Now()))
    {
      if replaceAllowed {
        fenced := false;
      }
    }

    /** The outer handler of the service loop, and the final drop. */
    method Terminate()
      requires Inv()
      modifies this
      ensures Inv() && stopping && Settled() && (custody ==> unresolved)
      ensures old(Settled()) ==> SameAttempt()
    {
      stopping := true;
      var ok := Settle(NativeFailed);
      Drop();
    }

    /** The exact-owned clean-up of phase files, before, during or after an attempt. */
    method OperatorRemoves(phases: set<Phase>)
      requires Inv()
      modifies this`files
      ensures Inv() && files.Keys == old(files).Keys - phases
    {
      files := files - phases;
    }
  }
}
