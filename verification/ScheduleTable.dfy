/**
 * The process-wide schedule tables of the Codex wake workers: who is scheduled
 * for a target, and which late worker may still touch the entry.
 */
module ScheduleTable {
  import opened Wrappers

  /** A registry, a session and a container. */
  type Target = nat

  datatype Holder = Holder(target: Target, generation: nat, delivery: nat)

  datatype Table = Table(generations: map<Target, nat>, deliveries: map<Target, nat>, attempts: map<Target, nat>)

  datatype Op =
    | Schedule(holder: Holder, attempt: nat)
    | Clear(holder: Holder)
    | Retarget(previous: Holder, current: Holder, live: bool, carried: Option<nat>)

  predicate Scheduled(t: Table, h: Holder) {
    h.target in t.generations && t.generations[h.target] == h.generation
    && h.target in t.deliveries && t.deliveries[h.target] == h.delivery
  }

  function Popped(t: Table, target: Target): Table {
    Table(t.generations - {target}, t.deliveries - {target}, t.attempts - {target})
  }

  predicate FreeFor(t: Table, h: Holder) {
    (h.target in t.generations ==> t.generations[h.target] == h.generation)
    && (h.target in t.deliveries ==> t.deliveries[h.target] == h.delivery)
  }

  /** A holder that is already scheduled is refused; a clear needs its own generation; a retarget needs both. */
  function Step(t: Table, op: Op): Table {
    match op
    case Schedule(h, attempt) =>
      if Scheduled(t, h) then t
      else Table(t.generations[h.target := h.generation], t.deliveries[h.target := h.delivery], t.attempts[h.target := attempt])
    case Clear(h) =>
      if h.target in t.generations && t.generations[h.target] == h.generation then Popped(t, h.target) else t
    case Retarget(previous, current, live, attempt) =>
      var u := if Scheduled(t, previous) then Popped(t, previous.target) else t;
      if live && FreeFor(u, current)
      then Table(u.generations[current.target := current.generation], u.deliveries[current.target := current.delivery],
                 if attempt.Some? then u.attempts[current.target := attempt.value] else u.attempts)
      else u
  }

  function Run(t: Table, ops: seq<Op>): Table
    decreases |ops|
  {
    if ops == [] then t else Run(Step(t, ops[0]), ops[1..])
  }

  /** Generations and deliveries are kept for the same targets, and attempts for some of them. */
  ghost predicate Aligned(t: Table) {
    t.generations.Keys == t.deliveries.Keys && t.attempts.Keys <= t.generations.Keys
  }

  lemma {:induction false} RunsStayAligned(t: Table, ops: seq<Op>)
    requires Aligned(t)
    ensures Aligned(Run(t, ops))
    decreases |ops|
  {
    if ops != [] {
      assert Aligned(Step(t, ops[0]));
      RunsStayAligned(Step(t, ops[0]), ops[1..]);
    }
  }

  /** May this operation change the entry of `h`? */
  predicate Concerns(op: Op, h: Holder) {
    match op
    case Schedule(other, _) => other.target == h.target
    case Clear(other) => other.target == h.target && other.generation == h.generation
    case Retarget(previous, _, _, _) => previous.target == h.target && previous.generation == h.generation && previous.delivery == h.delivery
  }

  /**
   * A scheduled entry outlives every clear and retarget of other generations, even
   * for the same target: a late worker cannot drop the schedule of a newer one.
   */
  lemma {:induction false} OnlyItsOwnerDropsAnEntry(t: Table, ops: seq<Op>, h: Holder)
    requires Scheduled(t, h) && forall op :: op in ops ==> !Concerns(op, h)
    ensures Scheduled(Run(t, ops), h)
    decreases |ops|
  {
    if ops != [] {
      assert ops[0] in ops && !Concerns(ops[0], h);
      assert Scheduled(Step(t, ops[0]), h);
      OnlyItsOwnerDropsAnEntry(Step(t, ops[0]), ops[1..], h);
    }
  }

  /** Clearing what was just scheduled leaves the target free for any later holder. */
  lemma ClearEndsASchedule(t: Table, h: Holder, attempt: nat, next: Holder)
    requires Aligned(t) && next.target == h.target
    ensures var u := Step(Step(t, Schedule(h, attempt)), Clear(h));
      h.target !in u.generations && h.target !in u.deliveries && FreeFor(u, next)
  {
  }

  /** A retarget of a live reservation moves its entry, unless the new target belongs to another. */
  lemma RetargetMovesExactlyIntoAFreeTarget(t: Table, previous: Holder, current: Holder, attempt: Option<nat>)
    requires Aligned(t) && Scheduled(t, previous) && previous.target != current.target
    ensures var u := Step(t, Retarget(previous, current, true, attempt));
      && previous.target !in u.generations
      && (Scheduled(u, current) <==> (current.target in t.generations ==> Scheduled(t, current)))
  {
  }

  class Schedules {
    var generations: map<Target, nat>
    var deliveries: map<Target, nat>
    var attempts: map<Target, nat>

    function Tables(): Table
      reads this
    {
      Table(generations, deliveries, attempts)
    }

    ghost predicate Valid()
      reads this
    {
      Aligned(Tables())
    }

    constructor ()
      ensures Valid() && Tables() == Table(map[], map[], map[])
    {
      generations, deliveries, attempts := map[], map[], map[];
    }

    /** The first region of `_schedule_reserved_codex_relay_wake`. */
    method Enter(h: Holder, attempt: nat) returns (admitted: bool)
      requires Valid()
      modifies this
      ensures Valid() && Tables() == Step(old(Tables()), Schedule(h, attempt))
      ensures admitted <==> !Scheduled(old(Tables()), h)
      ensures Scheduled(Tables(), h)
    {
      if h.target in generations && generations[h.target] == h.generation
         && h.target in deliveries && deliveries[h.target] == h.delivery {
        return false;
      }
      deliveries := deliveries[h.target := h.delivery];
      generations := generations[h.target := h.generation];
      attempts := attempts[h.target := attempt];
      return true;
    }

    method Pop(target: Target)
      modifies this
      ensures Tables() == Popped(old(Tables()), target)
    {
      generations := generations - {target};
      deliveries := deliveries - {target};
      attempts := attempts - {target};
    }

    /** `_clear_schedule`. */
    method ClearSchedule(h: Holder)
      requires Valid()
      modifies this
      ensures Valid() && Tables() == Step(old(Tables()), Clear(h))
      ensures forall other :: Scheduled(old(Tables()), other) && (other.target != h.target || other.generation != h.generation) ==>
                Scheduled(Tables(), other)
    {
      if h.target in generations && generations[h.target] == h.generation { Pop(h.target); }
    }

    /** `_retarget_schedule`; `live` is the registry's word on the current reservation. */
    method RetargetSchedule(previous: Holder, current: Holder, live: bool, carried: Option<nat>)
      requires Valid()
      modifies this
      ensures Valid() && Tables() == Step(old(Tables()), Retarget(previous, current, live, carried))
    {
      if previous.target in generations && generations[previous.target] == previous.generation
         && previous.target in deliveries && deliveries[previous.target] == previous.delivery {
        Pop(previous.target);
      }
      if live && (current.target !in generations || generations[current.target] == current.generation)
         && (current.target !in deliveries || deliveries[current.target] == current.delivery) {
        generations := generations[current.target := current.generation];
        deliveries := deliveries[current.target := current.delivery];
        if carried.Some? { attempts := attempts[current.target := carried.value]; }
      }
    }
  }
}
