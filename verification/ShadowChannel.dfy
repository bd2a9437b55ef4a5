/**
 * The shadow channel's grant: one handle with an expiry and a renewable lease,
 * and a strictly increasing request sequence per connected peer.
 */
module ShadowChannel {
  import opened Wrappers

  const GRANT_SECONDS: real := 300.0
  const LEASE_SECONDS: real := 15.0
  const RENEW_SPACING: real := 5.0
  const MAX_SEQUENCE: int := 0x7FFF_FFFF

  /** What the service was started with. */
  datatype Pair = Pair(epoch: string, revision: int, controller: string)

  datatype Verb = Enroll | Renew | Status | Close

  /** A parsed request; `exactFields` says that it has the fields of its verb and no others. */
  datatype Request = Request(
    verb: Option<Verb>,
    exactFields: bool,
    version: int,
    epoch: string,
    revision: int,
    sequence: int,
    threadRef: string,
    refsAreText: bool,
    handle: string)

  /** Clock readings, the peer and store answers, and the freshly drawn handle. */
  datatype Surroundings = Surroundings(
    before: real,
    after: real,
    policyLeft: real,
    stopped: bool,
    peerAlive: bool,
    snapshot: Option<string>,
    freshHandle: string)

  /** `enrolledAt` and `renewals` are kept for the statements below; the service does not need them. */
  datatype Grant = Grant(handle: string, expiry: real, lease: real, renewed: real, enrolledAt: real, renewals: nat)

  datatype Channel = Channel(grant: Option<Grant>, lastSequence: int)

  datatype Answer =
    | Reply(status: string, reason: string, ttl: int, handle: Option<string>)
    | Refused(category: string)

  function Min(a: real, b: real): real { if b < a then b else a }

  function Live(g: Grant): real { Min(g.expiry, g.lease) }

  /** `max(0, min(int(ttl), 300))`, with `int` truncating towards zero. */
  function PublicTtl(ttl: real): (t: int)
    ensures 0 <= t <= 300
    ensures ttl >= 0.0 ==> t as real <= ttl
  {
    var whole := if ttl >= 0.0 then ttl.Floor else -((-ttl).Floor);
    var capped := if whole < 300 then whole else 300;
    if capped > 0 then capped else 0
  }

  predicate Fresh(pair: Pair, s: Channel, r: Request) {
    && r.version == 1 && r.epoch == pair.epoch && r.revision == pair.revision
    && 1 <= r.sequence <= MAX_SEQUENCE && r.sequence > s.lastSequence
  }

  /** A lapsed grant is dropped before anything else is looked at. */
  function Lapse(s: Channel, now: real): Channel {
    if s.grant.Some? && (now >= s.grant.value.expiry || now >= s.grant.value.lease)
    then s.(grant := None) else s
  }

  function NewGrant(e: Surroundings): Grant {
    var duration := Min(e.policyLeft, GRANT_SECONDS);
    Grant(e.freshHandle, e.after + duration, e.after + Min(duration, LEASE_SECONDS), e.after, e.after, 0)
  }

  function Observation(category: string): (string, string) {
    var status := if category in {"eligible", "held", "inactive", "unavailable"} then category else "unavailable";
    (status, if status == "held" then "evidence-limited"
             else if status == "unavailable" then "evidence-unavailable" else "observed")
  }

  /** `_process`: the new channel and the answer. */
  function Process(pair: Pair, s: Channel, r: Request, e: Surroundings): (Channel, Answer) {
    if r.verb.None? || !r.exactFields then (s, Refused("invalid-message"))
    else if !Fresh(pair, s, r) then (s, Refused("stale-request"))
    else if !e.peerAlive then (s, Refused("peer-gone"))
    else if e.stopped then (s, Refused("stopped"))
    else
      var c := Lapse(s, e.before);
      if r.verb.value.Enroll? then EnrollRequest(pair, c, r, e)
      else if c.grant.None? || r.handle != c.grant.value.handle then (c, Refused("grant-inactive"))
      else if r.verb.value.Close? then
        (Channel(None, r.sequence), Reply("inactive", "closed", 0, None))
      else ObserveRequest(c, r, e)
  }

  function EnrollRequest(pair: Pair, c: Channel, r: Request, e: Surroundings): (Channel, Answer) {
    if !r.refsAreText || r.threadRef != pair.controller then (c, Refused("controller-mismatch"))
    else if e.snapshot.None? then (c, Refused("endpoint-unavailable"))
    else if c.grant.Some? && e.after >= Live(c.grant.value) then (c, Refused("grant-inactive"))
    else if c.grant.None? && Min(e.policyLeft, GRANT_SECONDS) <= 0.0 then (c, Refused("policy-inactive"))
    else
      var g := if c.grant.Some? then c.grant.value else NewGrant(e);
      (Channel(Some(g), r.sequence), Reply("enrolled", "ok", PublicTtl(g.expiry - e.after), Some(g.handle)))
  }

  function ObserveRequest(c: Channel, r: Request, e: Surroundings): (Channel, Answer)
    requires c.grant.Some? && r.verb.Some?
  {
    var g := c.grant.value;
    if e.snapshot.None? then (c, Refused("endpoint-unavailable"))
    else if e.after >= Live(g) then (c, Refused("grant-inactive"))
    else if r.verb.value.Renew? && e.after - g.renewed < RENEW_SPACING then (c, Refused("renew-too-soon"))
    else
      var h := if r.verb.value.Renew?
               then g.(renewed := e.after, lease := Min(e.after + LEASE_SECONDS, g.expiry), renewals := g.renewals + 1)
               else g;
      var seen := Observation(e.snapshot.value);
      (Channel(Some(h), r.sequence), Reply(seen.0, seen.1, PublicTtl(g.expiry - e.after), None))
  }

  // ---- Runs ----

  datatype Event = Connect | Exchange(request: Request, around: Surroundings)

  /** A run keeps the latest clock reading and, per peer, the accepted sequence numbers. */
  datatype Run = Run(channel: Channel, clock: real, accepted: seq<int>)

  predicate ClockMoves(run: Run, e: Event) {
    e.Exchange? ==> run.clock <= e.around.before <= e.around.after
  }

  function Next(pair: Pair, run: Run, e: Event): Run {
    match e
    case Connect => Run(Channel(None, 0), run.clock, [])
    case Exchange(r, around) =>
      var (c, answer) := Process(pair, run.channel, r, around);
      Run(c, around.after, if answer.Reply? then run.accepted + [r.sequence] else run.accepted)
  }

  function Serve(pair: Pair, run: Run, events: seq<Event>): Run
    decreases |events|
  {
    if events == [] then run else Serve(pair, Next(pair, run, events[0]), events[1..])
  }

  /** The monotonic clock never runs backwards over the run. */
  predicate Monotonic(pair: Pair, run: Run, events: seq<Event>)
    decreases |events|
  {
    events != [] ==> ClockMoves(run, events[0]) && Monotonic(pair, Next(pair, run, events[0]), events[1..])
  }

  predicate GrantInv(g: Grant, clock: real) {
    && g.enrolledAt <= g.renewed <= clock
    && g.lease <= g.expiry <= g.enrolledAt + GRANT_SECONDS
    && g.lease <= g.renewed + LEASE_SECONDS
    && g.renewed < g.expiry
    && g.enrolledAt + RENEW_SPACING * g.renewals as real <= g.renewed
  }

  ghost predicate Increasing(s: seq<int>) {
    forall i, j :: 0 <= i < j < |s| ==> s[i] < s[j]
  }

  ghost predicate Inv(run: Run) {
    && (run.channel.grant.Some? ==> GrantInv(run.channel.grant.value, run.clock))
    && 0 <= run.channel.lastSequence
    && run.channel.lastSequence == (if run.accepted == [] then 0 else run.accepted[|run.accepted| - 1])
    && Increasing(run.accepted)
  }

  lemma NextKeepsInv(pair: Pair, run: Run, e: Event)
    requires Inv(run) && ClockMoves(run, e)
    ensures Inv(Next(pair, run, e))
  {
    if e.Exchange? {
      ProcessKeepsGrant(pair, run.channel, e.request, e.around);
      ProcessOrdersSequences(pair, run.channel, e.request, e.around);
    }
  }

  lemma ProcessKeepsGrant(pair: Pair, s: Channel, r: Request, e: Surroundings)
    requires e.before <= e.after && (s.grant.Some? ==> GrantInv(s.grant.value, e.before))
    ensures var c := Process(pair, s, r, e).0; c.grant.Some? ==> GrantInv(c.grant.value, e.after)
  {
  }

  /** A reply takes a greater sequence number than any before; a refusal takes none. */
  lemma ProcessOrdersSequences(pair: Pair, s: Channel, r: Request, e: Surroundings)
    requires 0 <= s.lastSequence
    ensures var (c, answer) := Process(pair, s, r, e);
      if answer.Reply? then c.lastSequence == r.sequence > s.lastSequence else c.lastSequence == s.lastSequence
  {
  }

  lemma {:induction false} ServeKeepsInv(pair: Pair, run: Run, events: seq<Event>)
    requires Inv(run) && Monotonic(pair, run, events)
    ensures Inv(Serve(pair, run, events))
    decreases |events|
  {
    if events != [] {
      NextKeepsInv(pair, run, events[0]);
      ServeKeepsInv(pair, Next(pair, run, events[0]), events[1..]);
    }
  }

  /**
   * In every run the lease stays within the expiry, the expiry within 300 seconds
   * of enrollment, one grant is renewed at most 59 times, and the sequence
   * numbers accepted from one peer strictly increase.
   */
  lemma AuthorityIsBounded(pair: Pair, start: real, events: seq<Event>)
    requires Monotonic(pair, Run(Channel(None, 0), start, []), events)
    ensures
      var run := Serve(pair, Run(Channel(None, 0), start, []), events);
      && (run.channel.grant.Some? ==>
            var g := run.channel.grant.value;
            g.lease <= g.expiry <= g.enrolledAt + 300.0 && g.renewals <= 59)
      && Increasing(run.accepted)
  {
    ServeKeepsInv(pair, Run(Channel(None, 0), start, []), events);
    var run := Serve(pair, Run(Channel(None, 0), start, []), events);
    if run.channel.grant.Some? {
      var g := run.channel.grant.value;
      assert 5.0 * g.renewals as real < 300.0;
    }
  }

  /**
   * One exchange never moves the expiry of a grant that survives it; only a
   * renewal moves its lease, at least five seconds after the previous one and
   * never past the expiry; re-enrolling hands out the same grant unchanged.
   */
  lemma GrantsAreNeverExtended(pair: Pair, s: Channel, r: Request, e: Surroundings)
    requires s.grant.Some? && Lapse(s, e.before).grant.Some?
    ensures
      var g := s.grant.value;
      var (c, answer) := Process(pair, s, r, e);
      && (c.grant.Some? ==> c.grant.value.expiry == g.expiry && c.grant.value.handle == g.handle)
      && (c.grant.Some? && c.grant.value.lease != g.lease ==>
            r.verb == Some(Renew) && e.after >= g.renewed + RENEW_SPACING && c.grant.value.lease <= g.expiry)
      && (r.verb == Some(Enroll) ==>
            c.grant == s.grant && (answer.Reply? ==> answer.handle == Some(g.handle)))
  {
  }

  /** Every answer given under a grant was given before its lease and expiry ran out, to its holder. */
  lemma RepliesNeedALiveGrant(pair: Pair, s: Channel, r: Request, e: Surroundings)
    requires e.before <= e.after && Process(pair, s, r, e).1.Reply? && r.verb != Some(Enroll)
    ensures
      && s.grant.Some? && r.handle == s.grant.value.handle
      && e.before < Live(s.grant.value)
      && (r.verb != Some(Close) ==> e.after < Live(s.grant.value))
      && (r.verb == Some(Close) ==> Process(pair, s, r, e).0.grant.None?)
  {
  }

  // ---- The bound of 59 is reached ----

  function RenewAt(pair: Pair, k: nat): Event {
    Exchange(Request(Some(Renew), true, 1, pair.epoch, pair.revision, 2 + k, "", true, "h"),
             Surroundings(5.0 * (k + 1) as real, 5.0 * (k + 1) as real, 300.0, false, true, Some("eligible"), ""))
  }

  function RenewTimes(pair: Pair, k: nat): Run {
    if k == 0 then
      Next(pair, Run(Channel(None, 0), 0.0, []),
           Exchange(Request(Some(Enroll), true, 1, pair.epoch, pair.revision, 1, pair.controller, true, ""),
                    Surroundings(0.0, 0.0, 300.0, false, true, Some("eligible"), "h")))
    else Next(pair, RenewTimes(pair, k - 1), RenewAt(pair, k - 1))
  }

  /** Renewing every five seconds, a grant of 300 seconds is renewed 59 times. */
  lemma {:induction false} FiftyNineRenewalsHappen(pair: Pair, k: nat)
    requires k <= 59
    ensures
      var run := RenewTimes(pair, k);
      && run.channel.grant.Some? && run.channel.lastSequence == 1 + k && run.clock == 5.0 * k as real
      && run.channel.grant.value == Grant("h", 300.0, Min(5.0 * k as real + 15.0, 300.0), 5.0 * k as real, 0.0, k)
  {
    if k > 0 { FiftyNineRenewalsHappen(pair, k - 1); }
  }

  /** The service object: `grant` and `lastSequence` are reassigned by each exchange. */
  class ShadowService {
    const pair: Pair
    var grant: Option<Grant>
    var lastSequence: int

    ghost function Now(): Channel
      reads this
    {
      Channel(grant, lastSequence)
    }

    constructor (pair: Pair)
      ensures this.pair == pair && Now() == Channel(None, 0)
    {
      this.pair, this.grant, this.lastSequence := pair, None, 0;
    }

    /** A new peer starts without a grant and with sequence zero. */
    method Connected()
      modifies this
      ensures Now() == Channel(None, 0)
    {
      grant, lastSequence := None, 0;
    }

    method ProcessRequest(r: Request, e: Surroundings) returns (answer: Answer)
      modifies this
      ensures (Now(), answer) == Process(pair, old(Now()), r, e)
    {
      if r.verb.None? || !r.exactFields {
        return Refused("invalid-message");
      }
      if r.version != 1 || r.epoch != pair.epoch || r.revision != pair.revision
         || !(1 <= r.sequence <= MAX_SEQUENCE) || r.sequence <= lastSequence {
        return Refused("stale-request");
      }
      if !e.peerAlive {
        return Refused("peer-gone");
      }
      if e.stopped {
        return Refused("stopped");
      }
      if grant.Some? && (e.before >= grant.value.expiry || e.before >= grant.value.lease) {
        grant := None;
      }
      if r.verb.value.Enroll? {
        if !r.refsAreText || r.threadRef != pair.controller {
          return Refused("controller-mismatch");
        }
        if e.snapshot.None? {
          return Refused("endpoint-unavailable");
        }
        if grant.Some? && e.after >= Live(grant.value) {
          return Refused("grant-inactive");
        }
        if grant.None? {
          if Min(e.policyLeft, GRANT_SECONDS) <= 0.0 {
            return Refused("policy-inactive");
          }
          grant := Some(NewGrant(e));
        }
        answer := Reply("enrolled", "ok", PublicTtl(grant.value.expiry - e.after), Some(grant.value.handle));
      } else if grant.None? || r.handle != grant.value.handle {
        return Refused("grant-inactive");
      } else if r.verb.value.Close? {
        grant := None;
        answer := Reply("inactive", "closed", 0, None);
      } else {
        if e.snapshot.None? {
          return Refused("endpoint-unavailable");
        }
        var g := grant.value;
        if e.after >= Live(g) {
          return Refused("grant-inactive");
        }
        if r.verb.value.Renew? {
          if e.after - g.renewed < RENEW_SPACING {
            return Refused("renew-too-soon");
          }
          g := g.(renewed := e.after, renewals := g.renewals + 1);
          g := g.(lease := Min(e.after + LEASE_SECONDS, g.expiry));
          grant := Some(g);
        }
        var seen := Observation(e.snapshot.value);
        answer := Reply(seen.0, seen.1, PublicTtl(g.expiry - e.after), None);
      }
      lastSequence := r.sequence;
    }
  }
}
