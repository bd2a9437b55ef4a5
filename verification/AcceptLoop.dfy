/**
 * The self-rescheduling accept callback of a listening socket, and the accept
 * primitive that owns the peer socket of a failed or cancelled accept.
 *
 * Completions, cancellations, a stopped server, a closed listener and a closed
 * event loop may come at any point between two callbacks.
 */
module AcceptLoop {
  import opened Wrappers

  type Peer = nat

  /** Resource exhaustion is fatal for the listener; every other error number is transient. */
  datatype Errno = Exhausted | Transient

  datatype Outcome = Connected | Failed(errno: Errno) | Cancelled

  /** What a call inside the callback raised. */
  datatype Raise = Nothing | OsError(errno: Errno) | CancelledError | OtherError

  datatype Progress = Pending | Done(outcome: Outcome, released: bool)

  datatype Future = Future(peer: Peer, progress: Progress)

  /** `made` says whether the peer socket existed when setting the accept up failed. */
  datatype AcceptAnswer = Accepts | Refuses(errno: Errno, made: bool) | Breaks(made: bool)

  /**
   * `starts` counts scheduled first calls, `futures` the accepts whose callback has
   * not run; `registered` is the table entry that stopping the server cancels.
   * `served` are the peers handed to a connection, `escaped` whether an exception
   * left the callback.
   */
  datatype State = State(
    listening: bool,
    loopClosed: bool,
    starts: nat,
    futures: seq<Future>,
    registered: Option<Peer>,
    sockets: nat,
    closedPeers: set<Peer>,
    served: set<Peer>,
    escaped: bool)

  const INITIAL := State(true, false, 1, [], None, 0, {}, {}, false)

  // ---- The accept primitive ----

  datatype Accepted = Accepted(state: State, raise: Raise)

  /** A peer socket is made for each accept and closed when setting it up fails. */
  function Accept(s: State, a: AcceptAnswer): Accepted {
    if a.Accepts? && s.listening then
      Accepted(s.(sockets := s.sockets + 1, futures := s.futures + [Future(s.sockets, Pending)], registered := Some(s.sockets)), Nothing)
    else
      var made := a.Accepts? || a.made;
      var t := if made then s.(sockets := s.sockets + 1, closedPeers := s.closedPeers + {s.sockets}) else s;
      Accepted(t, if a.Breaks? then OtherError else if a.Refuses? then OsError(a.errno) else OsError(Transient))
  }

  // ---- The callback ----

  /** The exception clauses of the callback. */
  function Handle(s: State, raise: Raise, again: AcceptAnswer): State {
    match raise
    case Nothing => s
    case CancelledError => s.(listening := false)
    case OtherError => s.(escaped := true)
    case OsError(errno) =>
      if !s.listening then s
      else if errno.Exhausted? then s.(listening := false)
      else
        var second := Accept(s, again);
        match second.raise
        case Nothing => second.state
        case OsError(_) => second.state.(listening := false)
        case _ => second.state.(escaped := true)
  }

  function ResultOf(outcome: Option<Outcome>, handling: Raise): Raise {
    match outcome
    case None => Nothing
    case Some(Connected) => handling
    case Some(Failed(errno)) => OsError(errno)
    case Some(Cancelled) => CancelledError
  }

  /** `loop(f)`: serve a connection, then accept again. */
  function Callback(s: State, outcome: Option<Outcome>, handling: Raise, first: AcceptAnswer, again: AcceptAnswer): State {
    var raised := ResultOf(outcome, handling);
    if !raised.Nothing? then Handle(s, raised, again)
    else if s.loopClosed then s
    else
      var next := Accept(s, first);
      Handle(next.state, next.raise, again)
  }

  // ---- Events ----

  datatype Event =
    | FirstCall(first: AcceptAnswer, again: AcceptAnswer)
    | Complete(i: nat, outcome: Outcome)
    | Release(i: nat)
    | RunCallback(i: nat, stops: bool, handling: Raise, first: AcceptAnswer, again: AcceptAnswer)
    | StopServing
    | CloseListener
    | CloseLoop

  predicate Enabled(s: State, e: Event) {
    match e
    case FirstCall(_, _) => s.starts > 0 && !s.loopClosed
    case Complete(i, _) => i < |s.futures| && s.futures[i].progress.Pending?
    case Release(i) => i < |s.futures| && s.futures[i].progress.Done? && !s.futures[i].progress.released && !s.loopClosed
    case RunCallback(i, _, _, _, _) => i < |s.futures| && s.futures[i].progress.Done? && s.futures[i].progress.released && !s.loopClosed
    case _ => true
  }

  /** Cancelling a future that is already done has no effect. */
  function CancelRegistered(futures: seq<Future>, registered: Option<Peer>): seq<Future> {
    seq(|futures|, i requires 0 <= i < |futures| =>
      if registered == Some(futures[i].peer) && futures[i].progress.Pending?
      then futures[i].(progress := Done(Cancelled, false)) else futures[i])
  }

  function Without(futures: seq<Future>, i: nat): seq<Future>
    requires i < |futures|
  {
    futures[..i] + futures[i + 1..]
  }

  function Step(s: State, e: Event): State {
    if !Enabled(s, e) then s else
    match e
    case FirstCall(first, again) => Callback(s.(starts := s.starts - 1), None, Nothing, first, again)
    case Complete(i, outcome) => s.(futures := s.futures[i := s.futures[i].(progress := Done(outcome, false))])
    case Release(i) =>
      var f := s.futures[i];
      s.(futures := s.futures[i := f.(progress := Done(f.progress.outcome, true))],
        closedPeers := if f.progress.outcome.Connected? then s.closedPeers else s.closedPeers + {f.peer})
    case RunCallback(i, stops, handling, first, again) =>
      var f := s.futures[i];
      var t := s.(futures := Without(s.futures, i),
                  listening := s.listening && !stops,
                  served := if f.progress.outcome.Connected? then s.served + {f.peer} else s.served);
      Callback(t, Some(f.progress.outcome), handling, first, again)
    case StopServing => s.(futures := CancelRegistered(s.futures, s.registered), registered := None, listening := false)
    case CloseListener => s.(listening := false)
    case CloseLoop => s.(loopClosed := true)
  }

  function Run(s: State, events: seq<Event>): State
    decreases |events|
  {
    if events == [] then s else Run(Step(s, events[0]), events[1..])
  }

  // ---- What every run keeps ----

  function Tokens(s: State): nat {
    s.starts + |s.futures|
  }

  ghost predicate TokenInv(s: State) {
    && Tokens(s) <= 1
    && (s.escaped ==> Tokens(s) == 0)
    && (s.listening && !s.loopClosed && !s.escaped ==> Tokens(s) == 1)
    && (forall i :: 0 <= i < |s.futures| && s.futures[i].progress.Pending? && s.listening ==> s.registered == Some(s.futures[i].peer))
  }

  predicate InFlight(s: State, p: Peer) {
    exists i :: 0 <= i < |s.futures| && s.futures[i].peer == p
  }

  predicate ReleasedFailure(f: Future) {
    f.progress.Done? && f.progress.released && !f.progress.outcome.Connected?
  }

  ghost predicate PeerInv(s: State) {
    && (forall i :: 0 <= i < |s.futures| ==> s.futures[i].peer < s.sockets)
    && (forall i :: 0 <= i < |s.futures| && ReleasedFailure(s.futures[i]) ==> s.futures[i].peer in s.closedPeers)
    && (forall p :: 0 <= p < s.sockets ==> p in s.closedPeers || p in s.served || InFlight(s, p))
  }

  ghost predicate Inv(s: State) {
    TokenInv(s) && PeerInv(s)
  }

  /** Before the callback accepts again, its own token is used up. */
  ghost predicate Taken(s: State) {
    s.starts == 0 && s.futures == [] && !s.escaped && PeerInv(s)
  }

  lemma AcceptMakesAToken(s: State, a: AcceptAnswer)
    requires Taken(s)
    ensures var r := Accept(s, a);
      && PeerInv(r.state) && r.state.listening == s.listening && r.state.loopClosed == s.loopClosed && !r.state.escaped
      && (r.raise.Nothing? ==> r.state.starts == 0 && r.state.futures == [Future(s.sockets, Pending)]
                               && r.state.registered == Some(s.sockets) && s.listening)
      && (!r.raise.Nothing? ==> Taken(r.state))
  {
    var r := Accept(s, a);
    if r.raise.Nothing? { assert r.state.futures[0].peer == s.sockets; }
  }

  lemma HandleKeepsInv(s: State, raise: Raise, again: AcceptAnswer)
    requires if raise.Nothing? then Inv(s) else Taken(s)
    ensures Inv(Handle(s, raise, again))
  {
    if raise.OsError? && s.listening && raise.errno.Transient? { AcceptMakesAToken(s, again); }
  }

  lemma CallbackKeepsInv(s: State, outcome: Option<Outcome>, handling: Raise, first: AcceptAnswer, again: AcceptAnswer)
    requires Taken(s)
    ensures Inv(Callback(s, outcome, handling, first, again))
  {
    var raised := ResultOf(outcome, handling);
    if !raised.Nothing? {
      HandleKeepsInv(s, raised, again);
    } else if !s.loopClosed {
      AcceptMakesAToken(s, first);
      HandleKeepsInv(Accept(s, first).state, Accept(s, first).raise, again);
    }
  }

  /** The one future is taken out before its callback runs. */
  lemma TakenOut(s: State, i: nat, stops: bool)
    requires Inv(s) && i < |s.futures| && s.futures[i].progress.Done? && s.futures[i].progress.released
    ensures
      var f := s.futures[i];
      Taken(s.(futures := Without(s.futures, i), listening := s.listening && !stops,
               served := if f.progress.outcome.Connected? then s.served + {f.peer} else s.served))
  {
    assert s.futures == [s.futures[i]];
    assert forall p :: 0 <= p < s.sockets && InFlight(s, p) ==> p == s.futures[i].peer;
  }

  lemma StepKeepsInv(s: State, e: Event)
    requires Inv(s)
    ensures Inv(Step(s, e))
  {
    if !Enabled(s, e) {
    } else {
      match e {
        case FirstCall(first, again) => {
          CallbackKeepsInv(s.(starts := s.starts - 1), None, Nothing, first, again);
        }
        case RunCallback(i, stops, handling, first, again) => {
          var f := s.futures[i];
          TakenOut(s, i, stops);
          var t := s.(futures := Without(s.futures, i), listening := s.listening && !stops,
                      served := if f.progress.outcome.Connected? then s.served + {f.peer} else s.served);
          CallbackKeepsInv(t, Some(f.progress.outcome), handling, first, again);
        }
        case Complete(i, _) => OneFutureStaysInFlight(s, Step(s, e));
        case Release(i) => OneFutureStaysInFlight(s, Step(s, e));
        case StopServing => OneFutureStaysInFlight(s, Step(s, e));
        case CloseListener => OneFutureStaysInFlight(s, Step(s, e));
        case CloseLoop => OneFutureStaysInFlight(s, Step(s, e));
      }
    }
  }

  lemma OneFutureStaysInFlight(s: State, t: State)
    requires |t.futures| == |s.futures| && forall i :: 0 <= i < |s.futures| ==> t.futures[i].peer == s.futures[i].peer
    ensures forall p :: InFlight(s, p) ==> InFlight(t, p)
  {
    forall p | InFlight(s, p)
      ensures InFlight(t, p)
    {
      var i :| 0 <= i < |s.futures| && s.futures[i].peer == p;
      assert t.futures[i].peer == p;
    }
  }

  lemma {:induction false} RunKeepsInv(s: State, events: seq<Event>)
    requires Inv(s)
    ensures Inv(Run(s, events))
    decreases |events|
  {
    if events != [] {
      StepKeepsInv(s, events[0]);
      RunKeepsInv(Step(s, events[0]), events[1..]);
    }
  }

  /**
   * Read off its inputs, a callback lets an exception out: the handling of a
   * connection raised another error, or accepting did, at first or after a transient
   * error met with the listener still open.
   */
  predicate LetsOut(listening: bool, outcome: Option<Outcome>, handling: Raise, first: AcceptAnswer, again: AcceptAnswer) {
    match ResultOf(outcome, handling)
    case OtherError => true
    case CancelledError => false
    case OsError(errno) => listening && errno.Transient? && again.Breaks?
    case Nothing => first.Breaks? || (first.Refuses? && first.errno.Transient? && listening && again.Breaks?)
  }

  predicate LetsOutIn(s: State, e: Event) {
    Enabled(s, e) &&
    match e
    case FirstCall(first, again) => LetsOut(s.listening, None, Nothing, first, again)
    case RunCallback(i, stops, handling, first, again) =>
      LetsOut(s.listening && !stops, Some(s.futures[i].progress.outcome), handling, first, again)
    case _ => false
  }

  /** Some callback of the run lets an exception out. */
  predicate SomeLetOut(s: State, events: seq<Event>)
    decreases |events|
  {
    events != [] && (LetsOutIn(s, events[0]) || SomeLetOut(Step(s, events[0]), events[1..]))
  }

  lemma StepEscapesExactly(s: State, e: Event)
    ensures Step(s, e).escaped <==> s.escaped || LetsOutIn(s, e)
  {
  }

  lemma {:induction false} RunEscapesExactly(s: State, events: seq<Event>)
    ensures Run(s, events).escaped <==> s.escaped || SomeLetOut(s, events)
    decreases |events|
  {
    if events != [] {
      StepEscapesExactly(s, events[0]);
      RunEscapesExactly(Step(s, events[0]), events[1..]);
    }
  }

  /**
   * In every run: exactly one accept is outstanding or about to be rescheduled, or
   * the listener is closed, or the loop is, exactly unless some callback let an
   * exception other than an OSError or a cancellation out and both are still open.
   */
  lemma OneAcceptExactlyUnlessAnExceptionEscaped(events: seq<Event>)
    ensures var t := Run(INITIAL, events);
      (Tokens(t) == 1 || !t.listening || t.loopClosed)
      <==> !(SomeLetOut(INITIAL, events) && t.listening && !t.loopClosed)
    ensures Tokens(Run(INITIAL, events)) <= 1
  {
    RunKeepsInv(INITIAL, events);
    RunEscapesExactly(INITIAL, events);
  }

  /** An accept whose callback ran without a connection has its peer closed; no peer is forgotten. */
  lemma FailedAcceptsCloseTheirPeers(events: seq<Event>, p: Peer)
    requires var t := Run(INITIAL, events); p < t.sockets && p !in t.served && !InFlight(t, p)
    ensures p in Run(INITIAL, events).closedPeers
  {
    RunKeepsInv(INITIAL, events);
  }

  /** When a callback runs, the peer of its failed or cancelled accept has been closed before. */
  lemma PeersAreReleasedBeforeTheCallback(events: seq<Event>, e: Event)
    requires e.RunCallback? && Enabled(Run(INITIAL, events), e)
    ensures var f := Run(INITIAL, events).futures[e.i];
      !f.progress.outcome.Connected? ==> f.peer in Run(INITIAL, events).closedPeers
  {
    RunKeepsInv(INITIAL, events);
  }

  /** A transient error of one connection closes the listener exactly when accepting again fails too. */
  lemma TransientErrorsKeepListening(s: State, again: AcceptAnswer)
    requires Taken(s) && s.listening && !s.loopClosed
    ensures forall first :: var t := Callback(s, Some(Failed(Transient)), Nothing, first, again);
      && (!t.listening <==> again.Refuses?)
      && (t.escaped <==> again.Breaks?)
      && (again.Accepts? ==> Tokens(t) == 1 && t.futures[0].progress.Pending?)
  {
  }

  /** Once an exception escaped with the listener open, nothing accepts again. */
  lemma {:induction false} AnEscapeIsForEver(s: State, events: seq<Event>)
    requires Inv(s) && s.escaped
    ensures Run(s, events).escaped && Tokens(Run(s, events)) == 0
    decreases |events|
  {
    if events != [] {
      StepKeepsInv(s, events[0]);
      assert Step(s, events[0]).escaped;
      AnEscapeIsForEver(Step(s, events[0]), events[1..]);
    }
  }

  /** Stopping the server cancels the outstanding accept. */
  lemma StoppingCancelsTheAccept(events: seq<Event>)
    requires Run(INITIAL, events).listening
    ensures var t := Step(Run(INITIAL, events), StopServing);
      !t.listening && forall i :: 0 <= i < |t.futures| ==> t.futures[i].progress.Done?
  {
    RunKeepsInv(INITIAL, events);
  }

  // ---- The objects ----

  class AcceptServer {
    var state: State

    ghost predicate Valid()
      reads this
    {
      Inv(state)
    }

    constructor ()
      ensures Valid() && state == INITIAL
    {
      state := INITIAL;
    }

    /** `IocpProactor.accept`: on any exception the peer is closed before it is raised. */
    method AcceptNext(a: AcceptAnswer) returns (raise: Raise)
      modifies this
      ensures Accepted(state, raise) == Accept(old(state), a)
    {
      raise := if a.Breaks? then OtherError else if a.Refuses? then OsError(a.errno) else if state.listening then Nothing else OsError(Transient);
      if a.Accepts? || a.made {
        var peer := state.sockets;
        state := state.(sockets := peer + 1);
        if raise.Nothing? {
          state := state.(futures := state.futures + [Future(peer, Pending)], registered := Some(peer));
        } else {
          state := state.(closedPeers := state.closedPeers + {peer});
        }
      }
    }

    /** `loop(f)`, with its exception clauses in their order. */
    method Loop(outcome: Option<Outcome>, handling: Raise, first: AcceptAnswer, again: AcceptAnswer)
      requires Taken(state)
      modifies this
      ensures state == Callback(old(state), outcome, handling, first, again)
      ensures Valid()
    {
      CallbackKeepsInv(state, outcome, handling, first, again);
      var raise := ResultOf(outcome, handling);
      if raise.Nothing? {
        if state.loopClosed { return; }
        raise := AcceptNext(first);
      }
      match raise {
        case Nothing =>
        case CancelledError => state := state.(listening := false);
        case OtherError => state := state.(escaped := true);
        case OsError(errno) =>
          if !state.listening { return; }
          if errno.Exhausted? {
            state := state.(listening := false);
            return;
          }
          var rescheduling := AcceptNext(again);
          if rescheduling.OsError? {
            state := state.(listening := false);
          } else if !rescheduling.Nothing? {
            state := state.(escaped := true);
          }
      }
    }

    /** The event loop runs the callbacks of a finished accept: the release first, then `loop`. */
    method RunDone(i: nat, stops: bool, handling: Raise, first: AcceptAnswer, again: AcceptAnswer)
      requires Valid() && !state.loopClosed && i < |state.futures| && state.futures[i].progress.Done? && !state.futures[i].progress.released
      modifies this
      ensures Valid()
      ensures state == Step(Step(old(state), Release(i)), RunCallback(i, stops, handling, first, again))
      ensures !old(state).futures[i].progress.outcome.Connected? ==> old(state).futures[i].peer in state.closedPeers
    {
      ghost var before := state;
      var f := state.futures[i];
      StepKeepsInv(state, Release(i));
      StepKeepsInv(Step(state, Release(i)), RunCallback(i, stops, handling, first, again));
      if !f.progress.outcome.Connected? {
        state := state.(closedPeers := state.closedPeers + {f.peer});
      }
      ghost var released := Step(before, Release(i));
      assert Without(state.futures, i) == Without(released.futures, i) == [];
      state := state.(futures := Without(state.futures, i), listening := state.listening && !stops,
        served := if f.progress.outcome.Connected? then state.served + {f.peer} else state.served);
      assert forall p :: 0 <= p < state.sockets && InFlight(before, p) ==> p == f.peer;
      Loop(Some(f.progress.outcome), handling, first, again);
    }
  }
}
