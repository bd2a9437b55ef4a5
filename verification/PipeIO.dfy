/**
 * One overlapped operation of the native pipe, its cancellation at a deadline,
 * and the read that a cancelled poll may already have consumed.
 *
 * What the kernel does is an input: the fate of the operation, when it completes
 * and how each native call answers.  The functions below are the bookkeeping the
 * source does around those answers.
 */
module PipeIO {
  import opened Wrappers

  type Message = seq<Byte>

  /** What the stop flag and the monotonic clock show when they are looked at. */
  datatype Clock = Running | Expired | Stopping

  datatype Category = Deadline | Stopped | TransportFailed | PeerClosed | MessageLimit

  datatype Outcome = Ok(message: Message) | Failed(category: Category)

  /** What becomes of a submitted operation: bytes arrive, or it ends with a native error. */
  datatype Fate = Arrives(message: Message) | Ends(winerror: int)

  /** The answer to the submitting call. */
  datatype Submission = Raised(winerror: int) | Code(code: int)

  datatype Kind = Connect | ReadMessage | Transfer

  /** Everything the kernel, the clock and the stop flag do during one operation. */
  datatype Weather = Weather(
    begins: Clock,
    submission: Submission,
    fate: Fate,
    completesAt: nat,
    clocks: seq<Clock>,
    oddWait: Option<nat>,
    resultGlitch: bool,
    cancelRaises: bool,
    cancelSignals: bool,
    cancelGlitch: bool,
    stoppedAfterCancel: bool)

  /** The fields of the pipe object, with the process-wide `_native_uncertain`. */
  datatype Pipe = Pipe(unresolved: bool, uncertain: bool, completedRead: Option<Message>)

  datatype EventHandle = Closed | KeptOpen

  /** State, result, and what was done to the operation's event. */
  datatype Report = Report(pipe: Pipe, outcome: Outcome, event: EventHandle)

  const PIPE_CONNECTED := 535
  const NO_DATA := 232
  const IO_PENDING := 997
  const MORE_DATA := 234

  /** The receive buffer holds one byte more than the largest legal message. */
  const BUFFER: nat := MAX_MESSAGE + 1

  /** Native errors that prove an operation complete. */
  predicate Terminal(winerror: int) { winerror in {38, 109, 232, 233, 234, 995} }

  function Name(clock: Clock): Category { if clock.Stopping? then Stopped else Deadline }

  datatype Waited = Signaled | GaveUp(clock: Clock) | Odd

  /** The polling loop, from its `i`-th turn; a script that ends is an expired deadline. */
  function AwaitSignal(w: Weather, i: nat): Waited
    decreases |w.clocks| - i
  {
    if i >= |w.clocks| then GaveUp(Expired)
    else if !w.clocks[i].Running? then GaveUp(w.clocks[i])
    else if w.oddWait == Some(i) then Odd
    else if w.completesAt <= i then Signaled
    else AwaitSignal(w, i + 1)
  }

  /** `GetOverlappedResult` of a completed operation: bytes, or the native error. */
  datatype Native = Bytes(message: Message) | Error(winerror: int) | Unexpected

  function Result(kind: Kind, w: Weather, glitch: bool): Native {
    if glitch then Unexpected
    else match w.fate
      case Arrives(m) => if kind.ReadMessage? && |m| > BUFFER then Error(MORE_DATA) else Bytes(m)
      case Ends(code) => Error(code)
  }

  function CloseUnlessUnresolved(pipe: Pipe): EventHandle {
    if pipe.unresolved then KeptOpen else Closed
  }

  /** The `finally` block when the operation may still be in flight. */
  function CancelAndSettle(kind: Kind, s: Pipe, w: Weather, outcome: Outcome): Report {
    var lost := Report(s.(unresolved := true, uncertain := true), outcome, KeptOpen);
    if w.cancelRaises || !w.cancelSignals then lost
    else match Result(kind, w, w.cancelGlitch)
      case Unexpected => lost
      case Error(code) => if Terminal(code) then Report(s, outcome, CloseUnlessUnresolved(s)) else lost
      case Bytes(m) =>
        var kept := if kind.ReadMessage? && outcome == Failed(Deadline) && !w.stoppedAfterCancel
                       && !s.unresolved && !s.uncertain && s.completedRead.None?
                    then s.(completedRead := Some(m)) else s;
        Report(kept, outcome, CloseUnlessUnresolved(kept))
  }

  function NativeFailure(kind: Kind, winerror: int, proven: bool): Outcome {
    Failed(if kind.Connect? && winerror == NO_DATA && proven then PeerClosed else TransportFailed)
  }

  /** `_operation`. */
  function Operate(kind: Kind, s: Pipe, w: Weather): Report {
    var closed := CloseUnlessUnresolved(s);
    if !w.begins.Running? then Report(s, Failed(Name(w.begins)), closed)
    else if kind.ReadMessage? && s.completedRead.Some? then
      if s.unresolved || s.uncertain then Report(s, Failed(Stopped), Closed)
      else Report(s.(completedRead := None), Ok(s.completedRead.value), closed)
    else match w.submission
      case Raised(code) =>
        if kind.Connect? && code == PIPE_CONNECTED then Report(s, Ok([]), closed)
        else Report(s, NativeFailure(kind, code, true), closed)
      case Code(code) =>
        if kind.Connect? && code == PIPE_CONNECTED then Report(s, Ok([]), closed)
        else if kind.Connect? && code == NO_DATA then Report(s, Failed(PeerClosed), closed)
        else if code != 0 && code != IO_PENDING then Report(s, Failed(TransportFailed), closed)
        else Complete(kind, s, w, code == IO_PENDING)
  }

  /** From a submitted operation to its result. */
  function Complete(kind: Kind, s: Pipe, w: Weather, pending: bool): Report {
    match if pending then AwaitSignal(w, 0) else Signaled
    case GaveUp(clock) => CancelAndSettle(kind, s, w, Failed(Name(clock)))
    case Odd => CancelAndSettle(kind, s, w, Failed(TransportFailed))
    case Signaled =>
      match Result(kind, w, w.resultGlitch)
      case Bytes(m) => Report(s, Ok(m), CloseUnlessUnresolved(s))
      case Error(code) =>
        var outcome := NativeFailure(kind, code, !pending || Terminal(code));
        if pending && !Terminal(code) then CancelAndSettle(kind, s, w, outcome)
        else Report(s, outcome, CloseUnlessUnresolved(s))
      case Unexpected =>
        if pending then CancelAndSettle(kind, s, w, Failed(TransportFailed))
        else Report(s, Failed(TransportFailed), CloseUnlessUnresolved(s))
  }

  // ---- What really happened, independent of the bookkeeping ----

  /** The kernel accepted an operation of its own for this call. */
  predicate Submitted(kind: Kind, s: Pipe, w: Weather) {
    && w.begins.Running?
    && !(kind.ReadMessage? && s.completedRead.Some?)
    && (w.submission == Code(0) || w.submission == Code(IO_PENDING))
  }

  /** The operation was still in the kernel's hands when the call ended. */
  predicate InFlight(kind: Kind, s: Pipe, w: Weather) {
    && Submitted(kind, s, w)
    && w.submission == Code(IO_PENDING)
    && !AwaitSignal(w, 0).Signaled?
    && !(w.cancelSignals && !w.cancelRaises)
  }

  /** The bytes the kernel took out of the pipe for this call. */
  function Consumed(kind: Kind, s: Pipe, w: Weather): seq<Message> {
    if Submitted(kind, s, w) && !InFlight(kind, s, w) && w.fate.Arrives? then
      [if |w.fate.message| > BUFFER then w.fate.message[..BUFFER] else w.fate.message]
    else []
  }

  /** A poll that was cancelled while a message too long for the buffer was arriving. */
  predicate TornByCancel(s: Pipe, w: Weather) {
    && Submitted(ReadMessage, s, w)
    && w.submission == Code(IO_PENDING)
    && AwaitSignal(w, 0).GaveUp?
    && w.fate.Arrives? && |w.fate.message| > BUFFER
  }

  // ---- Runs of reads ----

  /**
   * `returned` are the messages polls hand out.  One of 32,769 bytes, the length of
   * the buffer, is among them: `read` takes it and then refuses it as too long.
   */
  datatype Ledger = Ledger(pipe: Pipe, consumed: seq<Message>, returned: seq<Message>, torn: nat)

  function Delivered(outcome: Outcome): seq<Message> {
    if outcome.Ok? then [outcome.message] else []
  }

  function ReadOnce(l: Ledger, w: Weather): Ledger {
    var r := Operate(ReadMessage, l.pipe, w);
    Ledger(r.pipe, l.consumed + Consumed(ReadMessage, l.pipe, w), l.returned + Delivered(r.outcome),
           l.torn + if TornByCancel(l.pipe, w) then 1 else 0)
  }

  function Reads(l: Ledger, ws: seq<Weather>): Ledger
    decreases |ws|
  {
    if ws == [] then l else Reads(ReadOnce(l, ws[0]), ws[1..])
  }

  /** No stop, nothing left unresolved, and every failed poll failed at its deadline. */
  predicate OnlyDeadlines(l: Ledger, ws: seq<Weather>)
    decreases |ws|
  {
    ws != [] ==>
      var r := Operate(ReadMessage, l.pipe, ws[0]);
      && (r.outcome.Ok? || r.outcome == Failed(Deadline))
      && !ws[0].stoppedAfterCancel
      && !r.pipe.unresolved && !r.pipe.uncertain
      && OnlyDeadlines(ReadOnce(l, ws[0]), ws[1..])
  }

  function Retained(pipe: Pipe): seq<Message> {
    if pipe.completedRead.Some? then [pipe.completedRead.value] else []
  }

  /** What one poll does to the ledger, in bytes and in count. */
  lemma ReadOnceBalances(l: Ledger, w: Weather)
    requires !l.pipe.unresolved && !l.pipe.uncertain && OnlyDeadlines(l, [w])
    ensures
      var r := ReadOnce(l, w);
      var news := Delivered(Operate(ReadMessage, l.pipe, w).outcome) + Retained(r.pipe);
      if TornByCancel(l.pipe, w)
      then news == Retained(l.pipe) && |Consumed(ReadMessage, l.pipe, w)| == 1
      else news == Retained(l.pipe) + Consumed(ReadMessage, l.pipe, w)
  {
  }

  /**
   * The channel loses nothing, duplicates nothing and reorders nothing, exactly
   * when no poll was cancelled while an oversized message was arriving.  Such a
   * poll still reports its deadline, so the channel goes on without those bytes.
   */
  lemma {:induction false} ReadsLoseNothingExactlyWithoutTearing(l: Ledger, ws: seq<Weather>)
    requires !l.pipe.unresolved && !l.pipe.uncertain && OnlyDeadlines(l, ws)
    requires l.torn == 0 && l.consumed == l.returned + Retained(l.pipe)
    ensures
      var r := Reads(l, ws);
      r.consumed == r.returned + Retained(r.pipe) <==> r.torn == 0
  {
    CountsBalance(l, ws);
    if Reads(l, ws).torn == 0 { UntornReadsConserve(l, ws); }
  }

  /** In number of messages: consumed is returned plus retained plus torn. */
  lemma {:induction false} CountsBalance(l: Ledger, ws: seq<Weather>)
    requires !l.pipe.unresolved && !l.pipe.uncertain && OnlyDeadlines(l, ws)
    requires |l.consumed| == |l.returned| + |Retained(l.pipe)| + l.torn
    ensures
      var r := Reads(l, ws);
      |r.consumed| == |r.returned| + |Retained(r.pipe)| + r.torn && r.torn >= l.torn
    decreases |ws|
  {
    if ws != [] {
      ReadOnceBalances(l, ws[0]);
      CountsBalance(ReadOnce(l, ws[0]), ws[1..]);
    }
  }

  lemma {:induction false} UntornReadsConserve(l: Ledger, ws: seq<Weather>)
    requires !l.pipe.unresolved && !l.pipe.uncertain && OnlyDeadlines(l, ws)
    requires l.consumed == l.returned + Retained(l.pipe)
    requires l.torn == 0 && Reads(l, ws).torn == 0
    ensures var r := Reads(l, ws); r.consumed == r.returned + Retained(r.pipe)
    decreases |ws|
  {
    if ws != [] {
      var next := ReadOnce(l, ws[0]);
      ReadOnceBalances(l, ws[0]);
      CountsBalance(Ledger(l.pipe, l.consumed, l.returned, 0), ws);
      TornNeverShrinks(next, ws[1..]);
      calc {
        next.consumed;
        l.consumed + Consumed(ReadMessage, l.pipe, ws[0]);
        l.returned + Retained(l.pipe) + Consumed(ReadMessage, l.pipe, ws[0]);
        l.returned + (Retained(l.pipe) + Consumed(ReadMessage, l.pipe, ws[0]));
        next.returned + Retained(next.pipe);
      }
      UntornReadsConserve(next, ws[1..]);
    }
  }

  lemma {:induction false} TornNeverShrinks(l: Ledger, ws: seq<Weather>)
    ensures Reads(l, ws).torn >= l.torn
    decreases |ws|
  {
    if ws != [] { TornNeverShrinks(ReadOnce(l, ws[0]), ws[1..]); }
  }

  /** A concrete torn poll: the deadline passes, 32,770 bytes arrive, and the next read starts afresh. */
  lemma TornPollLosesBytes(long: Message)
    requires |long| == BUFFER + 1
    ensures
      var w := Weather(Running, Code(IO_PENDING), Arrives(long), 9, [Running], None, false, false, true, false, false);
      var l := Ledger(Pipe(false, false, None), [], [], 0);
      && OnlyDeadlines(l, [w])
      && Reads(l, [w]) == Ledger(Pipe(false, false, None), [long[..BUFFER]], [], 1)
  {
    var w := Weather(Running, Code(IO_PENDING), Arrives(long), 9, [Running], None, false, false, true, false, false);
    var l := Ledger(Pipe(false, false, None), [], [], 0);
    assert AwaitSignal(w, 1) == GaveUp(Expired);
    assert Reads(ReadOnce(l, w), []) == ReadOnce(l, w);
    assert [w][1..] == [];
    assert l.consumed + [long[..BUFFER]] == [long[..BUFFER]];
  }

  // ---- Handles ----

  /** A result query proves the operation complete by its bytes or by a terminal native error. */
  predicate Proves(kind: Kind, w: Weather, glitch: bool) {
    match Result(kind, w, glitch)
    case Bytes(_) => true
    case Error(code) => Terminal(code)
    case Unexpected => false
  }

  /**
   * The kernel took the operation, and neither the awaited result nor the one after
   * the cancel proves it complete.
   */
  predicate NotProven(kind: Kind, s: Pipe, w: Weather) {
    && Submitted(kind, s, w) && w.submission == Code(IO_PENDING)
    && !(AwaitSignal(w, 0).Signaled? && Proves(kind, w, w.resultGlitch))
    && !(w.cancelSignals && !w.cancelRaises && Proves(kind, w, w.cancelGlitch))
  }

  /** What is still in the kernel's hands is never taken for proven. */
  lemma InFlightIsNotProven(kind: Kind, s: Pipe, w: Weather)
    requires InFlight(kind, s, w)
    ensures NotProven(kind, s, w)
  {
  }

  /**
   * A resolved pipe becomes unresolved, and keeps the event of the call open,
   * exactly when its submitted operation is not proven complete; an unresolved pipe
   * stays so, and keeps the event of every operation the kernel took.
   */
  lemma UnresolvedExactlyWhenNotProven(kind: Kind, s: Pipe, w: Weather)
    ensures
      var r := Operate(kind, s, w);
      && (!s.unresolved ==> (r.pipe.unresolved <==> NotProven(kind, s, w)) && (r.event.KeptOpen? <==> NotProven(kind, s, w)))
      && (s.unresolved ==> r.pipe.unresolved && (Submitted(kind, s, w) ==> r.event.KeptOpen?))
  {
  }

  /** Connecting and writing never fill the read that is kept for later. */
  lemma OnlyReadsAreRetained(kind: Kind, s: Pipe, w: Weather)
    requires !kind.ReadMessage?
    ensures Operate(kind, s, w).pipe.completedRead == s.completedRead
  {
  }

  /** What is done to one pipe object: a call, a new peer on a server pipe, or `close`. */
  datatype Use = Call(kind: Kind, weather: Weather) | AcceptPeer(weather: Weather) | CloseHandle

  datatype Held = Held(pipe: Pipe, handleOpen: bool)

  function UseOnce(h: Held, u: Use): Held {
    match u
    case Call(kind, w) => Held(Operate(kind, h.pipe, w).pipe, h.handleOpen)
    case AcceptPeer(w) => Held(Operate(Connect, h.pipe.(completedRead := None), w).pipe, h.handleOpen)
    case CloseHandle => if h.pipe.unresolved then h else Held(h.pipe.(completedRead := None), false)
  }

  function Uses(h: Held, uses: seq<Use>): Held
    decreases |uses|
  {
    if uses == [] then h else Uses(UseOnce(h, uses[0]), uses[1..])
  }

  lemma {:induction false} UnresolvedKeepsTheHandle(h: Held, uses: seq<Use>)
    requires h.pipe.unresolved
    ensures Uses(h, uses).pipe.unresolved && Uses(h, uses).handleOpen == h.handleOpen
    decreases |uses|
  {
    if uses != [] {
      var u := uses[0];
      if u.Call? { UnresolvedExactlyWhenNotProven(u.kind, h.pipe, u.weather); }
      if u.AcceptPeer? { UnresolvedExactlyWhenNotProven(Connect, h.pipe.(completedRead := None), u.weather); }
      UnresolvedKeepsTheHandle(UseOnce(h, u), uses[1..]);
    }
  }

  /**
   * In any run of calls and closes, the handle over which one operation is not
   * proven complete is open for good, and so is the event of that operation.
   */
  lemma HandleOutlivesUnprovenCalls(h: Held, before: seq<Use>, kind: Kind, w: Weather, after: seq<Use>)
    requires Uses(h, before).handleOpen && NotProven(kind, Uses(h, before).pipe, w)
    ensures
      var at := Uses(h, before);
      && Operate(kind, at.pipe, w).event.KeptOpen?
      && Uses(UseOnce(at, Call(kind, w)), after).handleOpen
  {
    var at := Uses(h, before);
    UnresolvedExactlyWhenNotProven(kind, at.pipe, w);
    UnresolvedKeepsTheHandle(UseOnce(at, Call(kind, w)), after);
  }

  /** Some operation of the run is not proven complete. */
  predicate SomeUnproven(pipe: Pipe, uses: seq<Use>)
    decreases |uses|
  {
    uses != [] &&
    var u := uses[0];
    || (u.Call? && NotProven(u.kind, pipe, u.weather))
    || (u.AcceptPeer? && NotProven(Connect, pipe.(completedRead := None), u.weather))
    || SomeUnproven(UseOnce(Held(pipe, true), u).pipe, uses[1..])
  }

  /** After any run, closing closes the handle exactly when no operation of the run is left unproven. */
  lemma {:induction false} CloseTakesEffectExactlyWhenAllProven(h: Held, uses: seq<Use>)
    requires !h.pipe.unresolved
    ensures Uses(h, uses).pipe.unresolved <==> SomeUnproven(h.pipe, uses)
    ensures !UseOnce(Uses(h, uses), CloseHandle).handleOpen <==> !Uses(h, uses).handleOpen || !SomeUnproven(h.pipe, uses)
    decreases |uses|
  {
    if uses != [] {
      var u := uses[0];
      var next := UseOnce(h, u);
      if u.Call? { UnresolvedExactlyWhenNotProven(u.kind, h.pipe, u.weather); }
      if u.AcceptPeer? { UnresolvedExactlyWhenNotProven(Connect, h.pipe.(completedRead := None), u.weather); }
      assert next.pipe == UseOnce(Held(h.pipe, true), u).pipe;
      if next.pipe.unresolved {
        UnresolvedKeepsTheHandle(next, uses[1..]);
      } else {
        CloseTakesEffectExactlyWhenAllProven(next, uses[1..]);
      }
    }
  }

  /** The pipe object of the source. */
  class NativePipe {
    var unresolved: bool
    var uncertain: bool
    var completedRead: Option<Message>
    var handleOpen: bool

    ghost function Now(): Pipe
      reads this
    {
      Pipe(unresolved, uncertain, completedRead)
    }

    constructor (uncertain: bool)
      ensures Now() == Pipe(false, uncertain, None) && handleOpen
    {
      this.unresolved, this.uncertain, this.completedRead, this.handleOpen := false, uncertain, None, true;
    }

    /** The polling loop of `_operation`. */
    method Poll(w: Weather) returns (waited: Waited)
      ensures waited == AwaitSignal(w, 0)
    {
      var i := 0;
      while i < |w.clocks|
        invariant 0 <= i <= |w.clocks|
        invariant AwaitSignal(w, 0) == AwaitSignal(w, i)
      {
        if !w.clocks[i].Running? {
          return GaveUp(w.clocks[i]);
        }
        if w.oddWait == Some(i) {
          return Odd;
        }
        if w.completesAt <= i {
          return Signaled;
        }
        i := i + 1;
      }
      return GaveUp(Expired);
    }

    /** The cancelling `finally` block. */
    method Settle(kind: Kind, w: Weather, outcome: Outcome) returns (event: EventHandle)
      modifies this
      ensures Report(Now(), outcome, event) == CancelAndSettle(kind, old(Now()), w, outcome)
      ensures handleOpen == old(handleOpen)
    {
      var completed := false;
      if !w.cancelRaises && w.cancelSignals {
        match Result(kind, w, w.cancelGlitch) {
          case Unexpected =>
          case Error(code) => completed := Terminal(code);
          case Bytes(m) =>
            completed := true;
            if kind.ReadMessage? && outcome == Failed(Deadline) && !w.stoppedAfterCancel
               && !unresolved && !uncertain && completedRead.None? {
              completedRead := Some(m);
            }
        }
      }
      if !completed {
        uncertain, unresolved := true, true;
      }
      event := if unresolved then KeptOpen else Closed;
    }

    method Operation(kind: Kind, w: Weather) returns (outcome: Outcome, event: EventHandle)
      modifies this
      ensures Report(Now(), outcome, event) == Operate(kind, old(Now()), w)
      ensures handleOpen == old(handleOpen)
    {
      event := if unresolved then KeptOpen else Closed;
      if !w.begins.Running? {
        return Failed(Name(w.begins)), event;
      }
      if kind.ReadMessage? && completedRead.Some? {
        if unresolved || uncertain {
          return Failed(Stopped), Closed;
        }
        outcome := Ok(completedRead.value);
        completedRead := None;
        return;
      }
      if w.submission.Raised? {
        outcome := if kind.Connect? && w.submission.winerror == PIPE_CONNECTED then Ok([])
                   else NativeFailure(kind, w.submission.winerror, true);
        return;
      }
      var code := w.submission.code;
      if kind.Connect? && code == PIPE_CONNECTED {
        return Ok([]), event;
      }
      if kind.Connect? && code == NO_DATA {
        return Failed(PeerClosed), event;
      }
      if code != 0 && code != IO_PENDING {
        return Failed(TransportFailed), event;
      }
      var pending := code == IO_PENDING;
      var waited := Signaled;
      if pending {
        waited := Poll(w);
      }
      var completed := false;
      match waited {
        case GaveUp(clock) => outcome := Failed(Name(clock));
        case Odd => outcome := Failed(TransportFailed);
        case Signaled =>
          match Result(kind, w, w.resultGlitch) {
            case Bytes(m) =>
              completed := true;
              outcome := Ok(m);
            case Error(winerror) =>
              completed := Terminal(winerror);
              outcome := NativeFailure(kind, winerror, !pending || completed);
            case Unexpected => outcome := Failed(TransportFailed);
          }
      }
      if pending && !completed {
        event := Settle(kind, w, outcome);
      }
    }

    /** `accept`: a reused server handle must not carry bytes across peers. */
    method Accept(w: Weather) returns (outcome: Outcome)
      modifies this
      ensures Held(Now(), handleOpen) == UseOnce(old(Held(Now(), handleOpen)), AcceptPeer(w))
      ensures outcome == Operate(Connect, old(Now()).(completedRead := None), w).outcome
      ensures completedRead.None?
    {
      completedRead := None;
      OnlyReadsAreRetained(Connect, Now(), w);
      var event;
      outcome, event := Operation(Connect, w);
    }

    /** `read`, up to the parsing of the message. */
    method Read(w: Weather) returns (outcome: Outcome)
      modifies this
      ensures Held(Now(), handleOpen) == UseOnce(old(Held(Now(), handleOpen)), Call(ReadMessage, w))
      ensures
        var r := Operate(ReadMessage, old(Now()), w).outcome;
        outcome == if r.Ok? && |r.message| > MAX_MESSAGE then Failed(MessageLimit) else r
    {
      var event;
      outcome, event := Operation(ReadMessage, w);
      if outcome.Ok? && |outcome.message| > MAX_MESSAGE {
        outcome := Failed(MessageLimit);
      }
    }

    /** `close`: an unresolved pipe keeps its handle. */
    method Close()
      modifies this
      ensures Held(Now(), handleOpen) == UseOnce(old(Held(Now(), handleOpen)), CloseHandle)
    {
      if unresolved {
        return;
      }
      completedRead := None;
      handleOpen := false;
    }
  }
}
