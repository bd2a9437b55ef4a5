/**
 * The Desktop byte stream: a four-byte little-endian length and that many
 * payload bytes, written and read in whatever pieces the kernel transfers.
 */
module DesktopCodec {
  import opened Wrappers
  import PipeIO

  datatype Category = LengthRefused | TransferRefused

  /**
   * A failure names its transfer and how far the stream had got: `done` bytes in
   * transfers that succeeded, and `behind` bytes that the failing one moved all the same.
   */
  datatype Written = Complete | Broken(why: Category, transfer: nat, done: nat, behind: nat)
  datatype Received = Payload(bytes: seq<Byte>) | Refused(why: Category, transfer: nat, done: nat, behind: nat)

  /**
   * One overlapped transfer.  One that raises, at its deadline say, may have moved
   * `moved` bytes before it was cancelled; so may one that reports an impossible count.
   */
  datatype Transfer = Transfer(raises: bool, count: int, moved: nat)

  /** What the kernel does with the `asked` bytes of the `i`-th transfer. */
  type Transfers = (nat, nat) -> Transfer

  predicate Succeeds(x: Transfer, asked: nat) {
    !x.raises && 0 < x.count <= asked
  }

  /** The bytes a failing transfer moves: never more than it was asked to. */
  function Behind(x: Transfer, asked: nat): nat {
    if x.moved <= asked then x.moved else asked
  }

  /** Every transfer moves at least one byte and no more than asked, and says so. */
  ghost predicate Honest(t: Transfers) {
    forall i: nat, asked: nat :: asked > 0 ==> Succeeds(t(i, asked), asked)
  }

  /**
   * The deadline of a transfer can hide its success: cancelled, it settles with all
   * its bytes, and the call still fails.
   */
  lemma FailedTransfersMayHaveMoved(moved: PipeIO.Message)
    ensures
      var w := PipeIO.Weather(PipeIO.Running, PipeIO.Code(PipeIO.IO_PENDING), PipeIO.Arrives(moved), 1, [PipeIO.Expired],
                              None, false, false, true, false, false);
      var s := PipeIO.Pipe(false, false, None);
      && PipeIO.Operate(PipeIO.Transfer, s, w) == PipeIO.Report(s, PipeIO.Failed(PipeIO.Deadline), PipeIO.EventHandle.Closed)
      && PipeIO.Result(PipeIO.Transfer, w, w.cancelGlitch) == PipeIO.Bytes(moved)
      && !PipeIO.NotProven(PipeIO.Transfer, s, w)
  {
  }

  predicate LengthAllowed(n: nat) { 0 < n <= MAX_DESKTOP_FRAME }

  function Header(n: nat): (h: seq<Byte>)
    requires n < 0x1_0000_0000
    ensures |h| == 4
  {
    [n % 256, n / 256 % 256, n / 65536 % 256, n / 16777216]
  }

  function HeaderValue(h: seq<Byte>): nat
    requires |h| == 4
  {
    h[0] as int + 256 * (h[1] as int + 256 * (h[2] as int + 256 * h[3] as int))
  }

  lemma HeaderRoundTrip(n: nat)
    requires n < 0x1_0000_0000
    ensures HeaderValue(Header(n)) == n
  {
    var a, b, c := n / 256, n / 65536, n / 16777216;
    assert n == n % 256 + 256 * a;
    assert b == a / 256 && a == a % 256 + 256 * b;
    assert c == b / 256 && b == b % 256 + 256 * c;
  }

  lemma HeaderInjective(h: seq<Byte>)
    requires |h| == 4
    ensures HeaderValue(h) < 0x1_0000_0000 && Header(HeaderValue(h)) == h
  {
    var n := HeaderValue(h);
    assert n / 256 == h[1] as int + 256 * (h[2] as int + 256 * h[3] as int);
    assert n / 65536 == h[2] as int + 256 * h[3] as int;
    assert n / 16777216 == h[3] as int;
  }

  function Frame(payload: seq<Byte>): seq<Byte>
    requires |payload| < 0x1_0000_0000
  {
    Header(|payload|) + payload
  }

  /** The first frame of a stream and what follows it. */
  function FirstFrame(stream: seq<Byte>): Option<(seq<Byte>, seq<Byte>)> {
    if |stream| < 4 then None
    else
      var n := HeaderValue(stream[..4]);
      if !LengthAllowed(n) || |stream| < 4 + n then None
      else Some((stream[4..4 + n], stream[4 + n..]))
  }

  /** A frame is recognised whatever follows it; and only frames are recognised. */
  lemma FirstFrameIsExact(stream: seq<Byte>, payload: seq<Byte>, rest: seq<Byte>)
    requires LengthAllowed(|payload|)
    ensures FirstFrame(stream) == Some((payload, rest)) <==> stream == Frame(payload) + rest
  {
    var n := |payload|;
    HeaderRoundTrip(n);
    if stream == Frame(payload) + rest {
      assert stream[..4] == Header(n);
      assert stream[4..4 + n] == payload;
      assert stream[4 + n..] == rest;
    }
    if FirstFrame(stream) == Some((payload, rest)) {
      HeaderInjective(stream[..4]);
      assert stream == stream[..4] + stream[4..4 + n] + stream[4 + n..];
    }
  }

  predicate AllAllowed(payloads: seq<seq<Byte>>) {
    forall i :: 0 <= i < |payloads| ==> LengthAllowed(|payloads[i]|)
  }

  function Frames(payloads: seq<seq<Byte>>): seq<Byte>
    requires AllAllowed(payloads)
  {
    if payloads == [] then [] else Frame(payloads[0]) + Frames(payloads[1..])
  }

  /** Read `n` frames one after another. */
  function ReadFrames(stream: seq<Byte>, n: nat): Option<(seq<seq<Byte>>, seq<Byte>)> {
    if n == 0 then Some(([], stream))
    else match FirstFrame(stream)
      case None => None
      case Some(first) =>
        match ReadFrames(first.1, n - 1)
        case None => None
        case Some(more) => Some(([first.0] + more.0, more.1))
  }

  /** A whole conversation comes back frame by frame and ends at the next frame. */
  lemma {:induction false} FramesRoundTrip(payloads: seq<seq<Byte>>, rest: seq<Byte>)
    requires AllAllowed(payloads)
    ensures ReadFrames(Frames(payloads) + rest, |payloads|) == Some((payloads, rest))
  {
    if payloads == [] {
      assert Frames(payloads) + rest == rest;
    } else {
      var tail := Frames(payloads[1..]) + rest;
      assert Frames(payloads) + rest == Frame(payloads[0]) + tail;
      FirstFrameIsExact(Frames(payloads) + rest, payloads[0], tail);
      FramesRoundTrip(payloads[1..], rest);
      assert [payloads[0]] + payloads[1..] == payloads;
    }
  }

  /** Equal streams of frames carry equal conversations: framing is unambiguous. */
  lemma {:induction false} FramesAreUnambiguous(a: seq<seq<Byte>>, b: seq<seq<Byte>>)
    requires AllAllowed(a) && AllAllowed(b) && Frames(a) == Frames(b)
    ensures a == b
    decreases |a|
  {
    if a == [] || b == [] {
      assert a == b;
    } else {
      FirstFrameIsExact(Frames(a), a[0], Frames(a[1..]));
      FirstFrameIsExact(Frames(b), b[0], Frames(b[1..]));
      FramesAreUnambiguous(a[1..], b[1..]);
      assert a == [a[0]] + a[1..] && b == [b[0]] + b[1..];
    }
  }

  /** One end of the stream; `inbox` are the bytes already in the pipe for the reader. */
  class DesktopStream {
    var inbox: seq<Byte>

    constructor ()
      ensures inbox == []
    {
      inbox := [];
    }

    /**
     * `write`: on success exactly one frame was appended, on failure a prefix of one:
     * what the earlier transfers moved and what the failing one moved behind its
     * failure.  Honest transfers always succeed.
     */
    method Write(payload: seq<Byte>, t: Transfers) returns (r: Written)
      modifies this
      ensures r.Complete? ==> LengthAllowed(|payload|) && inbox == old(inbox) + Frame(payload)
      ensures !LengthAllowed(|payload|) ==> r == Broken(LengthRefused, 0, 0, 0) && inbox == old(inbox)
      ensures LengthAllowed(|payload|) && r.Broken? ==>
                var left := |Frame(payload)| - r.done;
                && left > 0 && !Succeeds(t(r.transfer, left), left) && r.behind == Behind(t(r.transfer, left), left)
                && inbox == old(inbox) + Frame(payload)[..r.done + r.behind]
      ensures LengthAllowed(|payload|) && r.Broken? ==>
                (inbox == old(inbox) + Frame(payload) <==> r.behind == |Frame(payload)| - r.done)
      ensures LengthAllowed(|payload|) && Honest(t) ==> r.Complete?
    {
      if !LengthAllowed(|payload|) {
        return Broken(LengthRefused, 0, 0, 0);
      }
      var raw := Frame(payload);
      var offset, i := 0, 0;
      assert old(inbox) + raw[..0] == old(inbox);
      while offset < |raw|
        invariant 0 <= offset <= |raw|
        invariant inbox == old(inbox) + raw[..offset]
      {
        var chunk := raw[offset..];
        var x := t(i, |chunk|);
        var moved := if Succeeds(x, |chunk|) then x.count else Behind(x, |chunk|);
        inbox := inbox + chunk[..moved];
        assert raw[..offset] + chunk[..moved] == raw[..offset + moved];
        if !Succeeds(x, |chunk|) {
          WholeExactly(old(inbox), raw, offset + moved);
          return Broken(TransferRefused, i, offset, moved);
        }
        offset, i := offset + moved, i + 1;
      }
      assert raw[..offset] == raw;
      return Complete;
    }

    /**
     * `_read_exact`: all `size` bytes, or a refusal that consumed what the earlier
     * transfers moved and what the failing one moved behind its failure.
     */
    method ReadExact(size: nat, t: Transfers) returns (r: Received)
      modifies this
      ensures r.Payload? ==> |r.bytes| == size && old(inbox) == r.bytes + inbox
      ensures r.Refused? ==>
                && r.why == TransferRefused && r.done < size && r.done <= |old(inbox)|
                && var left := Available(size - r.done, |old(inbox)| - r.done);
                && !Succeeds(t(r.transfer, left), left) && r.behind == Behind(t(r.transfer, left), left)
                && r.done + r.behind <= size && inbox == old(inbox)[r.done + r.behind..]
      ensures size <= |old(inbox)| && Honest(t) ==> r.Payload?
    {
      var chunks: seq<Byte> := [];
      var i := 0;
      assert inbox == old(inbox)[0..];
      while |chunks| < size
        invariant |chunks| <= size && |chunks| <= |old(inbox)|
        invariant chunks == old(inbox)[..|chunks|] && inbox == old(inbox)[|chunks|..]
        decreases size - |chunks|
      {
        var available := Available(size - |chunks|, |inbox|);
        var x := t(i, available);
        if !Succeeds(x, available) {
          var moved := Behind(x, available);
          inbox := inbox[moved..];
          return Refused(TransferRefused, i, |chunks|, moved);
        }
        assert chunks + inbox[..x.count] == old(inbox)[..|chunks| + x.count];
        chunks, inbox, i := chunks + inbox[..x.count], inbox[x.count..], i + 1;
      }
      return Payload(chunks);
    }

    /**
     * `read`, up to the parsing of the payload: a payload is returned exactly
     * when it was the first frame of the stream, and the stream then stands at
     * the next frame.  A refusal stands after what was done and moved behind it.
     */
    method Read(t: Transfers, u: Transfers) returns (r: Received)
      modifies this
      ensures r.Payload? ==> FirstFrame(old(inbox)) == Some((r.bytes, inbox))
      ensures FirstFrame(old(inbox)).Some? && Honest(t) && Honest(u) ==> r.Payload?
      ensures r.Refused? ==> r.done + r.behind <= |old(inbox)| && inbox == old(inbox)[r.done + r.behind..]
      ensures r.Refused? && r.why.LengthRefused? ==>
                r.done == 4 && r.behind == 0 && !LengthAllowed(HeaderValue(old(inbox)[..4]))
    {
      var start := inbox;
      var header := ReadExact(4, t);
      if header.Refused? {
        return header;
      }
      assert start[..4] == header.bytes && inbox == start[4..];
      var size := HeaderValue(header.bytes);
      if !LengthAllowed(size) {
        return Refused(LengthRefused, 0, 4, 0);
      }
      r := ReadExact(size, u);
      if r.Payload? {
        assert start[4..] == r.bytes + inbox;
        assert start[4..4 + size] == r.bytes && start[4 + size..] == inbox;
      } else {
        assert start[4..][r.done + r.behind..] == start[4 + r.done + r.behind..];
        r := r.(done := 4 + r.done);
      }
    }
  }

  /** What a read of `wanted` bytes can get. */
  function Available(wanted: nat, present: nat): nat {
    if wanted <= present then wanted else present
  }

  /** A prefix of a frame is the frame exactly when it has its length. */
  lemma WholeExactly(before: seq<Byte>, raw: seq<Byte>, k: nat)
    requires k <= |raw|
    ensures before + raw[..k] == before + raw <==> k == |raw|
  {
    assert |before + raw[..k]| == |before| + k;
    if k == |raw| { assert raw[..k] == raw; }
  }
}
