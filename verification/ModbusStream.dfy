/**
 * Reassembly of one Modbus response from a socket or serial port whose reads return pieces of
 * any size. `Ends` says which reads a call makes and what it answers; the lemmas say what that
 * answer is for a given byte stream, however the stream is cut into reads.
 */
module ModbusStream {
  import opened Wrappers
  import opened Widths

  const MAX_TCP_UDP_FRAME_LEN: nat := 260
  const MAX_RTU_FRAME_LEN: nat := 256
  const MAX_ASCII_FRAME_LEN: nat := MAX_RTU_FRAME_LEN * 2 + 3

  const COLON: byte := 58
  const CR: byte := 13
  const LF: byte := 10

  datatype Proto = TcpUdp | Rtu | Ascii

  /** What one read reports; `Data([])` is a read of no bytes. */
  datatype ReadEvent = Data(bytes: seq<byte>) | Closed | Failed(reason: string) {
    predicate Delivers() {
      Data? && bytes != []
    }
  }

  datatype ReadError = PeerClosed | ReadFailed(reason: string) | FrameExceeded(limit: nat)

  function MinGuessLen(proto: Proto): nat {
    match proto
    case TcpUdp => 6
    case Rtu => 5
    case Ascii => 7
  }

  function MaxFrameLen(proto: Proto): nat {
    match proto
    case TcpUdp => MAX_TCP_UDP_FRAME_LEN
    case Rtu => MAX_RTU_FRAME_LEN
    case Ascii => MAX_ASCII_FRAME_LEN
  }

  /** The frame length an MBAP header announces, once the header is there and its protocol id is 0. */
  function TcpUdpFrameLen(frame: seq<byte>): Option<nat> {
    if |frame| < MinGuessLen(TcpUdp) || FromBigEndian(frame[2], frame[3]) != 0 then
      None
    else
      Some(FromBigEndian(frame[4], frame[5]) + 6)
  }

  /** A CRLF occupies the two bytes before `end`. */
  predicate CrlfBefore(frame: seq<byte>, end: nat) {
    2 <= end <= |frame| && frame[end - 2] == CR && frame[end - 1] == LF
  }

  /** The end of the first CRLF. */
  function AsciiFrameEnd(frame: seq<byte>): (end: Option<nat>)
    ensures end.Some? ==> CrlfBefore(frame, end.value)
    ensures forall e: nat :: CrlfBefore(frame, e) ==> end.Some? && end.value <= e
  {
    if |frame| < 2 then
      None
    else if frame[0] == CR && frame[1] == LF then
      Some(2)
    else
      assert forall e: nat :: CrlfBefore(frame, e) ==> CrlfBefore(frame[1..], e - 1);
      match AsciiFrameEnd(frame[1..])
      case None => None
      case Some(end) => Some(end + 1)
  }

  function Truncate(frame: seq<byte>, length: nat): seq<byte> {
    if length < |frame| then frame[..length] else frame
  }

  /** A wire protocol, with the frame-length guess of the protocol library for RTU. */
  datatype Framing = Framing(proto: Proto, guess: seq<byte> -> Option<byte>) {
    predicate Complete(frame: seq<byte>) {
      match proto
      case TcpUdp =>
        var end := TcpUdpFrameLen(frame);
        end.Some? && end.value <= |frame|
      case Ascii =>
        var end := AsciiFrameEnd(frame);
        frame != [] && frame[0] == COLON && end.Some? && end.value >= MinGuessLen(Ascii)
      case Rtu =>
        |frame| >= MinGuessLen(Rtu) && guess(frame).Some? && guess(frame).value <= |frame|
    }

    function Trim(frame: seq<byte>): seq<byte> {
      if frame == [] then
        frame
      else
        var end: Option<nat> := match proto
          case TcpUdp => TcpUdpFrameLen(frame)
          case Ascii => AsciiFrameEnd(frame)
          case Rtu => (match guess(frame) case Some(end) => Some(end) case None => None);
        match end
        case Some(end) => Truncate(frame, end)
        case None => frame
    }

    function Limit(): nat {
      MaxFrameLen(proto)
    }
  }

  /** What the `k`-th read from read `start` on reports; the first is number 1. */
  function Nth(script: nat -> ReadEvent, start: nat, k: nat): ReadEvent
    requires k >= 1
  {
    script(start + k - 1)
  }

  /** The bytes of the first `n` reads from read `start` on. */
  function Joined(script: nat -> ReadEvent, start: nat, n: nat): seq<byte> {
    if n == 0 then
      []
    else
      Joined(script, start, n - 1) + (match Nth(script, start, n) case Data(bytes) => bytes case _ => [])
  }

  predicate AllDeliver(script: nat -> ReadEvent, start: nat, n: nat) {
    forall k: nat | 1 <= k <= n :: Nth(script, start, k).Delivers()
  }

  /** The first `n` reads all bring bytes, stay within the limit and leave the frame incomplete. */
  predicate Pending(script: nat -> ReadEvent, start: nat, n: nat, f: Framing) {
    forall k: nat | 1 <= k <= n ::
      && Nth(script, start, k).Delivers()
      && |Joined(script, start, k)| <= f.Limit()
      && !f.Complete(Joined(script, start, k))
  }

  /** A read that reports `event` after the bytes of `frame` ends the call with `answer`. */
  predicate Settles(event: ReadEvent, frame: seq<byte>, f: Framing, answer: Result<seq<byte>, ReadError>) {
    match event
    case Failed(reason) =>
      answer == Err(ReadFailed(reason))
    case Closed =>
      answer == if frame == [] then Err(PeerClosed) else Ok(f.Trim(frame))
    case Data(bytes) =>
      if bytes == [] then
        answer == if frame == [] then Err(PeerClosed) else Ok(f.Trim(frame))
      else if |frame + bytes| > f.Limit() then
        answer == Err(FrameExceeded(f.Limit()))
      else
        f.Complete(frame + bytes) && answer == Ok(f.Trim(frame + bytes))
  }

  /** A call that starts at read `start` ends with its `n`-th read and answers `answer`. */
  predicate Ends(script: nat -> ReadEvent, start: nat, n: nat, f: Framing,
                 answer: Result<seq<byte>, ReadError>)
  {
    && n >= 1
    && Pending(script, start, n - 1, f)
    && Settles(Nth(script, start, n), Joined(script, start, n - 1), f, answer)
  }

  /** One more read: it ends the call, or it brings bytes that leave the frame incomplete. */
  lemma ReadOnce(script: nat -> ReadEvent, start: nat, n: nat, f: Framing, frame: seq<byte>, event: ReadEvent)
    requires Pending(script, start, n, f) && Joined(script, start, n) == frame && Nth(script, start, n + 1) == event
    ensures forall answer :: Settles(event, frame, f, answer) ==> Ends(script, start, n + 1, f, answer)
    ensures event.Delivers() ==> Joined(script, start, n + 1) == frame + event.bytes
    ensures event.Delivers() && |frame + event.bytes| <= f.Limit() && !f.Complete(frame + event.bytes) ==>
              Pending(script, start, n + 1, f)
  {
  }

  /** A socket or serial port; `script` is what its reads will report, one after the other. */
  class Stream {
    const script: nat -> ReadEvent
    var pos: nat

    constructor (script: nat -> ReadEvent)
      ensures this.script == script && pos == 0
    {
      this.script := script;
      pos := 0;
    }

    method Read() returns (event: ReadEvent)
      modifies this`pos
      ensures event == script(old(pos)) && pos == old(pos) + 1
    {
      event := script(pos);
      pos := pos + 1;
    }

    /** Every read that does not end the call takes some of the room that is left. */
    method ReadStreamResponse(f: Framing) returns (answer: Result<seq<byte>, ReadError>)
      modifies this`pos
      ensures pos > old(pos)
      ensures Ends(script, old(pos), pos - old(pos), f, answer)
    {
      var frame: seq<byte> := [];
      ghost var start, n := pos, 0;
      while true
        invariant n >= 0 && pos == start + n
        invariant frame == Joined(script, start, n)
        invariant frame == [] <==> n == 0
        invariant |frame| <= f.Limit()
        invariant Pending(script, start, n, f)
        decreases f.Limit() - |frame|
      {
        var event := Read();
        ReadOnce(script, start, n, f, frame, event);
        n := n + 1;
        match event
        case Failed(reason) =>
          return Err(ReadFailed(reason));
        case Closed =>
          if frame == [] {
            return Err(PeerClosed);
          }
          return Ok(f.Trim(frame));
        case Data(bytes) =>
          if bytes == [] {
            if frame == [] {
              return Err(PeerClosed);
            }
            return Ok(f.Trim(frame));
          }
          if |frame| + |bytes| > f.Limit() {
            return Err(FrameExceeded(f.Limit()));
          }
          frame := frame + bytes;
          if f.Complete(frame) {
            return Ok(f.Trim(frame));
          }
      }
    }
  }

  /** A call's reads and its answer follow from what the reads report. */
  lemma EndsOnce(script: nat -> ReadEvent, start: nat, f: Framing,
                 n: nat, answer: Result<seq<byte>, ReadError>, m: nat, other: Result<seq<byte>, ReadError>)
    requires Ends(script, start, n, f, answer) && Ends(script, start, m, f, other)
    ensures n == m && answer == other
  {
    assert Pending(script, start, Min(n, m) - 1, f);
  }

  /** The longest frame of a protocol, and the longest response its reads may bring. */
  function Longest(proto: Proto): nat {
    match proto case TcpUdp => 260 case Rtu => 256 case Ascii => 515
  }

  /**
   * How a call fails, exactly: with a read error if and only if its last read failed, with a closed
   * peer at a close or an empty read before any byte, and with a refusal for bytes past the limit.
   */
  lemma FailsExactly(script: nat -> ReadEvent, start: nat, n: nat, f: Framing, answer: Result<seq<byte>, ReadError>)
    requires Ends(script, start, n, f, answer)
    ensures var last := script(start + n - 1);
            && (forall reason :: last == Failed(reason) <==> answer == Err(ReadFailed(reason)))
            && (answer == Err(PeerClosed) <==> (last.Closed? || last == Data([])) && n == 1)
            && (answer == Err(FrameExceeded(Longest(f.proto)))
                <==> last.Delivers() && |Joined(script, start, n)| > Longest(f.proto))
  {
    assert Nth(script, start, n) == script(start + n - 1);
    if n > 1 {
      assert Nth(script, start, n - 1).Delivers();
    }
  }

  /**
   * When a call succeeds, exactly: its last read completes the frame within the limit, or it is a
   * close or an empty read after at least one byte; the answer begins the bytes read.
   */
  lemma SucceedsExactly(script: nat -> ReadEvent, start: nat, n: nat, f: Framing, answer: Result<seq<byte>, ReadError>)
    requires Ends(script, start, n, f, answer)
    ensures var last, wire := script(start + n - 1), Joined(script, start, n);
            && (answer.Ok? <==> || (last.Delivers() && |wire| <= Longest(f.proto) && f.Complete(wire))
                                || ((last.Closed? || last == Data([])) && n > 1))
            && (answer.Ok? ==> answer.value <= wire && wire != [])
  {
    FailsExactly(script, start, n, f, answer);
    assert Nth(script, start, n) == script(start + n - 1);
    if n > 1 {
      assert Nth(script, start, n - 1).Delivers();
    }
  }

  /** No answer is longer than the limit of its protocol. */
  lemma AnswerWithinLimit(script: nat -> ReadEvent, start: nat, n: nat, f: Framing,
                          answer: Result<seq<byte>, ReadError>)
    requires Ends(script, start, n, f, answer) && answer.Ok?
    ensures 0 < |Joined(script, start, n)| <= Longest(f.proto)
    ensures |answer.value| <= Longest(f.proto)
  {
    if n > 1 {
      assert |Joined(script, start, n - 1)| <= f.Limit();
      assert Nth(script, start, n - 1).Delivers();
    }
  }

  /** From the fifth byte of `wire` on the guess of the frame length no longer changes. */
  ghost predicate GuessSettles(guess: seq<byte> -> Option<byte>, wire: seq<byte>, end: byte) {
    forall prefix | prefix <= wire && |prefix| >= 5 :: guess(prefix) == Some(end)
  }

  /** A CR (13) and an LF (10) stand at `i`. */
  predicate CrlfAt(wire: seq<byte>, i: nat) {
    i + 1 < |wire| && wire[i] == 13 && wire[i + 1] == 10
  }

  /**
   * `end` is where the first frame of `wire` ends: six bytes and the length an MBAP header with protocol
   * id 0 names, the first CRLF after a colon (58), or a settled guess.
   */
  ghost predicate Framed(f: Framing, wire: seq<byte>, end: nat) {
    && end <= |wire|
    && match f.proto
       case TcpUdp =>
         |wire| >= 6 && FromBigEndian(wire[2], wire[3]) == 0 && end == FromBigEndian(wire[4], wire[5]) + 6
       case Ascii =>
         7 <= end && wire[0] == 58 && CrlfAt(wire, end - 2) && forall i: nat | i < end - 2 :: !CrlfAt(wire, i)
       case Rtu => 5 <= end < 0x100 && GuessSettles(f.guess, wire, end)
  }

  /** The same in the terms of the completion test. */
  ghost predicate Delimited(f: Framing, wire: seq<byte>, end: nat) {
    && end <= |wire|
    && match f.proto
       case TcpUdp => TcpUdpFrameLen(wire) == Some(end)
       case Ascii => |wire| > 0 && wire[0] == COLON && AsciiFrameEnd(wire) == Some(end) && MinGuessLen(Ascii) <= end
       case Rtu => MinGuessLen(Rtu) <= end < 0x100 && GuessSettles(f.guess, wire, end)
  }

  lemma FirstCrlf(wire: seq<byte>, end: nat)
    requires 2 <= end <= |wire| && CrlfAt(wire, end - 2) && forall i: nat | i < end - 2 :: !CrlfAt(wire, i)
    ensures AsciiFrameEnd(wire) == Some(end)
  {
    assert CrlfBefore(wire, end);
    var first := AsciiFrameEnd(wire).value;
    assert CrlfBefore(wire, first) && CrlfAt(wire, first - 2);
  }

  lemma FramedIsDelimited(f: Framing, wire: seq<byte>, end: nat)
    requires Framed(f, wire, end)
    ensures Delimited(f, wire, end)
  {
    match f.proto
    case Ascii => FirstCrlf(wire, end);
    case _ =>
  }

  /** A prefix of a framed stream is complete exactly when it reaches the frame's end. */
  lemma PrefixComplete(f: Framing, wire: seq<byte>, end: nat, prefix: seq<byte>)
    requires Delimited(f, wire, end) && prefix <= wire
    ensures f.Complete(prefix) <==> |prefix| >= end
    ensures |prefix| >= end ==> f.Trim(prefix) == wire[..end]
  {
    if f.proto.Ascii? {
      assert forall e: nat :: CrlfBefore(prefix, e) ==> CrlfBefore(wire, e);
      if |prefix| >= end {
        assert CrlfBefore(prefix, end);
      }
    }
    if |prefix| >= end {
      assert Truncate(prefix, end) == prefix[..end] == wire[..end];
    }
  }

  lemma {:induction false} JoinedGrows(script: nat -> ReadEvent, start: nat, few: nat, many: nat)
    requires few <= many
    ensures Joined(script, start, few) <= Joined(script, start, many)
  {
    if few < many {
      JoinedGrows(script, start, few, many - 1);
    }
  }

  /**
   * However a framed stream is cut into reads, the call answers exactly its first frame when the
   * read that completes the frame stays within the limit, and refuses the frame otherwise.
   */
  lemma Reassembled(script: nat -> ReadEvent, start: nat, m: nat, f: Framing, end: nat,
                    n: nat, answer: Result<seq<byte>, ReadError>)
    requires m >= 1 && AllDeliver(script, start, m)
    requires Framed(f, Joined(script, start, m), end)
    requires |Joined(script, start, m - 1)| < end
    requires Ends(script, start, n, f, answer)
    ensures |Joined(script, start, m)| <= Longest(f.proto) ==>
              n == m && answer == Ok(Joined(script, start, m)[..end])
    ensures |Joined(script, start, m)| > Longest(f.proto) ==>
              n <= m && answer == Err(FrameExceeded(Longest(f.proto)))
  {
    var wire := Joined(script, start, m);
    FramedIsDelimited(f, wire, end);
    if n > m {
      assert !f.Complete(Joined(script, start, m));
      PrefixComplete(f, wire, end, wire);
      assert false;
    }
    JoinedGrows(script, start, n, m);
    PrefixComplete(f, wire, end, Joined(script, start, n));
    assert Nth(script, start, n).Delivers();
    if n < m {
      JoinedGrows(script, start, n, m - 1);
    }
  }

  /** Two ways of cutting one framed stream into reads give the same answer. */
  lemma ChunkingIrrelevant(wire: seq<byte>, end: nat, f: Framing,
                           script: nat -> ReadEvent, m: nat, answer: Result<seq<byte>, ReadError>,
                           other: nat -> ReadEvent, m': nat, answer': Result<seq<byte>, ReadError>,
                           n: nat, n': nat)
    requires Framed(f, wire, end) && |wire| <= Longest(f.proto)
    requires m >= 1 && AllDeliver(script, 0, m)
    requires m' >= 1 && AllDeliver(other, 0, m')
    requires Joined(script, 0, m) <= wire && |Joined(script, 0, m - 1)| < end <= |Joined(script, 0, m)|
    requires Joined(other, 0, m') <= wire && |Joined(other, 0, m' - 1)| < end <= |Joined(other, 0, m')|
    requires Ends(script, 0, n, f, answer) && Ends(other, 0, n', f, answer')
    ensures answer == answer' == Ok(wire[..end])
  {
    FramedPrefix(f, wire, end, Joined(script, 0, m));
    FramedPrefix(f, wire, end, Joined(other, 0, m'));
    Reassembled(script, 0, m, f, end, n, answer);
    Reassembled(other, 0, m', f, end, n', answer');
  }

  lemma FramedPrefix(f: Framing, wire: seq<byte>, end: nat, prefix: seq<byte>)
    requires Framed(f, wire, end) && prefix <= wire && end <= |prefix|
    ensures Framed(f, prefix, end) && prefix[..end] == wire[..end]
  {
    if f.proto.Ascii? {
      assert forall i: nat | i < end - 1 :: CrlfAt(prefix, i) <==> CrlfAt(wire, i);
    }
  }

  /**
   * A peer that closes, or reads nothing, after part of a frame still gives a success: the answer
   * is a complete frame exactly when the last read brought bytes and, for RTU with a guess that
   * settles, when that guess is no shorter than the shortest frame.
   */
  lemma PartialFrameAccepted(script: nat -> ReadEvent, start: nat, n: nat, f: Framing, guessed: byte,
                             answer: Result<seq<byte>, ReadError>)
    requires Ends(script, start, n, f, answer) && answer.Ok?
    requires f.proto.Rtu? ==> GuessSettles(f.guess, Joined(script, start, n), guessed)
    ensures f.Complete(answer.value) <==>
              Nth(script, start, n).Delivers() && (f.proto.Rtu? ==> guessed >= MinGuessLen(Rtu))
  {
    var all := Joined(script, start, n);
    if !Nth(script, start, n).Delivers() {
      assert all == Joined(script, start, n - 1);
    }
    assert f.Complete(all) <==> Nth(script, start, n).Delivers();
    if f.proto.Rtu? {
      TrimmedGuess(f, all, guessed);
    } else {
      TrimKeepsCompleteness(f, all);
    }
  }

  lemma TrimmedGuess(f: Framing, frame: seq<byte>, guessed: byte)
    requires f.proto.Rtu? && GuessSettles(f.guess, frame, guessed)
    ensures f.Complete(f.Trim(frame)) <==> f.Complete(frame) && guessed >= MinGuessLen(Rtu)
  {
    assert f.Trim(frame) <= frame;
  }

  lemma TrimKeepsCompleteness(f: Framing, frame: seq<byte>)
    requires !f.proto.Rtu?
    ensures f.Complete(f.Trim(frame)) <==> f.Complete(frame)
  {
    var trimmed := f.Trim(frame);
    assert trimmed <= frame;
    if f.proto.Ascii? && AsciiFrameEnd(frame).Some? {
      var end := AsciiFrameEnd(frame).value;
      assert forall e: nat :: CrlfBefore(trimmed, e) ==> CrlfBefore(frame, e);
      assert CrlfBefore(trimmed, end);
    }
  }

  predicate Foreign(proto: Proto, bytes: seq<byte>) {
    match proto
    case TcpUdp => |bytes| >= 4 && FromBigEndian(bytes[2], bytes[3]) != 0
    case Ascii => |bytes| >= 1 && bytes[0] != COLON
    case Rtu => false
  }

  /** A stream with another protocol id, or without the colon, is never taken to be complete. */
  lemma ForeignStreamNeverCompletes(script: nat -> ReadEvent, start: nat, n: nat, f: Framing,
                                    answer: Result<seq<byte>, ReadError>)
    requires Ends(script, start, n, f, answer)
    requires Foreign(f.proto, Joined(script, start, n))
    ensures answer.Ok? ==> !Nth(script, start, n).Delivers()
    ensures answer.Ok? && f.proto.TcpUdp? ==> answer.value == Joined(script, start, n)
  {
  }
}
