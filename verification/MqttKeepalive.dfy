/**
 * The keepalive of an MQTT session: the activity clock and the ping flag, against a log of what
 * was read and written when. Instants are milliseconds of a monotone clock. Every caller discards
 * a session whose read or send failed, so a run ends at its first failure.
 */
module MqttKeepalive {
  import opened Wrappers
  import opened Widths

  datatype Failure = KeepaliveTimedOut | StreamLost | WriteFailed | ProtocolError

  /** What the protocol library asks for while a packet is sent or received. */
  datatype Event = WritePacket(at: nat, ok: bool) | PacketReceived | Fault

  datatype Traffic = BytesArrived(at: nat) | PacketWritten(at: nat) | PingWritten(at: nat)

  datatype Step =
    | Bytes(at: nat, events: seq<Event>)      // a read returned bytes
    | Idle(at: nat, pingAt: nat, ok: bool)    // a read timed out; the ping write, if one is due
    | Send(events: seq<Event>)                // a request is sent
    | Lost                                    // the stream closed or failed

  datatype Session = Session(lastActivity: nat, awaitingPingresp: bool, log: seq<Traffic>, failure: Option<Failure>)

  function Started(now: nat): Session {
    Session(now, false, [], None)
  }

  function Handled(s: Session, events: seq<Event>): Session
    decreases |events|
  {
    if events == [] then s
    else match events[0]
      case WritePacket(at, true) => Handled(s.(lastActivity := at, log := s.log + [PacketWritten(at)]), events[1..])
      case WritePacket(at, false) => s.(failure := Some(WriteFailed))
      case PacketReceived => Handled(s, events[1..])
      case Fault => s.(failure := Some(ProtocolError))
  }

  predicate PingDue(keepalive: Option<uint16>, s: Session, now: nat) {
    keepalive.Some? && keepalive.value > 0 && now - s.lastActivity >= keepalive.value * 1000
  }

  function After(keepalive: Option<uint16>, s: Session, step: Step): Session {
    match step
    case Lost => s.(failure := Some(StreamLost))
    case Send(events) => Handled(s, events)
    case Bytes(at, events) =>
      Handled(s.(lastActivity := at, awaitingPingresp := false, log := s.log + [BytesArrived(at)]), events)
    case Idle(at, pingAt, ok) =>
      if !PingDue(keepalive, s, at) then s
      else if s.awaitingPingresp then s.(failure := Some(KeepaliveTimedOut))
      else if !ok then s.(awaitingPingresp := true, failure := Some(WriteFailed))
      else s.(awaitingPingresp := true, lastActivity := pingAt, log := s.log + [PingWritten(pingAt)])
  }

  class ClientSession {
    const keepaliveSecs: Option<uint16>
    var lastActivity: nat
    var awaitingPingresp: bool
    ghost var log: seq<Traffic>
    ghost var failure: Option<Failure>

    constructor (keepaliveSecs: Option<uint16>, now: nat)
      ensures this.keepaliveSecs == keepaliveSecs && State() == Started(now)
    {
      this.keepaliveSecs, lastActivity, awaitingPingresp := keepaliveSecs, now, false;
      log, failure := [], None;
    }

    ghost function State(): Session
      reads this
    {
      Session(lastActivity, awaitingPingresp, log, failure)
    }

    method HandleConnectionEvents(events: seq<Event>) returns (r: Result<(), Failure>)
      requires failure.None?
      modifies this
      ensures State() == Handled(old(State()), events)
      ensures r == if failure.Some? then Err(failure.value) else Ok(())
    {
      for i := 0 to |events|
        invariant failure.None? && Handled(State(), events[i..]) == Handled(old(State()), events)
      {
        assert events[i..][1..] == events[i + 1..];
        match events[i] {
          case WritePacket(at, true) =>
            lastActivity := at;
            log := log + [PacketWritten(at)];
          case WritePacket(at, false) =>
            failure := Some(WriteFailed);
            return Err(WriteFailed);
          case PacketReceived =>
          case Fault =>
            failure := Some(ProtocolError);
            return Err(ProtocolError);
        }
      }
      r := Ok(());
    }

    /** One read of the session; `arrival` says what the stream did. */
    method ReadFromSession(arrival: Step) returns (r: Result<(), Failure>)
      requires failure.None? && !arrival.Send?
      modifies this
      ensures State() == After(keepaliveSecs, old(State()), arrival)
      ensures r == if failure.Some? then Err(failure.value) else Ok(())
    {
      match arrival {
        case Lost =>
          failure := Some(StreamLost);
          return Err(StreamLost);
        case Bytes(at, events) =>
          lastActivity := at;
          awaitingPingresp := false;
          log := log + [BytesArrived(at)];
          r := HandleConnectionEvents(events);
        case Idle(at, pingAt, ok) =>
          r := SendKeepalivePingIfDue(at, pingAt, ok);
      }
    }

    method SendKeepalivePingIfDue(now: nat, pingAt: nat, ok: bool) returns (r: Result<(), Failure>)
      requires failure.None?
      modifies this
      ensures State() == After(keepaliveSecs, old(State()), Idle(now, pingAt, ok))
      ensures r == if failure.Some? then Err(failure.value) else Ok(())
    {
      if keepaliveSecs.None? || keepaliveSecs.value == 0 || now - lastActivity < keepaliveSecs.value * 1000 {
        return Ok(());
      }
      if awaitingPingresp {
        failure := Some(KeepaliveTimedOut);
        return Err(KeepaliveTimedOut);
      }
      awaitingPingresp := true;
      if !ok {
        failure := Some(WriteFailed);
        return Err(WriteFailed);
      }
      lastActivity := pingAt;
      log := log + [PingWritten(pingAt)];
      r := Ok(());
    }
  }

  // ----- runs -----

  function Run(keepalive: Option<uint16>, start: nat, steps: seq<Step>): Session {
    if steps == [] then Started(start)
    else
      var s := Run(keepalive, start, DropLast(steps));
      if s.failure.Some? then s else After(keepalive, s, Last(steps))
  }

  /** PINGREQs written since the last byte arrived. */
  function Outstanding(log: seq<Traffic>): nat {
    if log == [] || Last(log).BytesArrived? then 0
    else Outstanding(DropLast(log)) + if Last(log).PingWritten? then 1 else 0
  }

  /** When the last traffic in either direction was. */
  function LastTraffic(log: seq<Traffic>, start: nat): nat {
    if log == [] then start else Last(log).at
  }

  /** The session's two fields say exactly what the log says. */
  predicate Sound(s: Session, start: nat) {
    && s.lastActivity == LastTraffic(s.log, start)
    && Outstanding(s.log) <= 1
    && (s.failure.None? ==> (s.awaitingPingresp <==> Outstanding(s.log) == 1))
  }

  lemma {:induction false} HandledSound(s: Session, events: seq<Event>, start: nat)
    requires Sound(s, start) && s.failure.None?
    ensures Sound(Handled(s, events), start)
    ensures Outstanding(Handled(s, events).log) == Outstanding(s.log)
    decreases |events|
  {
    if events != [] {
      match events[0] {
        case WritePacket(at, true) =>
          var next := s.(lastActivity := at, log := s.log + [PacketWritten(at)]);
          assert DropLast(next.log) == s.log;
          HandledSound(next, events[1..], start);
        case PacketReceived => HandledSound(s, events[1..], start);
        case _ =>
      }
    }
  }

  /** Over every run of reads, timeouts and sends, at most one PINGREQ is outstanding. */
  lemma {:induction false} AtMostOnePing(keepalive: Option<uint16>, start: nat, steps: seq<Step>)
    ensures Sound(Run(keepalive, start, steps), start)
  {
    if steps != [] {
      AtMostOnePing(keepalive, start, DropLast(steps));
      var s := Run(keepalive, start, DropLast(steps));
      if s.failure.None? {
        match Last(steps) {
          case Send(events) => HandledSound(s, events, start);
          case Bytes(at, events) =>
            HandledSound(s.(lastActivity := at, awaitingPingresp := false, log := s.log + [BytesArrived(at)]), events, start);
          case Idle(at, pingAt, ok) =>
            assert DropLast(s.log + [PingWritten(pingAt)]) == s.log;
          case Lost =>
        }
      }
    }
  }

  // ----- the log is the traffic of the steps -----

  /** The packets written while the events are handled, up to the first that fails. */
  function WrittenIn(events: seq<Event>): seq<Traffic>
    decreases |events|
  {
    if events == [] then []
    else match events[0]
      case WritePacket(at, ok) => if ok then [PacketWritten(at)] + WrittenIn(events[1..]) else []
      case PacketReceived => WrittenIn(events[1..])
      case Fault => []
  }

  /** What a step reads and writes besides a PINGREQ. */
  function TrafficIn(step: Step): seq<Traffic> {
    match step
    case Bytes(at, events) => [BytesArrived(at)] + WrittenIn(events)
    case Send(events) => WrittenIn(events)
    case _ => []
  }

  function TrafficOf(steps: seq<Step>): seq<Traffic> {
    if steps == [] then [] else TrafficOf(DropLast(steps)) + TrafficIn(Last(steps))
  }

  function WithoutPings(log: seq<Traffic>): seq<Traffic> {
    if log == [] then []
    else WithoutPings(DropLast(log)) + if Last(log).PingWritten? then [] else [Last(log)]
  }

  predicate PingFree(traffic: seq<Traffic>) {
    forall i | 0 <= i < |traffic| :: !traffic[i].PingWritten?
  }

  lemma {:induction false} WithoutPingsAppend(log: seq<Traffic>, more: seq<Traffic>)
    requires PingFree(more)
    ensures WithoutPings(log + more) == WithoutPings(log) + more
  {
    if more == [] {
      assert log + more == log && WithoutPings(log) + more == WithoutPings(log);
    } else {
      var before, all := DropLast(more), log + more;
      WithoutPingsAppend(log, before);
      assert DropLast(all) == log + before && Last(all) == Last(more);
      assert WithoutPings(log) + before + [Last(more)] == WithoutPings(log) + more;
    }
  }

  lemma {:induction false} HandledWrites(s: Session, events: seq<Event>)
    ensures Handled(s, events).log == s.log + WrittenIn(events)
    ensures PingFree(WrittenIn(events))
    decreases |events|
  {
    if events != [] {
      match events[0] {
        case WritePacket(at, true) =>
          HandledWrites(s.(lastActivity := at, log := s.log + [PacketWritten(at)]), events[1..]);
        case PacketReceived => HandledWrites(s, events[1..]);
        case _ =>
      }
    }
  }

  lemma StepLogs(keepalive: Option<uint16>, s: Session, step: Step)
    ensures WithoutPings(After(keepalive, s, step).log) == WithoutPings(s.log) + TrafficIn(step)
  {
    match step {
      case Bytes(at, events) =>
        var read := s.(lastActivity := at, awaitingPingresp := false, log := s.log + [BytesArrived(at)]);
        HandledWrites(read, events);
        assert read.log + WrittenIn(events) == s.log + TrafficIn(step);
        WithoutPingsAppend(s.log, TrafficIn(step));
      case Send(events) =>
        HandledWrites(s, events);
        WithoutPingsAppend(s.log, TrafficIn(step));
      case Idle(at, pingAt, ok) =>
        PingDropped(s.log, pingAt);
      case Lost =>
    }
  }

  lemma PingDropped(log: seq<Traffic>, at: nat)
    ensures WithoutPings(log + [PingWritten(at)]) == WithoutPings(log)
  {
    assert DropLast(log + [PingWritten(at)]) == log;
  }

  /** Over every run the log holds, in order, every byte arrival and packet write of its steps, and pings besides. */
  lemma {:induction false} LogIsTraffic(keepalive: Option<uint16>, start: nat, steps: seq<Step>)
    requires steps == [] || Run(keepalive, start, DropLast(steps)).failure.None?
    ensures WithoutPings(Run(keepalive, start, steps).log) == TrafficOf(steps)
  {
    if steps != [] {
      EarlierUnfailed(keepalive, start, DropLast(steps));
      LogIsTraffic(keepalive, start, DropLast(steps));
      StepLogs(keepalive, Run(keepalive, start, DropLast(steps)), Last(steps));
    }
  }

  lemma EarlierUnfailed(keepalive: Option<uint16>, start: nat, steps: seq<Step>)
    requires Run(keepalive, start, steps).failure.None?
    ensures steps == [] || Run(keepalive, start, DropLast(steps)).failure.None?
  {
  }

  predicate Ordered(log: seq<Traffic>) {
    forall i, j :: 0 <= i < j < |log| ==> log[i].at <= log[j].at
  }

  /** The position of an outstanding PINGREQ: written, and no byte arrived since. */
  predicate UnansweredAt(log: seq<Traffic>, i: nat) {
    i < |log| && log[i].PingWritten? && forall j :: i < j < |log| ==> !log[j].BytesArrived?
  }

  lemma {:induction false} OutstandingPing(log: seq<Traffic>) returns (i: nat)
    requires Outstanding(log) == 1
    ensures UnansweredAt(log, i)
  {
    if Last(log).PingWritten? {
      i := |log| - 1;
    } else {
      i := OutstandingPing(DropLast(log));
    }
  }

  lemma {:induction false} UnansweredCounts(log: seq<Traffic>, i: nat)
    requires UnansweredAt(log, i)
    ensures Outstanding(log) >= 1
  {
    if i < |log| - 1 {
      assert UnansweredAt(DropLast(log), i);
      UnansweredCounts(DropLast(log), i);
    }
  }

  /**
   * The keepalive error, exactly: after any failure-free run, a timed-out read raises it if and
   * only if keepalive is on, some PINGREQ has seen no byte since it was written, and the interval
   * has passed since the last traffic.
   */
  lemma KeepaliveErrorExactly(keepalive: Option<uint16>, start: nat, steps: seq<Step>, at: nat, pingAt: nat, ok: bool)
    requires Run(keepalive, start, steps).failure.None?
    ensures var s := Run(keepalive, start, steps);
            Run(keepalive, start, steps + [Idle(at, pingAt, ok)]).failure == Some(KeepaliveTimedOut) <==>
              && keepalive.Some? && keepalive.value > 0
              && at - LastTraffic(s.log, start) >= keepalive.value * 1000
              && exists i :: UnansweredAt(s.log, i)
  {
    var s := Run(keepalive, start, steps);
    AtMostOnePing(keepalive, start, steps);
    assert DropLast(steps + [Idle(at, pingAt, ok)]) == steps;
    if s.awaitingPingresp {
      var i := OutstandingPing(s.log);
    }
    forall i | UnansweredAt(s.log, i) {
      UnansweredCounts(s.log, i);
    }
  }

  /**
   * The ping, exactly: after any failure-free run, a timed-out read tries to write a PINGREQ if and
   * only if keepalive is on, the interval has passed since the last traffic and none is unanswered.
   */
  lemma PingExactly(keepalive: Option<uint16>, start: nat, steps: seq<Step>, at: nat, pingAt: nat, ok: bool)
    requires Run(keepalive, start, steps).failure.None?
    ensures var s, after := Run(keepalive, start, steps), Run(keepalive, start, steps + [Idle(at, pingAt, ok)]);
            var due := && keepalive.Some? && keepalive.value > 0
                       && at - LastTraffic(s.log, start) >= keepalive.value * 1000
                       && !exists i :: UnansweredAt(s.log, i);
            && after.log == (if due && ok then s.log + [PingWritten(pingAt)] else s.log)
            && (after.failure == Some(WriteFailed) <==> due && !ok)
  {
    var s := Run(keepalive, start, steps);
    AtMostOnePing(keepalive, start, steps);
    assert DropLast(steps + [Idle(at, pingAt, ok)]) == steps;
    if s.awaitingPingresp {
      var i := OutstandingPing(s.log);
    }
    forall i | UnansweredAt(s.log, i) {
      UnansweredCounts(s.log, i);
    }
  }

  /** Handling stops with the failure of the first write that fails or the first protocol error. */
  lemma {:induction false} HandlingFailsExactly(s: Session, events: seq<Event>, i: nat)
    requires s.failure.None? && i <= |events|
    requires forall j | 0 <= j < i :: !events[j].Fault? && (events[j].WritePacket? ==> events[j].ok)
    ensures i == |events| ==> Handled(s, events).failure == None
    ensures i < |events| && events[i].Fault? ==> Handled(s, events).failure == Some(ProtocolError)
    ensures i < |events| && events[i].WritePacket? && !events[i].ok ==> Handled(s, events).failure == Some(WriteFailed)
    decreases |events|
  {
    if i > 0 {
      var rest := events[1..];
      assert forall j | 0 <= j < i - 1 :: rest[j] == events[j + 1];
      match events[0] {
        case WritePacket(at, _) =>
          HandlingFailsExactly(s.(lastActivity := at, log := s.log + [PacketWritten(at)]), rest, i - 1);
        case PacketReceived => HandlingFailsExactly(s, rest, i - 1);
      }
    }
  }

  /** A closed or failed stream fails the session. */
  lemma LostFails(keepalive: Option<uint16>, start: nat, steps: seq<Step>)
    requires Run(keepalive, start, steps).failure.None?
    ensures Run(keepalive, start, steps + [Lost]).failure == Some(StreamLost)
  {
    assert DropLast(steps + [Lost]) == steps;
  }

  /** When the error is raised, the interval has passed since the unanswered PINGREQ was written. */
  lemma KeepaliveErrorJustified(keepalive: Option<uint16>, start: nat, steps: seq<Step>, at: nat, pingAt: nat, ok: bool)
    returns (i: nat)
    requires Run(keepalive, start, steps).failure.None? && Ordered(Run(keepalive, start, steps).log)
    requires Run(keepalive, start, steps + [Idle(at, pingAt, ok)]).failure == Some(KeepaliveTimedOut)
    ensures var log := Run(keepalive, start, steps).log;
            UnansweredAt(log, i) && at - log[i].at >= keepalive.GetOr(0) * 1000 > 0
  {
    KeepaliveErrorExactly(keepalive, start, steps, at, pingAt, ok);
    AtMostOnePing(keepalive, start, steps);
    var s := Run(keepalive, start, steps);
    assert DropLast(steps + [Idle(at, pingAt, ok)]) == steps;
    i := OutstandingPing(s.log);
    assert s.log[i].at <= Last(s.log).at;
  }

  /** No other step raises the keepalive error. */
  lemma {:induction false} OnlyIdleTimesOut(s: Session, events: seq<Event>)
    requires s.failure != Some(KeepaliveTimedOut)
    ensures Handled(s, events).failure != Some(KeepaliveTimedOut)
    decreases |events|
  {
    if events != [] {
      match events[0] {
        case WritePacket(at, true) =>
          OnlyIdleTimesOut(s.(lastActivity := at, log := s.log + [PacketWritten(at)]), events[1..]);
        case PacketReceived => OnlyIdleTimesOut(s, events[1..]);
        case _ =>
      }
    }
  }
}
