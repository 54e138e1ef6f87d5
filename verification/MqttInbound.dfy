/**
 * Correlating inbound MQTT packets with the commands that caused them: the packet-id table and
 * the reply-route table, each proved to be a function of the history of records and arrivals.
 */
module MqttInbound {
  import opened Wrappers
  import opened Widths
  import opened TransportMetas
  import opened Commands
  import opened MqttPackets
  import MqttMetas

  datatype DeliveryState = Accepted | Dispatched | Completed | Rejected

  datatype Reason = Reason(failure: bool, text: string)

  datatype AckKind = Puback | Pubrec | Pubrel | Pubcomp | Suback | Unsuback

  datatype Packet =
    | PublishIn(version: Version, topic: string, qos: byte, retain: bool, dup: bool, packetId: Option<uint16>,
                payload: seq<byte>, props: Properties)
    | Ack(kind: AckKind, version: Version, id: uint16, reasons: seq<Reason>, reasonString: Option<string>)
    | Disconnect(normal: bool, reason: Option<string>, reasonString: Option<string>)
    | Auth(code: Option<Reason>, reasonString: Option<string>)
    | OtherPacket

  datatype RoutedResult = RoutedResult(
    commandId: CommandId,
    deviceId: string,
    state: DeliveryState,
    payload: Option<PayloadValue>,
    error: Option<string>,
    correlation: Option<Correlation>,
    transport: Option<Capture>)

  datatype RoutedEvent = RoutedEvent(
    deviceId: string, topic: string, payload: PayloadValue, correlation: Option<Correlation>, transport: Capture)

  datatype Decoded = Ignored | EventDecoded(event: RoutedEvent) | ResultDecoded(result: RoutedResult)

  datatype ReplyRoute = ReplyRoute(commandId: CommandId, replyTo: Option<Address>)

  /** Text conversions the decoder calls into: lossy and strict UTF-8 decoding, encoding, and number printing. */
  datatype TextCodec = TextCodec(
    lossy: seq<byte> -> string,
    strict: seq<byte> -> Option<string>,
    utf8: string -> seq<byte>,
    number: uint16 -> string)

  // ----- property scans -----

  function FirstProp<T>(props: Properties, pick: Property -> Option<T>): Option<T> {
    if props == [] then None else OrElse(pick(props[0]), FirstProp(props[1..], pick))
  }

  function LastProp<T>(props: Properties, pick: Property -> Option<T>): Option<T> {
    if props == [] then None else OrElse(pick(Last(props)), LastProp(DropLast(props), pick))
  }

  function AllProps<T>(props: Properties, pick: Property -> Option<T>): seq<T> {
    if props == [] then []
    else AllProps(DropLast(props), pick) + if pick(Last(props)).Some? then [pick(Last(props)).value] else []
  }

  function PickCorrelation(p: Property): Option<seq<byte>> {
    if p.CorrelationData? then Some(p.data) else None
  }

  function PickResponseTopic(p: Property): Option<string> {
    if p.ResponseTopic? then Some(p.topic) else None
  }

  function PickContentType(p: Property): Option<string> {
    if p.ContentType? then Some(p.contentType) else None
  }

  function PickFormat(p: Property): Option<MqttMetas.PayloadFormat> {
    if p.PayloadFormatIndicator? then Some(p.format) else None
  }

  function PickExpiry(p: Property): Option<uint32> {
    if p.MessageExpiryInterval? then Some(p.seconds) else None
  }

  function PickAlias(p: Property): Option<uint16> {
    if p.TopicAlias? then Some(p.alias) else None
  }

  function PickIdentifier(p: Property): Option<uint32> {
    if p.SubscriptionIdentifier? then Some(p.identifier) else None
  }

  function PickUser(p: Property): Option<Header> {
    if p.UserProperty? then Some(Header(p.key, p.value)) else None
  }

  /** The scan of a property list that keeps the last match in a local. */
  method ScanLast<T>(props: Properties, pick: Property -> Option<T>) returns (found: Option<T>)
    ensures found == LastProp(props, pick)
  {
    found := None;
    for i := 0 to |props|
      invariant found == LastProp(props[..i], pick)
    {
      assert DropLast(props[..i + 1]) == props[..i];
      var picked := pick(props[i]);
      if picked.Some? {
        found := picked;
      }
    }
    assert props[..|props|] == props;
  }

  /** The scan that stops at the first match. */
  method ScanFirst<T>(props: Properties, pick: Property -> Option<T>) returns (found: Option<T>)
    ensures found == FirstProp(props, pick)
  {
    for i := 0 to |props|
      invariant FirstProp(props, pick) == FirstProp(props[i..], pick)
    {
      assert props[i..][1..] == props[i + 1..];
      var picked := pick(props[i]);
      if picked.Some? {
        return picked;
      }
    }
    found := None;
  }

  // ----- what packets say -----

  function PacketIdOf(packet: WirePacket): Option<uint16> {
    match packet
    case PublishPacket(_, _, _, _, _, id, _, _) => id
    case SubscribePacket(_, id, _, _) => Some(id)
    case UnsubscribePacket(_, id, _, _) => Some(id)
  }

  /** The session gives QoS 1 and 2 publishes and every subscription request a fresh packet id. */
  function AssignPacketId(request: PacketRequest, id: uint16): PacketRequest {
    match request.packet
    case PublishPacket(_, _, qos, _, _, _, _, _) =>
      if qos.AtMostOnceQos? then request else request.(packet := request.packet.(packetId := Some(id)))
    case SubscribePacket(version, _, entries, props) => request.(packet := SubscribePacket(version, id, entries, props))
    case UnsubscribePacket(version, _, filters, props) =>
      request.(packet := UnsubscribePacket(version, id, filters, props))
  }

  /** The correlation key and reply route an outbound request registers, if any. */
  function RouteOf(codec: TextCodec, request: PacketRequest): Option<(string, ReplyRoute)> {
    if !request.packet.PublishPacket? || request.packet.version.V3? then None
    else
      var data := LastProp(request.packet.props, PickCorrelation);
      var topic := LastProp(request.packet.props, PickResponseTopic);
      if data.None? then None
      else Some((codec.lossy(data.value),
                 ReplyRoute(request.commandId, if topic.Some? then Some(Channel(topic.value)) else None)))
  }

  /** The correlation key an inbound publish answers to, if any. */
  function ReplyKey(codec: TextCodec, packet: Packet): Option<string> {
    if !packet.PublishIn? || packet.version.V3? then None
    else
      var data := FirstProp(packet.props, PickCorrelation);
      if data.Some? then Some(codec.lossy(data.value)) else None
  }

  /** Acknowledgements that end an exchange and give up the packet id. */
  predicate Terminal(kind: AckKind) {
    kind.Puback? || kind.Pubcomp? || kind.Suback? || kind.Unsuback?
  }

  function Failures(reasons: seq<Reason>): seq<string> {
    if reasons == [] then []
    else (if reasons[0].failure then [reasons[0].text] else []) + Failures(reasons[1..])
  }

  function Join(texts: seq<string>): string {
    if texts == [] then "" else if |texts| == 1 then texts[0] else texts[0] + "," + Join(texts[1..])
  }

  function AckState(packet: Packet): DeliveryState
    requires packet.Ack?
  {
    if packet.version.V5? && Failures(packet.reasons) != [] then Rejected
    else if Terminal(packet.kind) then Completed else Dispatched
  }

  function ResultMeta(id: Option<uint16>, reasons: seq<string>, reasonString: Option<string>): Capture {
    MqttMetas.Encode(MqttMetas.DEFAULT.(packetId := id, reasonCodes := reasons, reasonString := reasonString))
  }

  function AckResult(codec: TextCodec, deviceId: string, command: Option<CommandId>, packet: Packet): RoutedResult
    requires packet.Ack?
  {
    var id := command.GetOr(codec.number(packet.id));
    if packet.version.V3? then
      RoutedResult(id, deviceId, AckState(packet), None, None, None, None)
    else
      var failures := Failures(packet.reasons);
      RoutedResult(id, deviceId, AckState(packet), None, if failures == [] then None else Some(Join(failures)), None,
                   Some(ResultMeta(Some(packet.id), Map((r: Reason) => r.text, packet.reasons), packet.reasonString)))
  }

  function PublishMeta(packet: Packet, correlation: Option<seq<byte>>): Capture
    requires packet.PublishIn?
  {
    var props := if packet.version.V5? then packet.props else [];
    var user := AllProps(props, PickUser);
    MqttMetas.Encode(MqttMetas.DEFAULT.(
      topic := Some(packet.topic), qos := Some(packet.qos), retain := packet.retain, duplicate := packet.dup,
      packetId := packet.packetId, contentType := LastProp(props, PickContentType),
      payloadFormat := LastProp(props, PickFormat), messageExpiryIntervalSecs := LastProp(props, PickExpiry),
      responseTopic := LastProp(props, PickResponseTopic), correlationData := correlation,
      topicAlias := LastProp(props, PickAlias), subscriptionIdentifiers := AllProps(props, PickIdentifier),
      headers := if user == [] then None else Some(user)))
  }

  function PayloadOf(codec: TextCodec, bytes: seq<byte>, format: Option<MqttMetas.PayloadFormat>): PayloadValue {
    var text := codec.strict(bytes);
    if format == Some(MqttMetas.Utf8Format) && text.Some? then StringValue(text.value) else BytesValue(bytes)
  }

  function EventOf(codec: TextCodec, deviceId: string, packet: Packet): RoutedEvent
    requires packet.PublishIn?
  {
    if packet.version.V3? then
      RoutedEvent(deviceId, packet.topic, BytesValue(packet.payload), None, PublishMeta(packet, None))
    else
      var data := LastProp(packet.props, PickCorrelation);
      var topic := LastProp(packet.props, PickResponseTopic);
      var replyTo := if topic.Some? then Some(Channel(topic.value)) else None;
      RoutedEvent(deviceId, packet.topic, PayloadOf(codec, packet.payload, LastProp(packet.props, PickFormat)),
                  if data.Some? || replyTo.Some?
                  then Some(Correlation(if data.Some? then codec.lossy(data.value) else "", replyTo)) else None,
                  PublishMeta(packet, data))
  }

  function ReplyResult(codec: TextCodec, deviceId: string, key: string, route: ReplyRoute, packet: Packet): RoutedResult
    requires packet.PublishIn?
  {
    RoutedResult(route.commandId, deviceId, Completed,
                 Some(PayloadOf(codec, packet.payload, FirstProp(packet.props, PickFormat))), None,
                 Some(Correlation(route.commandId, route.replyTo)), Some(PublishMeta(packet, Some(codec.utf8(key)))))
  }

  function ControlResult(deviceId: string, id: CommandId, ok: DeliveryState, failed: bool, reason: Option<string>,
                         reasonString: Option<string>): RoutedResult
  {
    RoutedResult(id, deviceId, if failed then Rejected else ok, None, if failed then reason else None, None,
                 Some(ResultMeta(None, if reason.Some? then [reason.value] else [], reasonString)))
  }

  // ----- histories -----

  datatype Step = Recorded(request: PacketRequest) | Arrived(packet: Packet)

  predicate RecordsId(step: Step, id: uint16) {
    step.Recorded? && PacketIdOf(step.request.packet) == Some(id)
  }

  predicate EndsId(step: Step, id: uint16) {
    step.Arrived? && step.packet.Ack? && Terminal(step.packet.kind) && step.packet.id == id
  }

  /** The position of the latest record under a packet id that no terminal acknowledgement followed. */
  function OpenIndex(history: seq<Step>, id: uint16): (i: Option<nat>)
    ensures i.Some? ==> i.value < |history| && RecordsId(history[i.value], id)
  {
    if history == [] then None
    else if RecordsId(Last(history), id) then Some(|history| - 1)
    else if EndsId(Last(history), id) then None
    else OpenIndex(DropLast(history), id)
  }

  function OpenCommand(history: seq<Step>, id: uint16): Option<CommandId> {
    var i := OpenIndex(history, id);
    if i.Some? then Some(history[i.value].request.commandId) else None
  }

  lemma OpenCommandStep(history: seq<Step>, step: Step, id: uint16)
    ensures OpenCommand(history + [step], id) ==
            if RecordsId(step, id) then Some(step.request.commandId)
            else if EndsId(step, id) then None else OpenCommand(history, id)
  {
    assert DropLast(history + [step]) == history;
  }

  predicate RecordsKey(codec: TextCodec, step: Step, key: string) {
    step.Recorded? && RouteOf(codec, step.request).Some? && RouteOf(codec, step.request).value.0 == key
  }

  predicate AnswersKey(codec: TextCodec, step: Step, key: string) {
    step.Arrived? && ReplyKey(codec, step.packet) == Some(key)
  }

  /** The route of the latest record under a correlation key that no publish with that key has answered. */
  function OpenRoute(codec: TextCodec, history: seq<Step>, key: string): Option<ReplyRoute> {
    if history == [] then None
    else if RecordsKey(codec, Last(history), key) then Some(RouteOf(codec, Last(history).request).value.1)
    else if AnswersKey(codec, Last(history), key) then None
    else OpenRoute(codec, DropLast(history), key)
  }

  /** What an arriving packet means after a history of records and arrivals. */
  function Meaning(codec: TextCodec, deviceId: string, history: seq<Step>, packet: Packet): Decoded {
    match packet
    case PublishIn(_, _, _, _, _, _, _, _) =>
      var key := ReplyKey(codec, packet);
      var route := if key.Some? then OpenRoute(codec, history, key.value) else None;
      if route.Some? then ResultDecoded(ReplyResult(codec, deviceId, key.value, route.value, packet))
      else EventDecoded(EventOf(codec, deviceId, packet))
    case Ack(_, _, id, _, _) => ResultDecoded(AckResult(codec, deviceId, OpenCommand(history, id), packet))
    case Disconnect(normal, reason, text) =>
      ResultDecoded(ControlResult(deviceId, "__mqtt_disconnect__", Completed, !normal && reason.Some?, reason, text))
    case Auth(code, text) =>
      ResultDecoded(ControlResult(deviceId, "__mqtt_auth__", Accepted, code.Some? && code.value.failure,
                                  if code.Some? then Some(code.value.text) else None, text))
    case OtherPacket => Ignored
  }

  class MqttInboundDecoder {
    const deviceId: string
    const codec: TextCodec
    var pendingCommandIds: map<uint16, CommandId>
    var pendingReplyRoutes: map<string, ReplyRoute>
    ghost var history: seq<Step>

    constructor (deviceId: string, codec: TextCodec)
      ensures Valid() && this.deviceId == deviceId && this.codec == codec && history == []
    {
      this.deviceId, this.codec := deviceId, codec;
      pendingCommandIds, pendingReplyRoutes, history := map[], map[], [];
    }

    /** Both tables say exactly what the history says. */
    ghost predicate Valid()
      reads this
    {
      && (forall id: uint16 :: Find(pendingCommandIds, id) == OpenCommand(history, id))
      && (forall key: string :: Find(pendingReplyRoutes, key) == OpenRoute(codec, history, key))
    }

    method PendingReplyRoute(request: PacketRequest) returns (route: Option<(string, ReplyRoute)>)
      ensures route == RouteOf(codec, request)
    {
      if !request.packet.PublishPacket? || request.packet.version.V3? {
        return None;
      }
      var data := ScanLast(request.packet.props, PickCorrelation);
      var topic := ScanLast(request.packet.props, PickResponseTopic);
      if data.None? {
        return None;
      }
      route := Some((codec.lossy(data.value),
                     ReplyRoute(request.commandId, if topic.Some? then Some(Channel(topic.value)) else None)));
    }

    method RecordOutboundRequest(request: PacketRequest)
      requires Valid()
      modifies this
      ensures Valid() && history == old(history) + [Recorded(request)]
    {
      var route := PendingReplyRoute(request);
      if route.Some? {
        pendingReplyRoutes := pendingReplyRoutes[route.value.0 := route.value.1];
      }
      var id := PacketIdOf(request.packet);
      if id.Some? {
        pendingCommandIds := pendingCommandIds[id.value := request.commandId];
      }
      history := history + [Recorded(request)];
      assert DropLast(history) == old(history);
      forall n: uint16
        ensures Find(pendingCommandIds, n) == OpenCommand(history, n)
      {
        assert Find(old(pendingCommandIds), n) == OpenCommand(old(history), n);
        OpenCommandStep(old(history), Recorded(request), n);
      }
    }

    method Decode(packet: Packet) returns (decoded: Decoded)
      requires Valid()
      modifies this
      ensures Valid() && history == old(history) + [Arrived(packet)]
      ensures decoded == Meaning(codec, deviceId, old(history), packet)
    {
      match packet {
        case PublishIn(version, _, _, _, _, _, _, props) =>
          decoded := DecodePublish(packet);
        case Ack(kind, _, id, _, _) =>
          decoded := ResultDecoded(AckResult(codec, deviceId, Find(pendingCommandIds, id), packet));
          if Terminal(kind) {
            pendingCommandIds := pendingCommandIds - {id};
          }
        case Disconnect(normal, reason, text) =>
          var failed := !normal && reason.Some?;
          decoded := ResultDecoded(ControlResult(deviceId, "__mqtt_disconnect__", Completed, failed, reason, text));
        case Auth(code, text) =>
          var failed := code.Some? && code.value.failure;
          var reason := if code.Some? then Some(code.value.text) else None;
          decoded := ResultDecoded(ControlResult(deviceId, "__mqtt_auth__", Accepted, failed, reason, text));
        case OtherPacket =>
          decoded := Ignored;
      }
      history := history + [Arrived(packet)];
      assert DropLast(history) == old(history);
      forall n: uint16
        ensures Find(pendingCommandIds, n) == OpenCommand(history, n)
      {
        assert Find(old(pendingCommandIds), n) == OpenCommand(old(history), n);
        OpenCommandStep(old(history), Arrived(packet), n);
      }
    }

    method DecodePublish(packet: Packet) returns (decoded: Decoded)
      requires Valid() && packet.PublishIn?
      modifies this`pendingReplyRoutes
      ensures decoded == Meaning(codec, deviceId, history, packet)
      ensures pendingReplyRoutes ==
              var key := ReplyKey(codec, packet);
              if key.Some? then old(pendingReplyRoutes) - {key.value} else old(pendingReplyRoutes)
    {
      if packet.version.V3? {
        return EventDecoded(EventOf(codec, deviceId, packet));
      }
      var data := ScanFirst(packet.props, PickCorrelation);
      if data.Some? {
        var key := codec.lossy(data.value);
        var route := Find(pendingReplyRoutes, key);
        pendingReplyRoutes := pendingReplyRoutes - {key};
        if route.Some? {
          return ResultDecoded(ReplyResult(codec, deviceId, key, route.value, packet));
        }
      }
      decoded := EventDecoded(EventOf(codec, deviceId, packet));
    }
  }

  // ----- packet-id exchanges -----

  /** Steps that leave a packet id's open record alone: PUBREC and PUBREL are among them. */
  predicate IdUntouched(steps: seq<Step>, id: uint16) {
    forall i :: 0 <= i < |steps| ==> !RecordsId(steps[i], id) && !EndsId(steps[i], id)
  }

  lemma {:induction false} OpenIndexUntouched(history: seq<Step>, steps: seq<Step>, id: uint16)
    requires IdUntouched(steps, id)
    ensures OpenIndex(history + steps, id) == OpenIndex(history, id)
  {
    if steps == [] {
      assert history + steps == history;
    } else {
      assert DropLast(history + steps) == history + DropLast(steps);
      OpenIndexUntouched(history, DropLast(steps), id);
    }
  }

  /** An open record is the last word on its id: nothing after it records or ends the id. */
  lemma {:induction false} OpenIndexIsLatest(history: seq<Step>, id: uint16)
    requires OpenIndex(history, id).Some?
    ensures IdUntouched(history[OpenIndex(history, id).value + 1..], id)
  {
    var i := OpenIndex(history, id).value;
    if i < |history| - 1 {
      OpenIndexIsLatest(DropLast(history), id);
      assert history[i + 1..] == DropLast(history)[i + 1..] + [Last(history)];
    }
  }

  /** No two terminal acknowledgements of a run resolve the same record. */
  lemma EachRecordEndsOnce(history: seq<Step>, j: nat, k: nat, id: uint16, other: uint16)
    requires j < k < |history| && EndsId(history[j], id) && EndsId(history[k], other)
    requires OpenIndex(history[..j], id).Some? && OpenIndex(history[..k], other).Some?
    ensures OpenIndex(history[..j], id) != OpenIndex(history[..k], other)
  {
    var i := OpenIndex(history[..k], other).value;
    OpenIndexIsLatest(history[..k], other);
    var since := history[..k][i + 1..];
    assert forall n :: i < n < k ==> since[n - i - 1] == history[n];
  }

  /** The step sends nothing under the packet id and brings no acknowledgement for it but PUBREC or PUBREL. */
  predicate LeavesId(step: Step, id: uint16) {
    match step
    case Recorded(request) =>
      (match request.packet
       case PublishPacket(_, _, _, _, _, own, _, _) => own != Some(id)
       case SubscribePacket(_, own, _, _) => own != id
       case UnsubscribePacket(_, own, _, _) => own != id)
    case Arrived(packet) => packet.Ack? && packet.id == id ==> packet.kind.Pubrec? || packet.kind.Pubrel?
  }

  lemma LeftUntouched(steps: seq<Step>, id: uint16)
    requires forall step <- steps :: LeavesId(step, id)
    ensures IdUntouched(steps, id)
  {
    forall i | 0 <= i < |steps|
      ensures !RecordsId(steps[i], id) && !EndsId(steps[i], id)
    {
      assert steps[i] in steps;
    }
  }

  /** The acknowledgement that ends the exchange a packet begins. */
  predicate Acknowledges(ack: Packet, packet: WirePacket)
    requires ack.Ack?
  {
    match packet
    case PublishPacket(_, _, qos, _, _, id, _, _) =>
      id == Some(ack.id) && ((qos.AtLeastOnceQos? && ack.kind.Puback?) || (qos.ExactlyOnceQos? && ack.kind.Pubcomp?))
    case SubscribePacket(_, id, _, _) => id == ack.id && ack.kind.Suback?
    case UnsubscribePacket(_, id, _, _) => id == ack.id && ack.kind.Unsuback?
  }

  /** An MQTT 5.0 acknowledgement that names a failure; MQTT 3.1.1 ones are taken for successes. */
  predicate Refuses(ack: Packet)
    requires ack.Ack?
  {
    ack.version.V5? && exists r <- ack.reasons :: r.failure
  }

  lemma {:induction false} FailuresEmpty(reasons: seq<Reason>)
    ensures Failures(reasons) == [] <==> forall r <- reasons :: !r.failure
  {
    if reasons != [] {
      FailuresEmpty(reasons[1..]);
      assert reasons == [reasons[0]] + reasons[1..];
    }
  }

  lemma RecordOpen(before: seq<Step>, request: PacketRequest, mid: seq<Step>, id: uint16)
    requires PacketIdOf(request.packet) == Some(id) && IdUntouched(mid, id)
    ensures OpenCommand(before + [Recorded(request)] + mid, id) == Some(request.commandId)
  {
    var recorded := before + [Recorded(request)];
    OpenIndexUntouched(recorded, mid, id);
    assert recorded[|before|] == Recorded(request) && (recorded + mid)[|before|] == Recorded(request);
  }

  /**
   * Every exchange ends with its own acknowledgement, whatever leaves its id alone in between: PUBACK
   * for QoS 1, PUBCOMP for QoS 2, SUBACK and UNSUBACK report the recorded command, completed or
   * refused; the id is then forgotten, and a repeated acknowledgement is reported under the printed id.
   */
  lemma AcknowledgementEnds(codec: TextCodec, deviceId: string, before: seq<Step>, request: PacketRequest,
                            mid: seq<Step>, ack: Packet, more: seq<Step>)
    requires ack.Ack? && Acknowledges(ack, request.packet)
    requires forall step <- mid + more :: LeavesId(step, ack.id)
    ensures var open := before + [Recorded(request)] + mid;
            var closed := open + [Arrived(ack)] + more;
            var first, again := Meaning(codec, deviceId, open, ack), Meaning(codec, deviceId, closed, ack);
            && first.ResultDecoded? && first.result.commandId == request.commandId
            && first.result.state == (if Refuses(ack) then Rejected else Completed)
            && (first.result.error.Some? <==> Refuses(ack))
            && OpenCommand(closed, ack.id) == None
            && again.ResultDecoded? && again.result.commandId == codec.number(ack.id)
  {
    assert forall step <- mid :: step in mid + more;
    assert forall step <- more :: step in mid + more;
    LeftUntouched(mid, ack.id);
    LeftUntouched(more, ack.id);
    RecordOpen(before, request, mid, ack.id);
    FailuresEmpty(ack.reasons);
    var open := before + [Recorded(request)] + mid;
    OpenCommandStep(open, Arrived(ack), ack.id);
    OpenIndexUntouched(open + [Arrived(ack)], more, ack.id);
  }

  /**
   * The QoS 2 exchange: whatever else happens in between, PUBREC reports the recorded command
   * dispatched, or refused, and PUBCOMP reports it completed, however often PUBREC came.
   */
  lemma QosTwoExchange(codec: TextCodec, deviceId: string, before: seq<Step>, request: PacketRequest, mid: seq<Step>,
                       received: Packet, more: seq<Step>, complete: Packet)
    requires received.Ack? && received.kind.Pubrec? && complete.Ack? && complete.kind.Pubcomp?
    requires Acknowledges(complete, request.packet) && received.id == complete.id
    requires forall step <- mid + more :: LeavesId(step, complete.id)
    ensures var open := before + [Recorded(request)] + mid;
            var acked := open + [Arrived(received)] + more;
            var first, second := Meaning(codec, deviceId, open, received), Meaning(codec, deviceId, acked, complete);
            && first.ResultDecoded? && first.result.commandId == request.commandId
            && first.result.state == (if Refuses(received) then Rejected else Dispatched)
            && second.ResultDecoded? && second.result.commandId == request.commandId
            && second.result.state == (if Refuses(complete) then Rejected else Completed)
            && OpenCommand(acked + [Arrived(complete)], complete.id) == None
  {
    assert forall step <- mid :: step in mid + more;
    LeftUntouched(mid, complete.id);
    RecordOpen(before, request, mid, complete.id);
    FailuresEmpty(received.reasons);
    var between := mid + [Arrived(received)] + more;
    forall step <- between + []
      ensures LeavesId(step, complete.id)
    {
      assert step == Arrived(received) || step in mid + more;
    }
    AcknowledgementEnds(codec, deviceId, before, request, between, complete, []);
    var acked := before + [Recorded(request)] + mid + [Arrived(received)] + more;
    assert before + [Recorded(request)] + between == acked && acked + [Arrived(complete)] + [] == acked + [Arrived(complete)];
  }

  /** A PUBREC leaves the table entry in place even when it refuses the publish. */
  lemma RejectedPubrecKeepsEntry(codec: TextCodec, deviceId: string, history: seq<Step>, refused: Packet, command: CommandId)
    requires refused.Ack? && refused.kind.Pubrec? && refused.version.V5? && Failures(refused.reasons) != []
    requires OpenCommand(history, refused.id) == Some(command)
    ensures Meaning(codec, deviceId, history, refused).result.state == Rejected
    ensures OpenCommand(history + [Arrived(refused)], refused.id) == Some(command)
  {
    OpenIndexUntouched(history, [Arrived(refused)], refused.id);
  }

  /** The record at position `i` is the last word on the packet id. */
  predicate OpenAt(history: seq<Step>, id: uint16, i: nat) {
    i < |history| && RecordsId(history[i], id) && IdUntouched(history[i + 1..], id)
  }

  lemma OpenAtIsOpenIndex(history: seq<Step>, id: uint16, i: nat)
    requires OpenAt(history, id, i)
    ensures OpenIndex(history, id) == Some(i)
  {
    var before := history[..i + 1];
    assert before + history[i + 1..] == history;
    OpenIndexUntouched(before, history[i + 1..], id);
  }

  /**
   * A PUBREL only ever comes from the broker, for its own QoS 2 publish, yet it is looked up among
   * the ids of this client's packets: it is reported under an own command exactly when that command's
   * record is open under the same id, and otherwise under the printed id.
   */
  lemma PubrelAttribution(codec: TextCodec, deviceId: string, history: seq<Step>, release: Packet)
    requires release.Ack? && release.kind.Pubrel? && Failures(release.reasons) == []
    ensures var meaning := Meaning(codec, deviceId, history, release);
            && meaning.ResultDecoded? && meaning.result.state == Dispatched
            && (forall i: nat :: OpenAt(history, release.id, i) ==>
                  meaning.result.commandId == history[i].request.commandId)
            && ((forall i: nat :: !OpenAt(history, release.id, i)) ==>
                  meaning.result.commandId == codec.number(release.id))
            && OpenCommand(history + [Arrived(release)], release.id) == OpenCommand(history, release.id)
  {
    forall i: nat | OpenAt(history, release.id, i)
      ensures OpenIndex(history, release.id) == Some(i)
    {
      OpenAtIsOpenIndex(history, release.id, i);
    }
    var open := OpenIndex(history, release.id);
    if open.Some? {
      OpenIndexIsLatest(history, release.id);
      assert OpenAt(history, release.id, open.value);
    }
    OpenIndexUntouched(history, [Arrived(release)], release.id);
  }

  /** So the broker's handshake is reported under an own publish that merely shares its packet id. */
  lemma ForeignPubrelMisattributed(codec: TextCodec, deviceId: string, before: seq<Step>, own: PacketRequest,
                                   theirs: Packet, release: Packet)
    requires release.Ack? && release.kind.Pubrel? && Failures(release.reasons) == []
    requires theirs.PublishIn? && theirs.packetId == Some(release.id)
    requires PacketIdOf(own.packet) == Some(release.id)
    ensures var history := before + [Recorded(own)] + [Arrived(theirs)];
            var meaning := Meaning(codec, deviceId, history, release);
            meaning.ResultDecoded? && meaning.result.commandId == own.commandId && meaning.result.state == Dispatched
  {
    var history := before + [Recorded(own)] + [Arrived(theirs)];
    assert history[|before|] == Recorded(own) && history[|before| + 1..] == [Arrived(theirs)];
    assert OpenAt(history, release.id, |before|);
    PubrelAttribution(codec, deviceId, history, release);
  }

  // ----- request and reply, end to end -----

  /** Steps that neither register nor answer a correlation key. */
  predicate KeyUntouched(codec: TextCodec, steps: seq<Step>, key: string) {
    forall i :: 0 <= i < |steps| ==> !RecordsKey(codec, steps[i], key) && !AnswersKey(codec, steps[i], key)
  }

  lemma {:induction false} OpenRouteUntouched(codec: TextCodec, history: seq<Step>, steps: seq<Step>, key: string)
    requires KeyUntouched(codec, steps, key)
    ensures OpenRoute(codec, history + steps, key) == OpenRoute(codec, history, key)
  {
    if steps == [] {
      assert history + steps == history;
    } else {
      assert DropLast(history + steps) == history + DropLast(steps);
      assert forall i :: 0 <= i < |steps| - 1 ==> DropLast(steps)[i] == steps[i];
      OpenRouteUntouched(codec, history, DropLast(steps), key);
    }
  }

  lemma {:induction false} LastPropExactly<T>(props: Properties, pick: Property -> Option<T>)
    ensures LastProp(props, pick).None? <==> forall i | 0 <= i < |props| :: pick(props[i]).None?
    ensures LastProp(props, pick).Some? ==>
              exists i :: 0 <= i < |props| && pick(props[i]) == LastProp(props, pick)
                && forall j | i < j < |props| :: pick(props[j]).None?
  {
    if props != [] && pick(Last(props)).None? {
      LastPropExactly(DropLast(props), pick);
    }
  }

  lemma {:induction false} FirstPropExactly<T>(props: Properties, pick: Property -> Option<T>)
    ensures FirstProp(props, pick).None? <==> forall i | 0 <= i < |props| :: pick(props[i]).None?
    ensures FirstProp(props, pick).Some? ==>
              exists i :: 0 <= i < |props| && pick(props[i]) == FirstProp(props, pick)
                && forall j | 0 <= j < i :: pick(props[j]).None?
  {
    if props != [] && pick(props[0]).None? {
      FirstPropExactly(props[1..], pick);
      assert forall j | 0 < j < |props| :: props[j] == props[1..][j - 1];
      if FirstProp(props, pick).Some? {
        var i :| 0 <= i < |props[1..]| && pick(props[1..][i]) == FirstProp(props, pick)
                 && forall j | 0 <= j < i :: pick(props[1..][j]).None?;
        assert pick(props[i + 1]) == FirstProp(props, pick);
      }
    }
  }

  /** The last correlation data among the properties. */
  predicate LastData(props: Properties, data: seq<byte>) {
    exists i :: 0 <= i < |props| && props[i] == CorrelationData(data)
      && forall j | i < j < |props| :: !props[j].CorrelationData?
  }

  predicate FirstData(props: Properties, data: seq<byte>) {
    exists i :: 0 <= i < |props| && props[i] == CorrelationData(data)
      && forall j | 0 <= j < i :: !props[j].CorrelationData?
  }

  lemma DataPicked(props: Properties, data: seq<byte>)
    ensures LastProp(props, PickCorrelation) == Some(data) <==> LastData(props, data)
    ensures FirstProp(props, PickCorrelation) == Some(data) <==> FirstData(props, data)
  {
    LastPropExactly(props, PickCorrelation);
    FirstPropExactly(props, PickCorrelation);
  }

  /** An MQTT 5.0 publish is sent whose last correlation data reads as the key. */
  ghost predicate Registers(codec: TextCodec, step: Step, key: string) {
    && step.Recorded? && step.request.packet.PublishPacket? && step.request.packet.version.V5?
    && exists data :: LastData(step.request.packet.props, data) && codec.lossy(data) == key
  }

  /** An MQTT 5.0 publish whose first correlation data reads as the key. */
  ghost predicate Replies(codec: TextCodec, packet: Packet, key: string) {
    packet.PublishIn? && packet.version.V5? && exists data :: FirstData(packet.props, data) && codec.lossy(data) == key
  }

  ghost predicate LeavesKey(codec: TextCodec, step: Step, key: string) {
    !Registers(codec, step, key) && (step.Arrived? ==> !Replies(codec, step.packet, key))
  }

  lemma RegistersIsRecord(codec: TextCodec, step: Step, key: string)
    ensures RecordsKey(codec, step, key) <==> Registers(codec, step, key)
  {
    if Registers(codec, step, key) {
      var data :| LastData(step.request.packet.props, data) && codec.lossy(data) == key;
      DataPicked(step.request.packet.props, data);
    }
    if RecordsKey(codec, step, key) {
      DataPicked(step.request.packet.props, LastProp(step.request.packet.props, PickCorrelation).value);
    }
  }

  lemma RepliesIsAnswer(codec: TextCodec, packet: Packet, key: string)
    ensures ReplyKey(codec, packet) == Some(key) <==> Replies(codec, packet, key)
  {
    if Replies(codec, packet, key) {
      var data :| FirstData(packet.props, data) && codec.lossy(data) == key;
      DataPicked(packet.props, data);
    }
    if ReplyKey(codec, packet) == Some(key) {
      DataPicked(packet.props, FirstProp(packet.props, PickCorrelation).value);
    }
  }

  lemma LeftIsUntouched(codec: TextCodec, step: Step, key: string)
    ensures LeavesKey(codec, step, key) <==> !RecordsKey(codec, step, key) && !AnswersKey(codec, step, key)
  {
    RegistersIsRecord(codec, step, key);
    if step.Arrived? {
      RepliesIsAnswer(codec, step.packet, key);
    }
  }

  lemma KeyLeft(codec: TextCodec, steps: seq<Step>, key: string)
    requires forall step <- steps :: LeavesKey(codec, step, key)
    ensures KeyUntouched(codec, steps, key)
  {
    forall i | 0 <= i < |steps|
      ensures !RecordsKey(codec, steps[i], key) && !AnswersKey(codec, steps[i], key)
    {
      LeftIsUntouched(codec, steps[i], key);
    }
  }

  lemma PickedIsIn<T>(props: Properties, pick: Property -> Option<T>)
    ensures LastProp(props, pick).Some? ==> exists p <- props :: pick(p) == LastProp(props, pick)
    ensures forall p <- props :: pick(p).Some? ==> LastProp(props, pick).Some?
  {
    LastPropExactly(props, pick);
  }

  /** The built properties carry the correlation bytes and reply topic the view's fields give, and no others. */
  lemma PublishPropsCarry(lib: Library, view: PublishView)
    ensures forall data :: LastProp(PublishProps(lib, view), PickCorrelation) == Some(data)
                           <==> Asked(lib, view, Property.CorrelationData(data))
    ensures LastProp(PublishProps(lib, view), PickResponseTopic) == OrElse(view.responseTopic, view.replyTo)
  {
    var props := PublishProps(lib, view);
    forall p: Property
      ensures p in props <==> Asked(lib, view, p)
    {
      PublishCarries(lib, view, p);
    }
    DataCarried(lib, view, props);
    TopicCarried(lib, view, props);
  }

  lemma DataCarried(lib: Library, view: PublishView, props: Properties)
    requires forall p: Property :: p in props <==> Asked(lib, view, p)
    ensures forall data :: LastProp(props, PickCorrelation) == Some(data) <==> Asked(lib, view, Property.CorrelationData(data))
  {
    PickedIsIn(props, PickCorrelation);
    forall data | Asked(lib, view, Property.CorrelationData(data))
      ensures LastProp(props, PickCorrelation).Some?
    {
      assert PickCorrelation(Property.CorrelationData(data)).Some?;
    }
  }

  lemma TopicCarried(lib: Library, view: PublishView, props: Properties)
    requires forall p: Property :: p in props <==> Asked(lib, view, p)
    ensures LastProp(props, PickResponseTopic) == OrElse(view.responseTopic, view.replyTo)
  {
    PickedIsIn(props, PickResponseTopic);
    var topic := OrElse(view.responseTopic, view.replyTo);
    if topic.Some? {
      assert Asked(lib, view, Property.ResponseTopic(topic.value));
      assert PickResponseTopic(Property.ResponseTopic(topic.value)).Some?;
    }
  }

  /** The reply address of a publish: its explicit response topic, else the channel the reply is wanted on. */
  function ReplyAddress(view: PublishView): Option<Address> {
    if view.responseTopic.Some? then Some(Channel(view.responseTopic.value))
    else if view.replyTo.Some? then Some(Channel(view.replyTo.value))
    else None
  }

  /**
   * A built v5 publish registers its command under the correlation bytes the view asks for, whatever
   * packet id it is sent with, and under nothing exactly when it asks for none.
   */
  lemma BuiltPublishRoutes(lib: Library, codec: TextCodec, view: PublishView, id: uint16)
    requires BuildPublish(lib, view, V5).Ok?
    ensures var route := RouteOf(codec, AssignPacketId(BuildPublish(lib, view, V5).value, id));
            && (forall bytes :: Asked(lib, view, Property.CorrelationData(bytes)) ==>
                  route == Some((codec.lossy(bytes), ReplyRoute(view.commandId, ReplyAddress(view)))))
            && ((forall bytes :: !Asked(lib, view, Property.CorrelationData(bytes))) ==> route == None)
  {
    AcceptedUnchanged(lib, PublishProps(lib, view));
    PublishPropsCarry(lib, view);
    var props := PublishProps(lib, view);
    assert AssignPacketId(BuildPublish(lib, view, V5).value, id).packet.props == props;
    if LastProp(props, PickCorrelation).Some? {
      assert Asked(lib, view, Property.CorrelationData(LastProp(props, PickCorrelation).value));
    }
  }

  /**
   * Request and reply, end to end: a v5 publish built with correlation data (explicit, else from the
   * correlation id, else the command id when a reply is expected), sent under any packet id, makes
   * the first inbound publish under the same correlation bytes a completed result for the
   * original command and reply address; the next one is an event unless the key is recorded anew.
   */
  lemma ReplyReachesCommand(lib: Library, codec: TextCodec, deviceId: string, view: PublishView, id: uint16,
                            bytes: seq<byte>, before: seq<Step>, mid: seq<Step>, reply: Packet, more: seq<Step>,
                            repeated: Packet)
    requires BuildPublish(lib, view, V5).Ok? && Asked(lib, view, Property.CorrelationData(bytes))
    requires Replies(codec, reply, codec.lossy(bytes)) && Replies(codec, repeated, codec.lossy(bytes))
    requires forall step <- mid + more :: LeavesKey(codec, step, codec.lossy(bytes))
    ensures var sent := AssignPacketId(BuildPublish(lib, view, V5).value, id);
            var open := before + [Recorded(sent)] + mid;
            var first := Meaning(codec, deviceId, open, reply);
            && first.ResultDecoded?
            && first.result.commandId == view.commandId
            && first.result.state == Completed
            && first.result.correlation == Some(Correlation(view.commandId, ReplyAddress(view)))
            && Meaning(codec, deviceId, open + [Arrived(reply)] + more, repeated) ==
               EventDecoded(EventOf(codec, deviceId, repeated))
  {
    var sent := AssignPacketId(BuildPublish(lib, view, V5).value, id);
    var recorded := before + [Recorded(sent)];
    var key := codec.lossy(bytes);
    assert forall step <- mid :: step in mid + more;
    assert forall step <- more :: step in mid + more;
    KeyLeft(codec, mid, key);
    KeyLeft(codec, more, key);
    RepliesIsAnswer(codec, reply, key);
    RepliesIsAnswer(codec, repeated, key);
    BuiltPublishRoutes(lib, codec, view, id);
    OpenRouteUntouched(codec, recorded, mid, key);
    assert DropLast(recorded) == before && Last(recorded) == Recorded(sent);
    var answered := recorded + mid + [Arrived(reply)];
    assert Last(answered) == Arrived(reply);
    OpenRouteUntouched(codec, answered, more, key);
  }

  // ----- what decoded messages carry -----

  /** Each scan looks for properties of its own kind, and takes what they carry. */
  lemma PicksOwnKind(p: Property)
    ensures PickCorrelation(p) == match p case CorrelationData(data) => Some(data) case _ => None
    ensures PickResponseTopic(p) == match p case ResponseTopic(topic) => Some(topic) case _ => None
    ensures PickContentType(p) == match p case ContentType(contentType) => Some(contentType) case _ => None
    ensures PickFormat(p) == match p case PayloadFormatIndicator(format) => Some(format) case _ => None
    ensures PickExpiry(p) == match p case MessageExpiryInterval(seconds) => Some(seconds) case _ => None
    ensures PickAlias(p) == match p case TopicAlias(alias) => Some(alias) case _ => None
    ensures PickIdentifier(p) == match p case SubscriptionIdentifier(identifier) => Some(identifier) case _ => None
    ensures PickUser(p) == match p case UserProperty(key, value) => Some(Header(key, value)) case _ => None
  {
  }

  /** The scan for all properties of a kind keeps their order: each adds what it carries at the end. */
  lemma AllPropsInOrder<T>(props: Properties, p: Property, pick: Property -> Option<T>)
    ensures AllProps([], pick) == []
    ensures AllProps(props + [p], pick) == AllProps(props, pick) + if pick(p).Some? then [pick(p).value] else []
  {
    assert DropLast(props + [p]) == props;
  }

  /** The text of a payload that a format indicator marks as text and that is valid UTF-8, else its bytes. */
  predicate ReadsAs(codec: TextCodec, bytes: seq<byte>, format: Option<MqttMetas.PayloadFormat>, payload: PayloadValue) {
    if format == Some(MqttMetas.Utf8Format) && codec.strict(bytes).Some?
    then payload == StringValue(codec.strict(bytes).value)
    else payload == BytesValue(bytes)
  }

  /** The view of a publish: its header fields and, of an MQTT 5.0 one, the last property of each kind. */
  predicate ViewOf(packet: Packet, view: MqttMetas.MqttMeta)
    requires packet.PublishIn?
  {
    var props := if packet.version.V5? then packet.props else [];
    && view.topic == Some(packet.topic) && view.qos == Some(packet.qos) && view.retain == packet.retain
    && view.duplicate == packet.dup && view.packetId == packet.packetId
    && view.contentType == LastProp(props, PickContentType) && view.payloadFormat == LastProp(props, PickFormat)
    && view.messageExpiryIntervalSecs == LastProp(props, PickExpiry) && view.topicAlias == LastProp(props, PickAlias)
    && view.responseTopic == LastProp(props, PickResponseTopic)
    && view.subscriptionIdentifiers == AllProps(props, PickIdentifier)
    && view.headers.GetOr([]) == AllProps(props, PickUser)
  }

  /** An event carries its publish: decoding its capture gives the packet's fields and properties back. */
  lemma EventCarries(codec: TextCodec, deviceId: string, packet: Packet)
    requires packet.PublishIn?
    ensures var event := EventOf(codec, deviceId, packet);
            var props := if packet.version.V5? then packet.props else [];
            var data, topic := LastProp(props, PickCorrelation), LastProp(props, PickResponseTopic);
            && event.deviceId == deviceId && event.topic == packet.topic
            && ReadsAs(codec, packet.payload, LastProp(props, PickFormat), event.payload)
            && (event.correlation.None? <==> data.None? && topic.None?)
            && (event.correlation.Some? ==>
                  && event.correlation.value.requestId == (if data.Some? then codec.lossy(data.value) else "")
                  && event.correlation.value.replyTo == (if topic.Some? then Some(Channel(topic.value)) else None))
            && MqttMetas.Decode(event.transport).Ok?
            && ViewOf(packet, MqttMetas.Decode(event.transport).value)
            && MqttMetas.Decode(event.transport).value.correlationData == data
  {
    var data := if packet.version.V5? then LastProp(packet.props, PickCorrelation) else None;
    PublishMetaDecodes(packet, data);
  }

  lemma PublishMetaDecodes(packet: Packet, data: Option<seq<byte>>)
    requires packet.PublishIn?
    ensures MqttMetas.Decode(PublishMeta(packet, data)).Ok?
    ensures var view := MqttMetas.Decode(PublishMeta(packet, data)).value;
            ViewOf(packet, view) && view.correlationData == data
  {
    var props := if packet.version.V5? then packet.props else [];
    var user := AllProps(props, PickUser);
    MqttMetas.DecodeEncode(MqttMetas.DEFAULT.(
      topic := Some(packet.topic), qos := Some(packet.qos), retain := packet.retain, duplicate := packet.dup,
      packetId := packet.packetId, contentType := LastProp(props, PickContentType),
      payloadFormat := LastProp(props, PickFormat), messageExpiryIntervalSecs := LastProp(props, PickExpiry),
      responseTopic := LastProp(props, PickResponseTopic), correlationData := data,
      topicAlias := LastProp(props, PickAlias), subscriptionIdentifiers := AllProps(props, PickIdentifier),
      headers := if user == [] then None else Some(user)));
  }

  /** So does the result of a reply, whose payload goes by the first format indicator. */
  lemma ReplyCarries(codec: TextCodec, deviceId: string, history: seq<Step>, reply: Packet)
    requires reply.PublishIn? && Meaning(codec, deviceId, history, reply).ResultDecoded?
    ensures var result := Meaning(codec, deviceId, history, reply).result;
            && result.deviceId == deviceId && result.state == Completed && result.error == None
            && result.payload.Some?
            && ReadsAs(codec, reply.payload, FirstProp(reply.props, PickFormat), result.payload.value)
            && result.transport.Some? && MqttMetas.Decode(result.transport.value).Ok?
            && ViewOf(reply, MqttMetas.Decode(result.transport.value).value)
            && exists key :: Replies(codec, reply, key)
                 && MqttMetas.Decode(result.transport.value).value.correlationData == Some(codec.utf8(key))
  {
    var key := ReplyKey(codec, reply).value;
    RepliesIsAnswer(codec, reply, key);
    PublishMetaDecodes(reply, Some(codec.utf8(key)));
  }

  /**
   * An MQTT 5.0 acknowledgement's result carries its packet id, its reasons and its reason string, and
   * the failing reasons as its error; an MQTT 3.1.1 one carries nothing.
   */
  lemma AcknowledgementCarries(codec: TextCodec, deviceId: string, history: seq<Step>, ack: Packet)
    requires ack.Ack?
    ensures var result := Meaning(codec, deviceId, history, ack).result;
            && result.deviceId == deviceId && result.payload == None && result.correlation == None
            && (ack.version.V3? ==> result.transport == None && result.error == None)
            && (ack.version.V5? ==>
                  && result.transport.Some? && MqttMetas.Decode(result.transport.value).Ok?
                  && var view := MqttMetas.Decode(result.transport.value).value;
                     && view.packetId == Some(ack.id) && view.reasonString == ack.reasonString
                     && |view.reasonCodes| == |ack.reasons|
                     && (forall i | 0 <= i < |ack.reasons| :: view.reasonCodes[i] == ack.reasons[i].text)
                     && result.error == if Refuses(ack) then Some(Join(Failures(ack.reasons))) else None)
  {
    FailuresEmpty(ack.reasons);
    MqttMetas.DecodeEncode(MqttMetas.DEFAULT.(
      packetId := Some(ack.id), reasonCodes := Map((r: Reason) => r.text, ack.reasons), reasonString := ack.reasonString));
  }

  /** The failing reasons are joined by commas, in order. */
  lemma {:induction false} FailuresJoined(reasons: seq<Reason>, last: Reason)
    ensures Join(Failures(reasons + [last])) ==
            if !last.failure then Join(Failures(reasons))
            else if forall r <- reasons :: !r.failure then last.text
            else Join(Failures(reasons)) + "," + last.text
  {
    FailuresEmpty(reasons);
    FailuresAppend(reasons, last);
    if Failures(reasons) != [] {
      JoinAppend(Failures(reasons), last.text);
      assert Failures(reasons) + [] == Failures(reasons);
    } else {
      assert [] + [last.text] == [last.text];
    }
  }

  lemma {:induction false} FailuresAppend(reasons: seq<Reason>, last: Reason)
    ensures Failures(reasons + [last]) == Failures(reasons) + if last.failure then [last.text] else []
  {
    if reasons != [] {
      assert (reasons + [last])[1..] == reasons[1..] + [last];
      FailuresAppend(reasons[1..], last);
    }
  }

  lemma {:induction false} JoinAppend(texts: seq<string>, last: string)
    requires texts != []
    ensures Join(texts + [last]) == Join(texts) + "," + last
  {
    if |texts| > 1 {
      assert (texts + [last])[1..] == texts[1..] + [last];
      JoinAppend(texts[1..], last);
    }
  }

  /** A DISCONNECT is a completed result unless it names another reason than a normal one, which is its error. */
  lemma DisconnectReported(codec: TextCodec, deviceId: string, history: seq<Step>, packet: Packet)
    requires packet.Disconnect?
    ensures var result := Meaning(codec, deviceId, history, packet).result;
            && result.commandId == "__mqtt_disconnect__" && result.deviceId == deviceId
            && (if packet.normal || packet.reason.None?
                then result.state == Completed && result.error == None
                else result.state == Rejected && result.error == packet.reason)
  {
  }

  /** An AUTH is an accepted result unless its reason is a failure, which is its error. */
  lemma AuthReported(codec: TextCodec, deviceId: string, history: seq<Step>, packet: Packet)
    requires packet.Auth?
    ensures var result := Meaning(codec, deviceId, history, packet).result;
            && result.commandId == "__mqtt_auth__" && result.deviceId == deviceId
            && (if packet.code.Some? && packet.code.value.failure
                then result.state == Rejected && result.error == Some(packet.code.value.text)
                else result.state == Accepted && result.error == None)
  {
  }

  // ----- replies across reconnects -----

  /** What one driver does over all its sessions: a step of the current one, or a reconnect. */
  datatype Traffic = On(step: Step) | Reconnected

  /** The history of the current session's decoder: a reconnect starts with empty tables. */
  function SessionHistory(run: seq<Traffic>): seq<Step> {
    if run == [] || Last(run).Reconnected? then [] else SessionHistory(DropLast(run)) + [Last(run).step]
  }

  /** Over all sessions, the `i`-th entry is the last record under the key, and no publish answered it. */
  ghost predicate LastUnderKey(codec: TextCodec, run: seq<Traffic>, key: string, i: nat) {
    && i < |run| && run[i].On? && Registers(codec, run[i].step, key)
    && forall j | i < j < |run| && run[j].On? :: LeavesKey(codec, run[j].step, key)
  }

  predicate SameSession(run: seq<Traffic>, i: nat) {
    forall j | i < j < |run| :: run[j].On?
  }

  lemma {:induction false} LastUnderKeyRoute(codec: TextCodec, run: seq<Traffic>, key: string, i: nat)
    requires LastUnderKey(codec, run, key, i)
    ensures RouteOf(codec, run[i].step.request).Some?
    ensures OpenRoute(codec, SessionHistory(run), key) ==
            if SameSession(run, i) then Some(RouteOf(codec, run[i].step.request).value.1) else None
  {
    RegistersIsRecord(codec, run[i].step, key);
    if Last(run).On? {
      assert DropLast(SessionHistory(run)) == SessionHistory(DropLast(run));
      RegistersIsRecord(codec, Last(run).step, key);
      LeftIsUntouched(codec, Last(run).step, key);
      if i < |run| - 1 {
        LastUnderKeyRoute(codec, DropLast(run), key, i);
        assert SameSession(run, i) <==> SameSession(DropLast(run), i);
      }
    } else {
      assert !SameSession(run, i);
    }
  }

  lemma {:induction false} OpenRouteIsLast(codec: TextCodec, run: seq<Traffic>, key: string) returns (i: nat)
    requires OpenRoute(codec, SessionHistory(run), key).Some?
    ensures LastUnderKey(codec, run, key, i) && SameSession(run, i)
  {
    assert DropLast(SessionHistory(run)) == SessionHistory(DropLast(run));
    RegistersIsRecord(codec, Last(run).step, key);
    LeftIsUntouched(codec, Last(run).step, key);
    if RecordsKey(codec, Last(run).step, key) {
      i := |run| - 1;
    } else {
      i := OpenRouteIsLast(codec, DropLast(run), key);
    }
  }

  /**
   * Which replies a reconnect loses, exactly: over any run of any number of sessions a publish is a
   * command's result if and only if it carries the key of a record that is the last word on it and was
   * made in the current session. If a reconnect came after that record, the reply is an event.
   */
  lemma RepliesLostExactly(codec: TextCodec, deviceId: string, run: seq<Traffic>, reply: Packet)
    requires reply.PublishIn?
    ensures var decoded := Meaning(codec, deviceId, SessionHistory(run), reply);
            && (decoded.ResultDecoded? <==>
                  exists key, i: nat ::
                    Replies(codec, reply, key) && LastUnderKey(codec, run, key, i) && SameSession(run, i))
            && (forall key, i: nat :: Replies(codec, reply, key) && LastUnderKey(codec, run, key, i) ==>
                  if SameSession(run, i)
                  then decoded.ResultDecoded? && decoded.result.commandId == run[i].step.request.commandId
                  else decoded == EventDecoded(EventOf(codec, deviceId, reply)))
  {
    forall key: string
      ensures ReplyKey(codec, reply) == Some(key) <==> Replies(codec, reply, key)
    {
      RepliesIsAnswer(codec, reply, key);
    }
    var key := ReplyKey(codec, reply);
    if key.Some? {
      forall i: nat | LastUnderKey(codec, run, key.value, i)
        ensures RouteOf(codec, run[i].step.request).Some?
        ensures OpenRoute(codec, SessionHistory(run), key.value) ==
                if SameSession(run, i) then Some(RouteOf(codec, run[i].step.request).value.1) else None
        ensures RouteOf(codec, run[i].step.request).value.1.commandId == run[i].step.request.commandId
      {
        RegistersIsRecord(codec, run[i].step, key.value);
        LastUnderKeyRoute(codec, run, key.value, i);
      }
      if OpenRoute(codec, SessionHistory(run), key.value).Some? {
        var i := OpenRouteIsLast(codec, run, key.value);
      }
    }
  }
}
