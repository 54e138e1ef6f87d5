/**
 * What a command asks of MQTT: the packet it becomes, field by field from the command and from what
 * `get` returns for its capture, and which inbound publishes answer it. Nothing here speaks of plans,
 * views or bridge messages, so both routes to a packet are held to it.
 */
module MqttRequests {
  import opened Wrappers
  import opened Widths
  import opened TransportMetas
  import opened Commands
  import opened MqttPackets
  import opened MqttPlanners
  import MqttMetas
  import MqttInbound

  /** MQTT 5.0, unless the device lists 3.1.1 and not 5.0. */
  function SpokenVersion(supported: seq<Version>): Version {
    if V3 in supported && V5 !in supported then V3 else V5
  }

  predicate Guarantees(delivery: Option<DeliveryGuarantee>, qos: Qos) {
    match qos
    case ExactlyOnceQos => delivery == Some(ExactlyOnce)
    case AtLeastOnceQos => delivery == Some(AtLeastOnce)
    case AtMostOnceQos => delivery in {None, Some(BestEffort)}
  }

  /** Bytes go out as they are, text as UTF-8, null as nothing and every other value as JSON. */
  predicate Carries(lib: Library, message: PayloadValue, payload: seq<byte>) {
    match message
    case BytesValue(bytes) => payload == bytes
    case StringValue(text) => payload == lib.utf8(text)
    case Null => payload == []
    case other => lib.json(other) == Ok(payload)
  }

  // ----- publishing -----

  /** The properties a send command asks for. */
  predicate AskedBy(lib: Library, command: Command, p: Property)
    requires command.intent.Send?
  {
    var entries := CaptureEntries(command.intent.send.extensions);
    match p
    case PayloadFormatIndicator(format) =>
      Get(entries, "payload-format") == Some(Str(if format.Utf8Format? then "utf8" else "bytes"))
    case MessageExpiryInterval(seconds) => Get(entries, "message-expiry-interval-secs") == Some(U64(seconds))
    case TopicAlias(alias) => Get(entries, "topic-alias") == Some(U64(alias))
    case ResponseTopic(topic) =>
      if Get(entries, "response-topic").Some? then Get(entries, "response-topic").value == Str(topic)
      else command.correlation.Some? && command.correlation.value.replyTo == Some(Channel(topic))
    case ContentType(contentType) => Get(entries, "content-type") == Some(Str(contentType))
    case CorrelationData(data) =>
      if Get(entries, "correlation-data").Some? then Get(entries, "correlation-data").value == Bytes(data)
      else if command.correlation.Some? then lib.utf8(command.correlation.value.requestId) == data
      else Get(entries, "response-topic").Some? && lib.utf8(command.id) == data
    case SubscriptionIdentifier(_) => false
    case UserProperty(key, value) =>
      Header(key, value) in command.intent.send.headers + CaptureHeaders(command.intent.send.extensions)
  }

  /** A publish view that reads the command and its capture, field by field. */
  predicate ReadsSend(lib: Library, command: Command, view: PublishView)
    requires command.intent.Send?
  {
    var options, correlation := command.intent.send, command.correlation;
    var entries := CaptureEntries(options.extensions);
    && view.commandId == command.id && view.topic == command.intent.channel.name
    && Carries(lib, command.intent.message, view.payload) && view.delivery == options.delivery
    && view.retain == MqttMetas.FlagAt(entries, "retain")
    && view.replyTo == (if correlation.Some? && correlation.value.replyTo.Some? && correlation.value.replyTo.value.Channel?
                        then Some(correlation.value.replyTo.value.name) else None)
    && view.correlationId == (if correlation.Some? then Some(correlation.value.requestId) else None)
    && view.userProperties == options.headers + CaptureHeaders(options.extensions)
    && ReadsProperties(entries, view)
  }

  predicate ReadsProperties(entries: Entries, view: PublishView) {
    && (view.payloadFormat == Some(MqttMetas.Utf8Format) <==> Get(entries, "payload-format") == Some(Str("utf8")))
    && (view.payloadFormat == Some(MqttMetas.BytesFormat) <==> Get(entries, "payload-format") == Some(Str("bytes")))
    && view.contentType == TextAt(entries, "content-type")
    && view.messageExpiryIntervalSecs == MqttMetas.NumberAt(entries, "message-expiry-interval-secs")
    && view.topicAlias == MqttMetas.NumberAt(entries, "topic-alias")
    && Get(entries, "response-topic") == (if view.responseTopic.Some? then Some(Str(view.responseTopic.value)) else None)
    && Get(entries, "correlation-data") == (if view.correlationData.Some? then Some(Bytes(view.correlationData.value)) else None)
  }

  lemma KnownTypes(entries: Entries)
    requires MqttMetas.WellFormedEntries(entries)
    ensures Get(entries, "response-topic").Some? ==> Get(entries, "response-topic").value.Str?
    ensures Get(entries, "correlation-data").Some? ==> Get(entries, "correlation-data").value.Bytes?
  {
    var topic, data := MqttMetas.ResponseTopic, MqttMetas.CorrelationData;
    assert Get(entries, MqttMetas.Name(topic)).Some? ==> MqttMetas.WellFormed(topic, Get(entries, MqttMetas.Name(topic)).value);
    assert Get(entries, MqttMetas.Name(data)).Some? ==> MqttMetas.WellFormed(data, Get(entries, MqttMetas.Name(data)).value);
  }

  /** The typed view of a capture, or of none: what `get` returns under the documented names. */
  predicate ReadsCapture(extensions: Option<Capture>, view: MqttMetas.MqttMeta) {
    var entries := CaptureEntries(extensions);
    && MqttMetas.ReadsEnvelope(entries, view) && MqttMetas.ReadsProperties(entries, view)
    && MqttMetas.ReadsSubscription(entries, view) && view.headers.GetOr([]) == CaptureHeaders(extensions)
    && (Get(entries, "response-topic").Some? ==> view.responseTopic.Some?)
    && (Get(entries, "correlation-data").Some? ==> view.correlationData.Some?)
  }

  lemma DecodedKnownTypes(capture: Capture)
    requires MqttMetas.Decode(capture).Ok?
    ensures Get(capture.entries, "response-topic").Some? ==> Get(capture.entries, "response-topic").value.Str?
    ensures Get(capture.entries, "correlation-data").Some? ==> Get(capture.entries, "correlation-data").value.Bytes?
  {
    MqttMetas.DecodeIsLookup(capture);
    KnownTypes(capture.entries);
  }

  lemma CaptureReads(extensions: Option<Capture>)
    requires CaptureView(extensions).Ok?
    ensures ReadsCapture(extensions, CaptureView(extensions).value)
  {
    var capture := extensions.GetOr(Capture(MQTT, None, []));
    assert extensions.None? ==> FirstOccurrences(capture.entries) == [];
    assert MqttMetas.Decode(capture) == Ok(CaptureView(extensions).value);
    MqttMetas.DecodeReads(capture);
    DecodedKnownTypes(capture);
    assert capture.entries == CaptureEntries(extensions);
  }

  /** The native plan of a send command and its view lose nothing of the command. */
  lemma SendViewReads(lib: Library, command: Command, view: PublishView)
    requires command.intent.Send? && PlanNative(command).Ok?
    requires SemanticsFromNative(lib, PlanNative(command).value) == Ok(PublishSemantics(view))
    ensures ReadsSend(lib, command, view)
  {
    CaptureReads(command.intent.send.extensions);
  }

  lemma AskedThroughView(lib: Library, command: Command, view: PublishView, p: Property)
    requires command.intent.Send? && ReadsSend(lib, command, view)
    ensures Asked(lib, view, p) <==> AskedBy(lib, command, p)
  {
    assert |"utf8"| != |"bytes"|;
  }

  /**
   * The packet of a send command, whichever route built it: topic, payload, quality of service and
   * retain flag are the command's, and its properties are exactly those the command asks for.
   */
  lemma SendPacket(lib: Library, supported: seq<Version>, command: Command)
    requires command.intent.Send? && NativePacketRequest(lib, supported, command).Ok?
    ensures var request := NativePacketRequest(lib, supported, command).value;
            var packet := request.packet;
            && request.commandId == command.id && packet.PublishPacket? && packet.version == SpokenVersion(supported)
            && packet.topic == command.intent.channel.name && !packet.dup
            && packet.retain == (Get(CaptureEntries(command.intent.send.extensions), "retain") == Some(Bool(true)))
            && Guarantees(command.intent.send.delivery, packet.qos)
            && packet.packetId == (if packet.qos.AtMostOnceQos? then None else Some(1))
            && Carries(lib, command.intent.message, packet.payload)
            && (forall p :: p in packet.props <==> AskedBy(lib, command, p))
    ensures Ranked(NativePacketRequest(lib, supported, command).value.packet.props)
  {
    var plan := PlanNative(command).value;
    var view := SemanticsFromNative(lib, plan).value.publish;
    var packet := NativePacketRequest(lib, supported, command).value.packet;
    SendViewReads(lib, command, view);
    PropsOfView(lib, view, PreferredVersion(supported));
    PublishOrdered(lib, view);
    forall p: Property
      ensures p in packet.props <==> AskedBy(lib, command, p)
    {
      PublishCarries(lib, view, p);
      AskedThroughView(lib, command, view, p);
    }
  }

  lemma PropsOfView(lib: Library, view: PublishView, version: Version)
    requires BuildPublish(lib, view, version).Ok?
    ensures BuildPublish(lib, view, version).value.packet.props == PublishProps(lib, view)
  {
    V3PublishExactly(lib, view);
    AcceptedUnchanged(lib, PublishProps(lib, view));
  }

  /** A send command with a sound capture, channel kind and payload is built from the view that reads it. */
  lemma BuiltFromView(lib: Library, supported: seq<Version>, command: Command) returns (view: PublishView)
    requires command.intent.Send? && !BadCapture(command.intent) && !BadChannelKind(command.intent)
    requires PayloadBytes(lib, command.intent.message).Ok?
    ensures NativePacketRequest(lib, supported, command) == BuildPublish(lib, view, SpokenVersion(supported))
    ensures ReadsSend(lib, command, view)
  {
    BadCaptureFailsView(command.intent);
    view := SemanticsFromNative(lib, PlanNative(command).value).value.publish;
    SendViewReads(lib, command, view);
  }

  lemma BadSendRefused(lib: Library, supported: seq<Version>, command: Command)
    requires command.intent.Send?
    ensures var answer := NativePacketRequest(lib, supported, command);
            && (BadCapture(command.intent) ==> answer.Err? && answer.error.Extensions?)
            && (!BadCapture(command.intent) && BadChannelKind(command.intent) ==>
                  answer.Err? && answer.error.UnsupportedChannelKind?)
            && (!BadCapture(command.intent) && !BadChannelKind(command.intent) ==>
                  PayloadBytes(lib, command.intent.message).Err? ==> answer.Err? && answer.error.InvalidPayload?)
  {
    BadCaptureFailsView(command.intent);
  }

  /**
   * Why a command is refused before the packet library is asked, exactly: its capture, else its channel
   * kind, else its payload, else a property that MQTT 3.1.1 does not have.
   */
  lemma SendRefused(lib: Library, supported: seq<Version>, command: Command)
    requires command.intent.Send?
    ensures var answer, message := NativePacketRequest(lib, supported, command), command.intent.message;
            var sound := !BadCapture(command.intent) && !BadChannelKind(command.intent);
            && (answer.Err? && answer.error.Extensions? <==> BadCapture(command.intent))
            && (answer.Err? && answer.error.UnsupportedChannelKind?
                <==> !BadCapture(command.intent) && BadChannelKind(command.intent))
            && (answer.Err? && answer.error.InvalidPayload? <==> sound && forall payload :: !Carries(lib, message, payload))
            && (answer == Err(MqttV5PublishOptionsOnV3)
                <==> && sound && (exists payload :: Carries(lib, message, payload))
                     && SpokenVersion(supported).V3? && exists p :: AskedBy(lib, command, p))
  {
    PayloadCarried(lib, command.intent.message);
    BadSendRefused(lib, supported, command);
    if !BadCapture(command.intent) && !BadChannelKind(command.intent) && PayloadBytes(lib, command.intent.message).Ok? {
      var view := BuiltFromView(lib, supported, command);
      V3PublishExactly(lib, view);
      if BuildPublish(lib, view, SpokenVersion(supported)).Err? {
        BuildErrors(lib, view, SpokenVersion(supported));
      }
      SomeAsked(lib, command, view);
    }
  }

  lemma BuildErrors(lib: Library, view: PublishView, version: Version)
    requires BuildPublish(lib, view, version).Err?
    ensures var error := BuildPublish(lib, view, version).error;
            error.PacketBuild? || (error.MqttV5PublishOptionsOnV3? && version.V3?)
  {
    AcceptExactly(lib, PublishProps(lib, view));
  }

  lemma PayloadCarried(lib: Library, message: PayloadValue)
    ensures PayloadBytes(lib, message).Ok? <==> exists payload :: Carries(lib, message, payload)
    ensures PayloadBytes(lib, message).Ok? ==> Carries(lib, message, PayloadBytes(lib, message).value)
    ensures PayloadBytes(lib, message).Err? ==> PayloadBytes(lib, message).error.InvalidPayload?
  {
    if PayloadBytes(lib, message).Ok? {
      assert Carries(lib, message, PayloadBytes(lib, message).value);
    }
  }

  lemma SomeAsked(lib: Library, command: Command, view: PublishView)
    requires command.intent.Send? && ReadsSend(lib, command, view)
    ensures PublishProps(lib, view) != [] <==> exists p :: AskedBy(lib, command, p)
  {
    forall p: Property
      ensures p in PublishProps(lib, view) <==> AskedBy(lib, command, p)
    {
      PublishCarries(lib, view, p);
      AskedThroughView(lib, command, view, p);
    }
    if PublishProps(lib, view) != [] {
      assert PublishProps(lib, view)[0] in PublishProps(lib, view);
    }
  }

  // ----- subscribing -----

  lemma QosGuarantees(delivery: Option<DeliveryGuarantee>)
    ensures Guarantees(delivery, QosFromDelivery(delivery))
  {
  }

  /** A subscription view that reads the command and its capture, field by field. */
  predicate ReadsSubscribe(command: Command, view: SubscribeView)
    requires command.intent.Subscribe?
  {
    var options := command.intent.subscription;
    var entries := CaptureEntries(options.extensions);
    && view.commandId == command.id && view.topic == command.intent.channel.name
    && view.delivery == options.delivery && view.sharedGroup == options.sharedGroup
    && view.noLocal == MqttMetas.FlagAt(entries, "no-local")
    && view.retainAsPublished == MqttMetas.FlagAt(entries, "retain-as-published")
    && (view.retainHandling == Some(MqttMetas.SendRetained) <==> Get(entries, "retain-handling") == Some(U64(0)))
    && (view.retainHandling == Some(MqttMetas.SendRetainedIfNotExists) <==> Get(entries, "retain-handling") == Some(U64(1)))
    && (view.retainHandling == Some(MqttMetas.DoNotSendRetained) <==> Get(entries, "retain-handling") == Some(U64(2)))
    && view.subscriptionIdentifier == FirstIdentifier(entries)
    && view.userProperties == CaptureHeaders(options.extensions)
  }

  /** The first of the subscription identifiers stored in a capture. */
  function FirstIdentifier(entries: Entries): Option<uint64> {
    match Get(entries, "subscription-identifiers")
    case Some(U64List(ids)) => if ids != [] then Some(ids[0]) else None
    case _ => None
  }

  lemma SubscribeViewReads(lib: Library, command: Command, view: SubscribeView)
    requires command.intent.Subscribe? && PlanNative(command).Ok?
    requires SemanticsFromNative(lib, PlanNative(command).value) == Ok(SubscribeSemantics(view))
    ensures ReadsSubscribe(command, view)
  {
    CaptureReads(command.intent.subscription.extensions);
  }

  /** The packet of a subscribe command: one filter, under its shared group, with the options of its capture. */
  lemma SubscribePacketOf(lib: Library, supported: seq<Version>, command: Command)
    requires command.intent.Subscribe? && NativePacketRequest(lib, supported, command).Ok?
    ensures var request := NativePacketRequest(lib, supported, command).value;
            var packet, options := request.packet, command.intent.subscription;
            var entries := CaptureEntries(options.extensions);
            && request.commandId == command.id && packet.SubscribePacket? && packet.version == SpokenVersion(supported)
            && packet.id == 1 && |packet.entries| == 1
            && var entry := packet.entries[0];
               && entry.filter == (if options.sharedGroup.Some?
                                   then "$share/" + options.sharedGroup.value + "/" + command.intent.channel.name
                                   else command.intent.channel.name)
               && Guarantees(options.delivery, entry.qos)
               && entry.noLocal == (Get(entries, "no-local") == Some(Bool(true)))
               && entry.retainAsPublished == (Get(entries, "retain-as-published") == Some(Bool(true)))
               && (entry.retainHandling == Some(MqttMetas.SendRetained) <==> Get(entries, "retain-handling") == Some(U64(0)))
               && (entry.retainHandling == Some(MqttMetas.SendRetainedIfNotExists)
                   <==> Get(entries, "retain-handling") == Some(U64(1)))
               && (entry.retainHandling == Some(MqttMetas.DoNotSendRetained)
                   <==> Get(entries, "retain-handling") == Some(U64(2)))
  {
    var view := SemanticsFromNative(lib, PlanNative(command).value).value.subscription;
    SubscribeViewReads(lib, command, view);
    QosGuarantees(view.delivery);
  }

  /** Its properties: the first subscription identifier of its capture and the capture's headers. */
  lemma SubscribeProperties(lib: Library, supported: seq<Version>, command: Command, p: Property)
    requires command.intent.Subscribe? && NativePacketRequest(lib, supported, command).Ok?
    ensures var packet := NativePacketRequest(lib, supported, command).value.packet;
            var extensions := command.intent.subscription.extensions;
            p in packet.props <==>
              match p
              case SubscriptionIdentifier(n) => FirstIdentifier(CaptureEntries(extensions)) == Some(n)
              case UserProperty(key, value) => Header(key, value) in CaptureHeaders(extensions)
              case _ => false
  {
    var view := SemanticsFromNative(lib, PlanNative(command).value).value.subscription;
    SubscribeViewReads(lib, command, view);
    SubscribePropsOfView(lib, view, PreferredVersion(supported));
    UserPropertyIn(view.userProperties, p);
  }

  lemma SubscribePropsOfView(lib: Library, view: SubscribeView, version: Version)
    requires BuildSubscribe(lib, view, version).Ok?
    ensures BuildSubscribe(lib, view, version).value.packet.props == SubscribeProps(view)
  {
    AcceptedUnchanged(lib, SubscribeProps(view));
  }

  /** The packet of an unsubscribe command names the bare channel, and on MQTT 5.0 the command. */
  lemma UnsubscribePacketOf(lib: Library, supported: seq<Version>, command: Command)
    requires command.intent.Unsubscribe? && NativePacketRequest(lib, supported, command).Ok?
    ensures var request := NativePacketRequest(lib, supported, command).value;
            && request.commandId == command.id
            && request.packet
               == UnsubscribePacket(SpokenVersion(supported), 1, [command.intent.channel.name],
                                    if SpokenVersion(supported).V5? then [UserProperty("ferredge-command-id", command.id)] else [])
  {
    var view := SemanticsFromNative(lib, PlanNative(command).value).value.subscription;
    AcceptedUnchanged(lib, UnsubscribeProps(view));
  }

  // ----- replies -----

  /** Where a reply to a send command is wanted: on the response topic of its capture, else on its reply channel. */
  function WantedOn(command: Command): Option<Address>
    requires command.intent.Send?
  {
    match Get(CaptureEntries(command.intent.send.extensions), "response-topic")
    case Some(Str(topic)) => Some(Channel(topic))
    case _ =>
      if command.correlation.Some? && command.correlation.value.replyTo.Some? && command.correlation.value.replyTo.value.Channel?
      then command.correlation.value.replyTo else None
  }

  /**
   * Request and reply from the command: with the correlation bytes the command asks for (those of its
   * capture, else its correlation id, else its own id when only a response topic is named), the first
   * inbound publish that carries them is its completed result under its reply address, and the next an event.
   */
  lemma CommandAnswered(lib: Library, codec: MqttInbound.TextCodec, deviceId: string, supported: seq<Version>,
                        command: Command, bytes: seq<byte>, id: uint16, before: seq<MqttInbound.Step>,
                        mid: seq<MqttInbound.Step>, reply: MqttInbound.Packet, more: seq<MqttInbound.Step>,
                        repeated: MqttInbound.Packet)
    requires command.intent.Send? && SpokenVersion(supported).V5?
    requires NativePacketRequest(lib, supported, command).Ok? && AskedBy(lib, command, CorrelationData(bytes))
    requires MqttInbound.Replies(codec, reply, codec.lossy(bytes)) && MqttInbound.Replies(codec, repeated, codec.lossy(bytes))
    requires forall step <- mid + more :: MqttInbound.LeavesKey(codec, step, codec.lossy(bytes))
    ensures var request := NativePacketRequest(lib, supported, command).value;
            var open := before + [MqttInbound.Recorded(MqttInbound.AssignPacketId(request, id))] + mid;
            var first := MqttInbound.Meaning(codec, deviceId, open, reply);
            && first.ResultDecoded? && first.result.commandId == command.id && first.result.state == MqttInbound.Completed
            && first.result.correlation == Some(Correlation(command.id, WantedOn(command)))
            && MqttInbound.Meaning(codec, deviceId, open + [MqttInbound.Arrived(reply)] + more, repeated).EventDecoded?
  {
    var view := SemanticsFromNative(lib, PlanNative(command).value).value.publish;
    SendViewReads(lib, command, view);
    AskedThroughView(lib, command, view, CorrelationData(bytes));
    MqttInbound.ReplyReachesCommand(lib, codec, deviceId, view, id, bytes, before, mid, reply, more, repeated);
  }

  /** The acknowledgement that ends what a command asks for. */
  predicate EndsCommand(ack: MqttInbound.Packet, intent: Intent)
    requires ack.Ack?
  {
    match intent
    case Send(_, _, options) =>
      || (options.delivery == Some(AtLeastOnce) && ack.kind.Puback?)
      || (options.delivery == Some(ExactlyOnce) && ack.kind.Pubcomp?)
    case Subscribe(_, _) => ack.kind.Suback?
    case Unsubscribe(_) => ack.kind.Unsuback?
    case _ => false
  }

  /** Sent under the packet id the session assigns, a command is ended by its acknowledgement under that id. */
  lemma CommandAcknowledged(lib: Library, codec: MqttInbound.TextCodec, deviceId: string, supported: seq<Version>,
                            command: Command, before: seq<MqttInbound.Step>, mid: seq<MqttInbound.Step>,
                            ack: MqttInbound.Packet)
    requires NativePacketRequest(lib, supported, command).Ok?
    requires ack.Ack? && EndsCommand(ack, command.intent) && forall step <- mid :: MqttInbound.LeavesId(step, ack.id)
    ensures var request := NativePacketRequest(lib, supported, command).value;
            var open := before + [MqttInbound.Recorded(MqttInbound.AssignPacketId(request, ack.id))] + mid;
            var result := MqttInbound.Meaning(codec, deviceId, open, ack);
            && result.ResultDecoded? && result.result.commandId == command.id
            && result.result.state == (if MqttInbound.Refuses(ack) then MqttInbound.Rejected else MqttInbound.Completed)
            && MqttInbound.OpenCommand(open + [MqttInbound.Arrived(ack)], ack.id) == None
  {
    var request := NativePacketRequest(lib, supported, command).value;
    var sent := MqttInbound.AssignPacketId(request, ack.id);
    SentPacketKind(lib, supported, command);
    assert mid + [] == mid;
    MqttInbound.AcknowledgementEnds(codec, deviceId, before, sent, mid, ack, []);
    var open := before + [MqttInbound.Recorded(sent)] + mid;
    assert open + [MqttInbound.Arrived(ack)] + [] == open + [MqttInbound.Arrived(ack)];
  }

  lemma SentPacketKind(lib: Library, supported: seq<Version>, command: Command)
    requires NativePacketRequest(lib, supported, command).Ok?
    ensures var request := NativePacketRequest(lib, supported, command).value;
            && request.commandId == command.id
            && (command.intent.Send? ==> request.packet.PublishPacket? && Guarantees(command.intent.send.delivery, request.packet.qos))
            && (command.intent.Subscribe? ==> request.packet.SubscribePacket?)
            && (command.intent.Unsubscribe? ==> request.packet.UnsubscribePacket?)
  {
    match command.intent
    case Send(_, _, _) => SendPacket(lib, supported, command);
    case Subscribe(_, _) => SubscribePacketOf(lib, supported, command);
    case Unsubscribe(_) => UnsubscribePacketOf(lib, supported, command);
    case _ =>
  }
}
