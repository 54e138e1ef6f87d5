/** The native and the bridge route from a command to an MQTT packet, and their equivalence. */
module MqttPlanners {
  import opened Wrappers
  import opened Widths
  import opened TransportMetas
  import opened Commands
  import opened MqttPackets
  import BridgePlanner
  import MqttMetas

  datatype NativePlan =
    | PublishPlan(
        commandId: CommandId,
        topic: string,
        message: PayloadValue,
        delivery: Option<DeliveryGuarantee>,
        retain: bool,
        payloadFormat: Option<MqttMetas.PayloadFormat>,
        contentType: Option<string>,
        messageExpiryIntervalSecs: Option<uint32>,
        topicAlias: Option<uint16>,
        userProperties: Headers,
        replyTo: Option<Address>,
        responseTopic: Option<string>,
        correlationId: Option<CommandId>,
        correlationData: Option<seq<byte>>)
    | SubscribePlan(
        commandId: CommandId,
        topic: string,
        delivery: Option<DeliveryGuarantee>,
        durableName: Option<string>,
        sharedGroup: Option<string>,
        noLocal: bool,
        retainAsPublished: bool,
        retainHandling: Option<MqttMetas.RetainHandling>,
        subscriptionIdentifier: Option<uint32>,
        userProperties: Headers)
    | UnsubscribePlan(commandId: CommandId, topic: string)

  /** Devices prefer MQTT 5.0 unless only 3.1.1 is listed. */
  function PreferredVersion(supported: seq<Version>): Version {
    if V5 in supported then V5 else if V3 in supported then V3 else V5
  }

  function CaptureView(extensions: Option<Capture>): Result<MqttMetas.MqttMeta, ConversionError> {
    if extensions.None? then Ok(MqttMetas.DEFAULT)
    else
      var decoded := MqttMetas.Decode(extensions.value);
      if decoded.Ok? then Ok(decoded.value) else Err(Extensions(decoded.error))
  }

  function TopicOf(channel: BrokerAddress): Result<string, ConversionError> {
    if channel.kind.Some? && channel.kind.value != TopicKind then Err(UnsupportedChannelKind(channel.kind.value))
    else Ok(channel.name)
  }

  function ChannelReplyTo(address: Option<Address>): Option<string> {
    if address.Some? && address.value.Channel? then Some(address.value.name) else None
  }

  function First<T>(values: seq<T>): Option<T> {
    if values == [] then None else Some(values[0])
  }

  // ----- native route -----

  function PlanNative(command: Command): Result<NativePlan, ConversionError> {
    match command.intent
    case Send(channel, payload, options) =>
      var view :- CaptureView(options.extensions);
      var topic :- TopicOf(channel);
      Ok(PublishPlan(command.id, topic, payload, options.delivery, view.retain, view.payloadFormat, view.contentType,
                     view.messageExpiryIntervalSecs, view.topicAlias, options.headers + view.headers.GetOr([]),
                     if command.correlation.Some? then command.correlation.value.replyTo else None,
                     view.responseTopic,
                     if command.correlation.Some? then Some(command.correlation.value.requestId) else None,
                     view.correlationData))
    case Subscribe(channel, options) =>
      var view :- CaptureView(options.extensions);
      var topic :- TopicOf(channel);
      Ok(SubscribePlan(command.id, topic, options.delivery, options.durableName, options.sharedGroup, view.noLocal,
                       view.retainAsPublished, view.retainHandling, First(view.subscriptionIdentifiers),
                       view.headers.GetOr([])))
    case Unsubscribe(channel) =>
      var topic :- TopicOf(channel);
      Ok(UnsubscribePlan(command.id, topic))
    case _ => Err(UnsupportedIntent)
  }

  function SemanticsFromNative(lib: Library, plan: NativePlan): Result<PacketSemantics, ConversionError> {
    match plan
    case PublishPlan(id, topic, message, delivery, retain, format, contentType, expiry, alias, user, replyTo,
                     responseTopic, correlationId, correlationData) =>
      var payload :- PayloadBytes(lib, message);
      Ok(PublishSemantics(PublishView(id, topic, payload, delivery, retain, format, contentType, expiry, alias,
                                      ChannelReplyTo(replyTo), responseTopic, correlationId, correlationData, user)))
    case SubscribePlan(id, topic, delivery, durable, shared, noLocal, rap, rh, identifier, user) =>
      Ok(SubscribeSemantics(SubscribeView(id, topic, delivery, durable, shared, noLocal, rap, rh, identifier, user)))
    case UnsubscribePlan(id, topic) =>
      Ok(UnsubscribeSemantics(SubscribeView(id, topic, None, None, None, false, false, None, None, [])))
  }

  function NativePacketRequest(lib: Library, supported: seq<Version>, command: Command): Result<PacketRequest, ConversionError> {
    var plan :- PlanNative(command);
    var semantics :- SemanticsFromNative(lib, plan);
    BuildPacketRequest(lib, semantics, PreferredVersion(supported))
  }

  // ----- bridge route -----

  function PlannerMessage(command: Command): Result<BridgeCommand, ConversionError> {
    match command.intent
    case Send(channel, _, _) => MessagingOnTopic(command, channel)
    case Subscribe(channel, _) => MessagingOnTopic(command, channel)
    case Unsubscribe(channel) => MessagingOnTopic(command, channel)
    case _ => Err(UnsupportedIntent)
  }

  function MessagingOnTopic(command: Command, channel: BrokerAddress): Result<BridgeCommand, ConversionError> {
    var _ :- TopicOf(channel);
    var planned := BridgePlanner.CommandToMessaging(command);
    if planned.Ok? then Ok(planned.value) else Err(Bridge(planned.error))
  }

  function PublishViewFromBridge(lib: Library, bridge: BridgeCommand): Result<PublishView, ConversionError> {
    if !bridge.operation.MessagingOp? || !bridge.route.MessagingRoute? then Err(InvalidBridgeMessage)
    else
      var view :- CaptureView(bridge.transport);
      if bridge.payload.None? then Err(InvalidBridgeMessage)
      else
        var payload :- PayloadBytes(lib, bridge.payload.value);
        Ok(PublishView(bridge.id, bridge.route.topic, payload, bridge.operation.delivery, view.retain,
                       view.payloadFormat, view.contentType, view.messageExpiryIntervalSecs, view.topicAlias,
                       if bridge.correlation.Some? then ChannelReplyTo(bridge.correlation.value.replyTo) else None,
                       view.responseTopic,
                       if bridge.correlation.Some? then Some(bridge.correlation.value.requestId) else None,
                       view.correlationData, bridge.headers.GetOr([])))
  }

  function SubscriptionViewFromBridge(bridge: BridgeCommand): Result<SubscribeView, ConversionError> {
    if !bridge.operation.MessagingOp? || !bridge.route.MessagingRoute? then Err(InvalidBridgeMessage)
    else
      var view :- CaptureView(bridge.transport);
      Ok(SubscribeView(bridge.id, bridge.route.topic, bridge.operation.delivery, bridge.operation.durableName,
                       bridge.operation.sharedGroup, view.noLocal, view.retainAsPublished, view.retainHandling,
                       First(view.subscriptionIdentifiers), bridge.headers.GetOr([])))
  }

  function SemanticsFromBridge(lib: Library, bridge: BridgeCommand): Result<PacketSemantics, ConversionError> {
    if !bridge.operation.MessagingOp? then Err(InvalidBridgeMessage)
    else match bridge.operation.messaging
      case PublishAction => var view :- PublishViewFromBridge(lib, bridge); Ok(PublishSemantics(view))
      case SubscribeAction => var view :- SubscriptionViewFromBridge(bridge); Ok(SubscribeSemantics(view))
      case UnsubscribeAction => var view :- SubscriptionViewFromBridge(bridge); Ok(UnsubscribeSemantics(view))
  }

  function BridgePacketRequest(lib: Library, supported: seq<Version>, command: Command): Result<PacketRequest, ConversionError> {
    var message :- PlannerMessage(command);
    var semantics :- SemanticsFromBridge(lib, message);
    BuildPacketRequest(lib, semantics, PreferredVersion(supported))
  }

  // ----- equivalence -----

  function ExtensionsOf(intent: Intent): Option<Capture> {
    match intent
    case Send(_, _, options) => options.extensions
    case Subscribe(_, options) => options.extensions
    case _ => None
  }

  /** The command names a channel kind MQTT has no topic for. */
  predicate BadChannelKind(intent: Intent) {
    (intent.Send? || intent.Subscribe? || intent.Unsubscribe?) &&
    intent.channel.kind.Some? && intent.channel.kind.value != TopicKind
  }

  /** The options carry a capture the typed view refuses: foreign, or malformed under a known key. */
  predicate BadCapture(intent: Intent) {
    var extensions := ExtensionsOf(intent);
    extensions.Some? && (extensions.value.protocol != MQTT || !MqttMetas.WellFormedEntries(extensions.value.entries))
  }

  lemma NamedErrorIgnoresView(a: MqttMetas.MqttMeta, b: MqttMetas.MqttMeta, key: MqttMetas.Key, name: string,
                              value: MetaValue)
    ensures MqttMetas.ApplyNamed(a, key, name, value).Err? ==>
              MqttMetas.ApplyNamed(b, key, name, value) == MqttMetas.ApplyNamed(a, key, name, value)
  {
  }

  /** Whether and how a capture entry is refused does not depend on what was read before it. */
  lemma ApplyErrorIgnoresView(a: MqttMetas.MqttMeta, b: MqttMetas.MqttMeta, entry: Entry)
    ensures MqttMetas.Apply(a, entry).Err? ==> MqttMetas.Apply(b, entry) == MqttMetas.Apply(a, entry)
  {
    var key := MqttMetas.KeyOf(entry.0);
    if key.Some? {
      NamedErrorIgnoresView(a, b, key.value, MqttMetas.Name(key.value), entry.1);
    }
  }

  lemma {:induction false} FoldErrorIgnoresView(a: MqttMetas.MqttMeta, b: MqttMetas.MqttMeta, entries: Entries)
    ensures Fold(a, entries, MqttMetas.Apply).Err? ==>
              Fold(b, entries, MqttMetas.Apply) == Fold(a, entries, MqttMetas.Apply)
    decreases entries
  {
    if entries != [] {
      var before := DropLast(entries);
      FoldErrorIgnoresView(a, b, before);
      FoldErrorIgnoresView(b, a, before);
      if Fold(a, before, MqttMetas.Apply).Ok? {
        ApplyErrorIgnoresView(Fold(a, before, MqttMetas.Apply).value, Fold(b, before, MqttMetas.Apply).value,
                              Last(entries));
      }
    }
  }

  /** Moving the headers out of the capture changes nothing else the typed view reads. */
  lemma CaptureViewWithoutHeaders(extensions: Option<Capture>)
    ensures CaptureView(BridgePlanner.SplitCaptureHeaders(extensions).0) ==
            var view := CaptureView(extensions);
            if view.Ok? then Ok(view.value.(headers := None)) else view
    ensures CaptureView(extensions).Ok? ==>
              CaptureView(extensions).value.headers == if extensions.Some? then extensions.value.headers else None
  {
    if extensions.Some? && extensions.value.protocol == MQTT {
      var capture := extensions.value;
      var bare := capture.(headers := None);
      MqttMetas.DecodeIsLookup(capture);
      MqttMetas.DecodeIsLookup(bare);
      var decoded := MqttMetas.Decode(capture);
      if decoded.Err? {
        FoldErrorIgnoresView(MqttMetas.DEFAULT.(headers := capture.headers), MqttMetas.DEFAULT.(headers := None),
                             FirstOccurrences(capture.entries));
      } else {
        var without := decoded.value.(headers := None);
        forall key: MqttMetas.Key
          ensures MqttMetas.Field(without, key) == MqttMetas.Field(MqttMetas.Decode(bare).value, key)
        {
          MqttMetas.FieldIgnoresHeaders(decoded.value, key);
        }
        MqttMetas.FieldsDetermineView(without, MqttMetas.Decode(bare).value);
      }
    }
  }

  lemma BadCaptureFailsView(intent: Intent)
    ensures BadCapture(intent) <==> CaptureView(ExtensionsOf(intent)).Err?
  {
    var extensions := ExtensionsOf(intent);
    if extensions.Some? && extensions.value.protocol == MQTT {
      MqttMetas.DecodeIsLookup(extensions.value);
    }
  }

  lemma PublishViewsAgree(lib: Library, command: Command)
    requires command.intent.Send? && !BadChannelKind(command.intent)
    ensures (var plan :- PlanNative(command); SemanticsFromNative(lib, plan)) ==
            (var message :- PlannerMessage(command); SemanticsFromBridge(lib, message))
  {
    var options := command.intent.send;
    CaptureViewWithoutHeaders(options.extensions);
    var view := CaptureView(options.extensions);
    if view.Ok? {
      assert options.headers + view.value.headers.GetOr([]) == PlannerMessage(command).value.headers.GetOr([]);
    }
  }

  lemma SubscriptionViewsAgree(lib: Library, command: Command)
    requires command.intent.Subscribe? || command.intent.Unsubscribe?
    requires !BadChannelKind(command.intent)
    ensures (var plan :- PlanNative(command); SemanticsFromNative(lib, plan)) ==
            (var message :- PlannerMessage(command); SemanticsFromBridge(lib, message))
  {
    if command.intent.Subscribe? {
      var extensions := command.intent.subscription.extensions;
      CaptureViewWithoutHeaders(extensions);
      var view := CaptureView(extensions);
      if view.Ok? {
        assert view.value.headers.GetOr([]) == PlannerMessage(command).value.headers.GetOr([]);
      }
    }
  }

  /**
   * The two routes are one function except in a corner of their errors: they always accept the
   * same commands and build the same packets, and they differ exactly when channel kind and
   * capture are both bad, where the native route blames the capture and the bridge route the kind.
   */
  lemma RoutesAgree(lib: Library, supported: seq<Version>, command: Command)
    ensures NativePacketRequest(lib, supported, command).Ok? <==> BridgePacketRequest(lib, supported, command).Ok?
    ensures NativePacketRequest(lib, supported, command) == BridgePacketRequest(lib, supported, command)
            <==> !(BadChannelKind(command.intent) && BadCapture(command.intent))
    ensures BadChannelKind(command.intent) && BadCapture(command.intent) ==>
              && NativePacketRequest(lib, supported, command).Err?
              && NativePacketRequest(lib, supported, command).error.Extensions?
              && BridgePacketRequest(lib, supported, command) ==
                 Err(UnsupportedChannelKind(command.intent.channel.kind.value))
  {
    BadCaptureFailsView(command.intent);
    if BadChannelKind(command.intent) {
      assert TopicOf(command.intent.channel).Err?;
    } else if command.intent.Send? {
      PublishViewsAgree(lib, command);
    } else if command.intent.Subscribe? || command.intent.Unsubscribe? {
      SubscriptionViewsAgree(lib, command);
    }
  }

  function InVersion(packet: WirePacket, version: Version): WirePacket {
    match packet
    case PublishPacket(_, topic, qos, retain, dup, id, payload, props) =>
      PublishPacket(version, topic, qos, retain, dup, id, payload, props)
    case SubscribePacket(_, id, entries, props) => SubscribePacket(version, id, entries, props)
    case UnsubscribePacket(_, id, filters, props) => UnsubscribePacket(version, id, filters, props)
  }

  lemma PlainHasNoProps(lib: Library, view: PublishView)
    ensures PublishProps(lib, view) == [] <==> PlainPublish(view)
  {
    assert view.userProperties != [] ==> |UserProperties(view.userProperties)| > 0;
    assert |PublishProps(lib, view)| == 0 <==> PlainPublish(view);
  }

  /**
   * MQTT 3.1.1 refuses a publish view exactly when its MQTT 5.0 packet would carry some property;
   * what it builds otherwise is the MQTT 5.0 packet in the other version, so nothing is lost.
   */
  lemma V3PublishExactly(lib: Library, view: PublishView)
    ensures BuildPublish(lib, view, V3) == Err(MqttV5PublishOptionsOnV3) <==> PublishProps(lib, view) != []
    ensures BuildPublish(lib, view, V3).Ok? && BuildPublish(lib, view, V5).Ok? ==>
              BuildPublish(lib, view, V5).value.packet == InVersion(BuildPublish(lib, view, V3).value.packet, V5)
  {
    PlainHasNoProps(lib, view);
  }

  /** The subscription asks for more than its topic at some quality of service. */
  predicate Elaborate(view: SubscribeView) {
    || view.durableName.Some?
    || SubscribeProps(view) != []
    || SubscriptionEntry(SubscriptionFilter(view), QosFromDelivery(view.delivery), view.noLocal,
                         view.retainAsPublished, view.retainHandling)
       != SubscriptionEntry(view.topic, QosFromDelivery(view.delivery), false, false, None)
  }

  lemma ElaborateIsNotPlain(view: SubscribeView)
    ensures Elaborate(view) <==> !PlainSubscription(view)
  {
    assert view.userProperties != [] ==> |UserProperties(view.userProperties)| > 0;
    assert |SubscribeProps(view)| == 0 <==> view.subscriptionIdentifier.None? && view.userProperties == [];
    assert view.sharedGroup.Some? ==> |SubscriptionFilter(view)| > |view.topic|;
  }

  /**
   * MQTT 3.1.1 refuses a subscription with a sound filter exactly when it asks for more than its topic
   * and quality of service, and otherwise builds the MQTT 5.0 packet in the other version. MQTT 5.0
   * accepts a durable name and drops it.
   */
  lemma V3SubscribeExactly(lib: Library, view: SubscribeView)
    ensures BuildSubscribe(lib, view, V3) == Err(MqttV5SubscriptionOptionsOnV3)
            <==> lib.filterFault(SubscriptionFilter(view)).None? && Elaborate(view)
    ensures BuildSubscribe(lib, view, V3).Ok? && BuildSubscribe(lib, view, V5).Ok? ==>
              BuildSubscribe(lib, view, V5).value.packet == InVersion(BuildSubscribe(lib, view, V3).value.packet, V5)
    ensures BuildSubscribe(lib, view, V5) == BuildSubscribe(lib, view.(durableName := None), V5)
  {
    ElaborateIsNotPlain(view);
    AcceptedUnchanged(lib, SubscribeProps(view));
  }

  /** An MQTT 3.1.1 unsubscribe is refused likewise, and loses the command id its MQTT 5.0 packet carries. */
  lemma V3UnsubscribeExactly(lib: Library, view: SubscribeView)
    ensures BuildUnsubscribe(lib, view, V3) == Err(MqttV5SubscriptionOptionsOnV3) <==> Elaborate(view)
    ensures BuildUnsubscribe(lib, view, V3).Ok? && BuildUnsubscribe(lib, view, V5).Ok? ==>
              BuildUnsubscribe(lib, view, V5).value.packet
              == InVersion(BuildUnsubscribe(lib, view, V3).value.packet, V5).(props := UnsubscribeProps(view))
  {
    ElaborateIsNotPlain(view);
    AcceptedUnchanged(lib, UnsubscribeProps(view));
  }
}
