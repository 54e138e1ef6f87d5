/**
 * Building version-specific MQTT packets from publish and subscription views. What the packet
 * library accepts is a parameter: every result holds whatever it rejects.
 */
module MqttPackets {
  import opened Wrappers
  import opened Widths
  import opened TransportMetas
  import opened Commands
  import BridgePlanner
  import MqttMetas

  datatype Version = V3 | V5

  datatype Qos = AtMostOnceQos | AtLeastOnceQos | ExactlyOnceQos

  datatype Property =
    | PayloadFormatIndicator(format: MqttMetas.PayloadFormat)
    | MessageExpiryInterval(seconds: uint32)
    | TopicAlias(alias: uint16)
    | ResponseTopic(topic: string)
    | ContentType(contentType: string)
    | CorrelationData(data: seq<byte>)
    | SubscriptionIdentifier(identifier: uint32)
    | UserProperty(key: string, value: string)

  type Properties = seq<Property>

  datatype SubscriptionEntry = SubscriptionEntry(
    filter: string, qos: Qos, noLocal: bool, retainAsPublished: bool, retainHandling: Option<MqttMetas.RetainHandling>)

  datatype WirePacket =
    | PublishPacket(version: Version, topic: string, qos: Qos, retain: bool, dup: bool, packetId: Option<uint16>,
              payload: seq<byte>, props: Properties)
    | SubscribePacket(version: Version, id: uint16, entries: seq<SubscriptionEntry>, props: Properties)
    | UnsubscribePacket(version: Version, id: uint16, filters: seq<string>, props: Properties)

  datatype PacketRequest = PacketRequest(commandId: CommandId, packet: WirePacket)

  datatype ConversionError =
    | UnsupportedIntent
    | UnsupportedChannelKind(kind: ChannelKind)
    | MqttV5PublishOptionsOnV3
    | MqttV5SubscriptionOptionsOnV3
    | InvalidPayload(detail: string)
    | PacketBuild(reason: string)
    | Bridge(planner: BridgePlanner.BridgePlannerError)
    | InvalidBridgeMessage
    | Extensions(meta: MqttMetas.MetaError)

  /** The parts of the program's libraries that packet building calls into. */
  datatype Library = Library(
    utf8: string -> seq<byte>,
    json: PayloadValue -> Result<seq<byte>, string>,
    propertyFault: Property -> Option<string>,
    topicFault: string -> Option<string>,
    filterFault: string -> Option<string>,
    packetFault: WirePacket -> Option<string>)

  datatype PublishView = PublishView(
    commandId: CommandId,
    topic: string,
    payload: seq<byte>,
    delivery: Option<DeliveryGuarantee>,
    retain: bool,
    payloadFormat: Option<MqttMetas.PayloadFormat>,
    contentType: Option<string>,
    messageExpiryIntervalSecs: Option<uint32>,
    topicAlias: Option<uint16>,
    replyTo: Option<string>,
    responseTopic: Option<string>,
    correlationId: Option<string>,
    correlationData: Option<seq<byte>>,
    userProperties: Headers)

  datatype SubscribeView = SubscribeView(
    commandId: CommandId,
    topic: string,
    delivery: Option<DeliveryGuarantee>,
    durableName: Option<string>,
    sharedGroup: Option<string>,
    noLocal: bool,
    retainAsPublished: bool,
    retainHandling: Option<MqttMetas.RetainHandling>,
    subscriptionIdentifier: Option<uint32>,
    userProperties: Headers)

  datatype PacketSemantics =
    | PublishSemantics(publish: PublishView)
    | SubscribeSemantics(subscription: SubscribeView)
    | UnsubscribeSemantics(subscription: SubscribeView)

  function QosFromDelivery(delivery: Option<DeliveryGuarantee>): Qos {
    match delivery
    case Some(ExactlyOnce) => ExactlyOnceQos
    case Some(AtLeastOnce) => AtLeastOnceQos
    case _ => AtMostOnceQos
  }

  function PacketIdForQos(qos: Qos): Option<uint16> {
    if qos.AtMostOnceQos? then None else Some(1)
  }

  function PayloadBytes(lib: Library, payload: PayloadValue): Result<seq<byte>, ConversionError> {
    match payload
    case BytesValue(bytes) => Ok(bytes)
    case StringValue(text) => Ok(lib.utf8(text))
    case Null => Ok([])
    case other =>
      var encoded := lib.json(other);
      if encoded.Ok? then Ok(encoded.value) else Err(InvalidPayload(encoded.error))
  }

  function UserProperties(headers: Headers): Properties {
    if headers == [] then []
    else UserProperties(DropLast(headers)) + [UserProperty(Last(headers).key, Last(headers).value)]
  }

  function Optional<T>(value: Option<T>, property: T -> Property): Properties {
    if value.Some? then [property(value.value)] else []
  }

  /** The response topic that goes on the wire: the explicit one, else the reply channel. */
  function ReplyTopic(view: PublishView): Option<string> {
    OrElse(view.responseTopic, view.replyTo)
  }

  /** Explicit data, else the correlation id, else the command id when a reply is expected. */
  function CorrelationBytes(lib: Library, view: PublishView): Option<seq<byte>> {
    if view.correlationData.Some? then view.correlationData
    else if view.correlationId.Some? then Some(lib.utf8(view.correlationId.value))
    else if ReplyTopic(view).Some? then Some(lib.utf8(view.commandId))
    else None
  }

  function PublishProps(lib: Library, view: PublishView): Properties {
    Optional(view.payloadFormat, f => PayloadFormatIndicator(f))
    + Optional(view.messageExpiryIntervalSecs, s => MessageExpiryInterval(s))
    + Optional(view.topicAlias, a => TopicAlias(a))
    + Optional(ReplyTopic(view), t => ResponseTopic(t))
    + Optional(view.contentType, c => ContentType(c))
    + Optional(CorrelationBytes(lib, view), d => CorrelationData(d))
    + UserProperties(view.userProperties)
  }

  function SubscribeProps(view: SubscribeView): Properties {
    Optional(view.subscriptionIdentifier, i => SubscriptionIdentifier(i)) + UserProperties(view.userProperties)
  }

  function UnsubscribeProps(view: SubscribeView): Properties {
    [UserProperty("ferredge-command-id", view.commandId)]
  }

  /** The properties in order, or the fault of the first one the library rejects. */
  function Accept(lib: Library, props: Properties): Result<Properties, ConversionError> {
    if props == [] then Ok([])
    else
      var sofar :- Accept(lib, DropLast(props));
      var fault := lib.propertyFault(Last(props));
      if fault.Some? then Err(PacketBuild(fault.value)) else Ok(props)
  }

  /** Accepted are the properties the library rejects none of; otherwise the first rejected one is named. */
  lemma {:induction false} AcceptExactly(lib: Library, props: Properties)
    ensures Accept(lib, props) == Ok(props) <==> forall p <- props :: lib.propertyFault(p).None?
    ensures Accept(lib, props) != Ok(props) ==>
              exists i :: 0 <= i < |props| && lib.propertyFault(props[i]).Some?
                && (forall j | 0 <= j < i :: lib.propertyFault(props[j]).None?)
                && Accept(lib, props) == Err(PacketBuild(lib.propertyFault(props[i]).value))
  {
    if props != [] {
      AcceptExactly(lib, DropLast(props));
      assert props == DropLast(props) + [Last(props)];
      if Accept(lib, DropLast(props)) == Ok(DropLast(props)) {
        assert forall j | 0 <= j < |props| - 1 :: props[j] in DropLast(props);
      }
    }
  }

  // ----- what a packet carries, from the view's fields -----

  /** The view asks for this property. */
  predicate Asked(lib: Library, view: PublishView, p: Property) {
    match p
    case PayloadFormatIndicator(format) => view.payloadFormat == Some(format)
    case MessageExpiryInterval(seconds) => view.messageExpiryIntervalSecs == Some(seconds)
    case TopicAlias(alias) => view.topicAlias == Some(alias)
    case ResponseTopic(topic) =>
      view.responseTopic == Some(topic) || (view.responseTopic.None? && view.replyTo == Some(topic))
    case ContentType(contentType) => view.contentType == Some(contentType)
    case CorrelationData(data) =>
      if view.correlationData.Some? then view.correlationData.value == data
      else if view.correlationId.Some? then lib.utf8(view.correlationId.value) == data
      else (view.responseTopic.Some? || view.replyTo.Some?) && lib.utf8(view.commandId) == data
    case SubscriptionIdentifier(_) => false
    case UserProperty(key, value) => Header(key, value) in view.userProperties
  }

  /** The place of a kind of property in a publish packet; only user properties repeat. */
  function Rank(p: Property): nat {
    match p
    case PayloadFormatIndicator(_) => 0
    case MessageExpiryInterval(_) => 1
    case TopicAlias(_) => 2
    case ResponseTopic(_) => 3
    case ContentType(_) => 4
    case CorrelationData(_) => 5
    case SubscriptionIdentifier(_) => 6
    case UserProperty(_, _) => 7
  }

  predicate Ranked(props: Properties) {
    forall i, j | 0 <= i < j < |props| ::
      Rank(props[i]) < Rank(props[j]) || (props[i].UserProperty? && props[j].UserProperty?)
  }

  lemma RankedAppend(left: Properties, right: Properties, rank: nat)
    requires Ranked(left) && forall p <- left :: Rank(p) < rank
    requires Ranked(right) && forall p <- right :: Rank(p) >= rank
    ensures Ranked(left + right)
  {
  }

  lemma RankedOptional<T>(left: Properties, value: Option<T>, property: T -> Property, rank: nat)
    requires Ranked(left) && forall p <- left :: Rank(p) < rank
    requires forall x :: Rank(property(x)) == rank
    ensures Ranked(left + Optional(value, property)) && forall p <- left + Optional(value, property) :: Rank(p) <= rank
  {
    RankedAppend(left, Optional(value, property), rank);
  }

  lemma {:induction false} UserPropertiesAt(headers: Headers)
    ensures |UserProperties(headers)| == |headers|
    ensures forall i | 0 <= i < |headers| :: UserProperties(headers)[i] == UserProperty(headers[i].key, headers[i].value)
    ensures Ranked(UserProperties(headers))
  {
    if headers != [] {
      UserPropertiesAt(DropLast(headers));
    }
  }

  lemma UserPropertyIn(headers: Headers, p: Property)
    ensures p in UserProperties(headers) <==> p.UserProperty? && Header(p.key, p.value) in headers
  {
    UserPropertiesAt(headers);
    if p.UserProperty? && Header(p.key, p.value) in headers {
      var i :| 0 <= i < |headers| && headers[i] == Header(p.key, p.value);
      assert UserProperties(headers)[i] == p;
    }
    if p in UserProperties(headers) {
      var i :| 0 <= i < |headers| && UserProperties(headers)[i] == p;
      assert headers[i] == Header(p.key, p.value);
    }
  }

  /** The built properties are exactly those the view asks for. */
  lemma PublishCarries(lib: Library, view: PublishView, p: Property)
    ensures p in PublishProps(lib, view) <==> Asked(lib, view, p)
  {
    UserPropertyIn(view.userProperties, p);
  }

  /** They come in the order of their ranks, each once but for user properties, which keep their order. */
  lemma PublishOrdered(lib: Library, view: PublishView)
    ensures Ranked(PublishProps(lib, view))
    ensures var props, user := PublishProps(lib, view), view.userProperties;
            && |user| <= |props|
            && forall i | 0 <= i < |user| ::
                 props[|props| - |user|..][i] == UserProperty(user[i].key, user[i].value)
  {
    var format := Optional(view.payloadFormat, f => PayloadFormatIndicator(f));
    var expiry := format + Optional(view.messageExpiryIntervalSecs, s => MessageExpiryInterval(s));
    var alias := expiry + Optional(view.topicAlias, a => TopicAlias(a));
    var reply := alias + Optional(ReplyTopic(view), t => ResponseTopic(t));
    var content := reply + Optional(view.contentType, c => ContentType(c));
    var data := content + Optional(CorrelationBytes(lib, view), d => CorrelationData(d));
    RankedOptional(format, view.messageExpiryIntervalSecs, s => MessageExpiryInterval(s), 1);
    RankedOptional(expiry, view.topicAlias, a => TopicAlias(a), 2);
    RankedOptional(alias, ReplyTopic(view), t => ResponseTopic(t), 3);
    RankedOptional(reply, view.contentType, c => ContentType(c), 4);
    RankedOptional(content, CorrelationBytes(lib, view), d => CorrelationData(d), 5);
    UserPropertiesAt(view.userProperties);
    RankedAppend(data, UserProperties(view.userProperties), 6);
    assert PublishProps(lib, view) == data + UserProperties(view.userProperties);
    assert PublishProps(lib, view)[|data|..] == UserProperties(view.userProperties);
  }

  lemma {:induction false} AcceptAppend(lib: Library, left: Properties, right: Properties)
    ensures Accept(lib, left + right) ==
            if Accept(lib, left).Err? then Accept(lib, left)
            else if Accept(lib, right).Err? then Accept(lib, right)
            else Ok(left + right)
  {
    if right == [] {
      assert left + right == left;
    } else {
      assert DropLast(left + right) == left + DropLast(right);
      AcceptAppend(lib, left, DropLast(right));
    }
  }

  lemma {:induction false} AcceptedUnchanged(lib: Library, props: Properties)
    ensures Accept(lib, props).Ok? ==> Accept(lib, props).value == props
  {
  }

  /** Pushes properties onto the list, unless a property was rejected before or is now. */
  method Push(lib: Library, sofar: Result<Properties, ConversionError>, props: Properties, ghost done: Properties)
    returns (r: Result<Properties, ConversionError>)
    requires sofar == Accept(lib, done)
    ensures r == Accept(lib, done + props)
  {
    AcceptAppend(lib, done, props);
    if sofar.Err? {
      return sofar;
    }
    AcceptedUnchanged(lib, done);
    var list := sofar.value;
    for i := 0 to |props|
      invariant list == done + props[..i] && Accept(lib, list) == Ok(list)
    {
      assert done + props[..i + 1] == list + [props[i]];
      var fault := lib.propertyFault(props[i]);
      if fault.Some? {
        AcceptAppend(lib, done + props[..i + 1], props[i + 1..]);
        assert done + props == done + props[..i + 1] + props[i + 1..];
        return Err(PacketBuild(fault.value));
      }
      list := list + [props[i]];
    }
    assert props[..|props|] == props;
    r := Ok(list);
  }

  /** Builds the publish properties in place; they come out in `PublishProps` order or with the first fault. */
  method BuildV5PublishProps(lib: Library, view: PublishView) returns (r: Result<Properties, ConversionError>)
    ensures r == Accept(lib, PublishProps(lib, view))
  {
    r := Ok([]);
    ghost var done: Properties := [];
    var format := Optional(view.payloadFormat, f => PayloadFormatIndicator(f));
    r := Push(lib, r, format, done);
    done := done + format;
    var expiry := Optional(view.messageExpiryIntervalSecs, s => MessageExpiryInterval(s));
    r := Push(lib, r, expiry, done);
    done := done + expiry;
    var alias := Optional(view.topicAlias, a => TopicAlias(a));
    r := Push(lib, r, alias, done);
    done := done + alias;
    var reply := Optional(ReplyTopic(view), t => ResponseTopic(t));
    r := Push(lib, r, reply, done);
    done := done + reply;
    var contentType := Optional(view.contentType, c => ContentType(c));
    r := Push(lib, r, contentType, done);
    done := done + contentType;
    var correlation := Optional(CorrelationBytes(lib, view), d => CorrelationData(d));
    r := Push(lib, r, correlation, done);
    done := done + correlation;
    r := Push(lib, r, UserProperties(view.userProperties), done);
    assert done + UserProperties(view.userProperties) == PublishProps(lib, view);
  }

  method BuildV5SubscribeProps(lib: Library, view: SubscribeView) returns (r: Result<Properties, ConversionError>)
    ensures r == Accept(lib, SubscribeProps(view))
  {
    var identifier := Optional(view.subscriptionIdentifier, i => SubscriptionIdentifier(i));
    r := Push(lib, Ok([]), identifier, []);
    assert [] + identifier == identifier;
    r := Push(lib, r, UserProperties(view.userProperties), identifier);
  }

  // ----- packets -----

  predicate PlainPublish(view: PublishView) {
    && view.payloadFormat.None? && view.contentType.None? && view.messageExpiryIntervalSecs.None?
    && view.topicAlias.None? && view.responseTopic.None? && view.correlationData.None?
    && view.userProperties == [] && view.replyTo.None? && view.correlationId.None?
  }

  predicate PlainSubscription(view: SubscribeView) {
    && !view.noLocal && !view.retainAsPublished && view.retainHandling.None?
    && view.subscriptionIdentifier.None? && view.userProperties == []
    && view.durableName.None? && view.sharedGroup.None?
  }

  function Checked(fault: Option<string>): Result<(), ConversionError> {
    if fault.Some? then Err(PacketBuild(fault.value)) else Ok(())
  }

  function Built(lib: Library, id: CommandId, packet: WirePacket): Result<PacketRequest, ConversionError> {
    var _ :- Checked(lib.packetFault(packet));
    Ok(PacketRequest(id, packet))
  }

  function BuildPublish(lib: Library, view: PublishView, version: Version): Result<PacketRequest, ConversionError> {
    var qos := QosFromDelivery(view.delivery);
    var props :- if version.V5? then Accept(lib, PublishProps(lib, view))
                 else if PlainPublish(view) then Ok([]) else Err(MqttV5PublishOptionsOnV3);
    var _ :- Checked(lib.topicFault(view.topic));
    Built(lib, view.commandId,
          PublishPacket(version, view.topic, qos, view.retain, false, PacketIdForQos(qos), view.payload, props))
  }

  /** A subscription to a topic within a shared group, if there is one. */
  function SharedFilter(topic: string, group: Option<string>): string {
    if group.Some? then "$share/" + group.value + "/" + topic else topic
  }

  function SubscriptionFilter(view: SubscribeView): string {
    SharedFilter(view.topic, view.sharedGroup)
  }

  function BuildSubscribe(lib: Library, view: SubscribeView, version: Version): Result<PacketRequest, ConversionError> {
    var entry := SubscriptionEntry(SubscriptionFilter(view), QosFromDelivery(view.delivery), view.noLocal,
                                   view.retainAsPublished, view.retainHandling);
    var _ :- Checked(lib.filterFault(entry.filter));
    var props :- if version.V5? then Accept(lib, SubscribeProps(view))
                 else if PlainSubscription(view) then Ok([]) else Err(MqttV5SubscriptionOptionsOnV3);
    Built(lib, view.commandId, SubscribePacket(version, 1, [entry], props))
  }

  function BuildUnsubscribe(lib: Library, view: SubscribeView, version: Version): Result<PacketRequest, ConversionError> {
    var props :- if version.V5? then Accept(lib, UnsubscribeProps(view))
                 else if PlainSubscription(view) then Ok([]) else Err(MqttV5SubscriptionOptionsOnV3);
    var _ :- Checked(lib.filterFault(SubscriptionFilter(view)));
    Built(lib, view.commandId, UnsubscribePacket(version, 1, [SubscriptionFilter(view)], props))
  }

  function BuildPacketRequest(lib: Library, semantics: PacketSemantics, version: Version)
    : Result<PacketRequest, ConversionError>
  {
    match semantics
    case PublishSemantics(publish) => BuildPublish(lib, publish, version)
    case SubscribeSemantics(subscription) => BuildSubscribe(lib, subscription, version)
    case UnsubscribeSemantics(subscription) => BuildUnsubscribe(lib, subscription, version)
  }
}
