/** The protocol-neutral message model, and the bridge representation planned from it. */
module Commands {
  import opened Wrappers
  import opened Widths
  import opened TransportMetas

  type CommandId = string

  datatype PayloadValue =
    | Null
    | BoolValue(flag: bool)
    | I64Value(signed: int64)
    | U64Value(unsigned: uint64)
    | F64Value(float: real)
    | StringValue(text: string)
    | BytesValue(bytes: seq<byte>)
    | ListValue(values: seq<PayloadValue>)
    | MapValue(pairs: seq<(string, PayloadValue)>)

  datatype Address = Resource(name: string) | Channel(name: string)

  datatype Correlation = Correlation(requestId: CommandId, replyTo: Option<Address>)

  datatype DeliveryGuarantee = BestEffort | AtLeastOnce | ExactlyOnce

  datatype ChannelKind = TopicKind | QueueKind | SubjectKind | StreamKind

  datatype BrokerAddress = BrokerAddress(name: string, kind: Option<ChannelKind>)

  datatype RequestOptions = RequestOptions(
    headers: Headers,
    contentType: Option<string>,
    verb: Option<string>,
    path: Option<string>,
    extensions: Option<Capture>)

  datatype MessageOptions = MessageOptions(
    delivery: Option<DeliveryGuarantee>,
    headers: Headers,
    extensions: Option<Capture>)

  datatype SubscriptionOptions = SubscriptionOptions(
    delivery: Option<DeliveryGuarantee>,
    durableName: Option<string>,
    sharedGroup: Option<string>,
    extensions: Option<Capture>)

  datatype Intent =
    | Read(resource: string, request: RequestOptions)
    | Write(resource: string, payload: PayloadValue, request: RequestOptions)
    | Invoke(operation: string, args: Option<PayloadValue>, request: RequestOptions)
    | Send(channel: BrokerAddress, message: PayloadValue, send: MessageOptions)
    | Subscribe(channel: BrokerAddress, subscription: SubscriptionOptions)
    | Unsubscribe(channel: BrokerAddress)

  datatype Command = Command(
    id: CommandId,
    sourceDeviceId: Option<string>,
    targetDeviceId: string,
    intent: Intent,
    correlation: Option<Correlation>)

  // ----- bridge representation -----

  datatype RequestAction = ReadAction | WriteAction | InvokeAction

  datatype MessagingAction = PublishAction | SubscribeAction | UnsubscribeAction

  datatype BridgeOp =
    | RequestResponseOp(request: RequestAction, verb: Option<string>, contentType: Option<string>)
    | MessagingOp(messaging: MessagingAction, delivery: Option<DeliveryGuarantee>,
                  durableName: Option<string>, sharedGroup: Option<string>)

  datatype Route =
    | RequestResponseRoute(resource: string, path: Option<string>)
    | MessagingRoute(topic: string)

  datatype BridgeCommand = BridgeCommand(
    id: CommandId,
    sourceDeviceId: Option<string>,
    targetDeviceId: string,
    operation: BridgeOp,
    payload: Option<PayloadValue>,
    route: Route,
    transport: Option<Capture>,
    headers: Option<Headers>,
    correlation: Option<Correlation>)
}

/** Semantic planners from commands into the bridge representation. */
module BridgePlanner {
  import opened Wrappers
  import opened TransportMetas
  import opened Commands

  datatype BridgePlannerError = UnsupportedIntent

  /** Moves non-empty capture headers out of the capture; the capture keeps no headers either way. */
  function SplitCaptureHeaders(transport: Option<Capture>): (Option<Capture>, Option<Headers>) {
    match transport
    case None => (None, None)
    case Some(meta) =>
      (Some(meta.(headers := None)), if meta.headers.Some? && meta.headers.value != [] then meta.headers else None)
  }

  function CaptureWithHeaders(transport: Option<Capture>, headers: Headers): (Option<Capture>, Option<Headers>) {
    var (rest, carried) := SplitCaptureHeaders(transport);
    var merged := headers + carried.GetOr([]);
    (rest, if merged != [] then Some(merged) else None)
  }

  function CommandToRequestResponse(command: Command): Result<BridgeCommand, BridgePlannerError> {
    match command.intent
    case Read(resource, options) => Ok(RequestResponse(command, resource, ReadAction, None, options))
    case Write(resource, payload, options) => Ok(RequestResponse(command, resource, WriteAction, Some(payload), options))
    case Invoke(operation, args, options) => Ok(RequestResponse(command, operation, InvokeAction, args, options))
    case _ => Err(UnsupportedIntent)
  }

  function RequestResponse(command: Command, resource: string, action: RequestAction, payload: Option<PayloadValue>,
                           options: RequestOptions): BridgeCommand {
    var (transport, headers) := CaptureWithHeaders(options.extensions, options.headers);
    BridgeCommand(command.id, command.sourceDeviceId, command.targetDeviceId,
                  RequestResponseOp(action, options.verb, options.contentType), payload,
                  RequestResponseRoute(resource, options.path), transport, headers, command.correlation)
  }

  function CommandToMessaging(command: Command): Result<BridgeCommand, BridgePlannerError> {
    match command.intent
    case Send(channel, payload, options) =>
      var (transport, headers) := CaptureWithHeaders(options.extensions, options.headers);
      Ok(Messaging(command, MessagingOp(PublishAction, options.delivery, None, None), Some(payload), channel,
                   transport, headers))
    case Subscribe(channel, options) =>
      var (transport, headers) := CaptureWithHeaders(options.extensions, []);
      Ok(Messaging(command, MessagingOp(SubscribeAction, options.delivery, options.durableName, options.sharedGroup),
                   None, channel, transport, headers))
    case Unsubscribe(channel) =>
      Ok(Messaging(command, MessagingOp(UnsubscribeAction, None, None, None), None, channel, None, None))
    case _ => Err(UnsupportedIntent)
  }

  function Messaging(command: Command, operation: BridgeOp, payload: Option<PayloadValue>, channel: BrokerAddress,
                     transport: Option<Capture>, headers: Option<Headers>): BridgeCommand {
    BridgeCommand(command.id, command.sourceDeviceId, command.targetDeviceId, operation, payload,
                  MessagingRoute(channel.name), transport, headers, command.correlation)
  }
}
