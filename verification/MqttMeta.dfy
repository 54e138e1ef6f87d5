/** The typed MQTT view over a transport capture: decoding, encoding, and how they undo each other. */
module MqttMetas {
  import opened Wrappers
  import opened Widths
  import opened TransportMetas

  datatype PayloadFormat = BytesFormat | Utf8Format
  datatype RetainHandling = SendRetained | SendRetainedIfNotExists | DoNotSendRetained

  datatype MqttMeta = MqttMeta(
    topic: Option<string>,
    qos: Option<byte>,
    retain: bool,
    duplicate: bool,
    packetId: Option<uint16>,
    contentType: Option<string>,
    payloadFormat: Option<PayloadFormat>,
    messageExpiryIntervalSecs: Option<uint32>,
    responseTopic: Option<string>,
    correlationData: Option<seq<byte>>,
    topicAlias: Option<uint16>,
    subscriptionIdentifiers: seq<uint32>,
    reasonCodes: seq<string>,
    reasonString: Option<string>,
    durableName: Option<string>,
    sharedGroup: Option<string>,
    noLocal: bool,
    retainAsPublished: bool,
    retainHandling: Option<RetainHandling>,
    headers: Option<Headers>)

  const DEFAULT: MqttMeta :=
    MqttMeta(None, None, false, false, None, None, None, None, None, None, None, [], [], None, None, None,
             false, false, None, None)

  datatype MetaError =
    | ForeignExtensions(protocol: string)
    | InvalidExtensionValue(valueKey: string, value: uint64)
    | InvalidExtensionName(nameKey: string, name: string)
    | InvalidExtensionType(typeKey: string)

  /** The documented capture keys. */
  datatype Key =
    | Topic | Qos | Retain | Duplicate | PacketId | ContentType | PayloadFormatKey | MessageExpiry
    | ResponseTopic | CorrelationData | TopicAlias | SubscriptionIdentifiers | ReasonCodes | ReasonString
    | DurableName | SharedGroup | NoLocal | RetainAsPublished | RetainHandlingKey

  function Name(key: Key): string {
    match key
    case Topic => "topic"
    case Qos => "qos"
    case Retain => "retain"
    case Duplicate => "duplicate"
    case PacketId => "packet-id"
    case ContentType => "content-type"
    case PayloadFormatKey => "payload-format"
    case MessageExpiry => "message-expiry-interval-secs"
    case ResponseTopic => "response-topic"
    case CorrelationData => "correlation-data"
    case TopicAlias => "topic-alias"
    case SubscriptionIdentifiers => "subscription-identifiers"
    case ReasonCodes => "reason-codes"
    case ReasonString => "reason-string"
    case DurableName => "durable-name"
    case SharedGroup => "shared-group"
    case NoLocal => "no-local"
    case RetainAsPublished => "retain-as-published"
    case RetainHandlingKey => "retain-handling"
  }

  /** The key a name spells, if any. */
  function KeyOf(name: string): (key: Option<Key>)
    ensures key.Some? ==> Name(key.value) == name
    ensures key.None? ==> forall k: Key :: Name(k) != name
  {
    if name == "topic" then Some(Topic)
    else if name == "qos" then Some(Qos)
    else if name == "retain" then Some(Retain)
    else if name == "duplicate" then Some(Duplicate)
    else if name == "packet-id" then Some(PacketId)
    else if name == "content-type" then Some(ContentType)
    else if name == "payload-format" then Some(PayloadFormatKey)
    else if name == "message-expiry-interval-secs" then Some(MessageExpiry)
    else if name == "response-topic" then Some(ResponseTopic)
    else if name == "correlation-data" then Some(CorrelationData)
    else if name == "topic-alias" then Some(TopicAlias)
    else if name == "subscription-identifiers" then Some(SubscriptionIdentifiers)
    else if name == "reason-codes" then Some(ReasonCodes)
    else if name == "reason-string" then Some(ReasonString)
    else if name == "durable-name" then Some(DurableName)
    else if name == "shared-group" then Some(SharedGroup)
    else if name == "no-local" then Some(NoLocal)
    else if name == "retain-as-published" then Some(RetainAsPublished)
    else if name == "retain-handling" then Some(RetainHandlingKey)
    else None
  }

  /** Length and first character of each key's name. */
  function Spelling(key: Key): (nat, char) {
    match key
    case Topic => (5, 't')
    case Qos => (3, 'q')
    case Retain => (6, 'r')
    case Duplicate => (9, 'd')
    case PacketId => (9, 'p')
    case ContentType => (12, 'c')
    case PayloadFormatKey => (14, 'p')
    case MessageExpiry => (28, 'm')
    case ResponseTopic => (14, 'r')
    case CorrelationData => (16, 'c')
    case TopicAlias => (11, 't')
    case SubscriptionIdentifiers => (24, 's')
    case ReasonCodes => (12, 'r')
    case ReasonString => (13, 'r')
    case DurableName => (12, 'd')
    case SharedGroup => (12, 's')
    case NoLocal => (8, 'n')
    case RetainAsPublished => (19, 'r')
    case RetainHandlingKey => (15, 'r')
  }

  lemma SpelledOut(key: Key)
    ensures (|Name(key)|, Name(key)[0]) == Spelling(key)
  {
  }

  /** Every name is read back as its own key: length and first character tell the keys apart. */
  lemma KeyOfName(key: Key)
    ensures KeyOf(Name(key)) == Some(key)
  {
    var read := KeyOf(Name(key));
    SpelledOut(key);
    SpelledOut(read.value);
  }

  function PayloadFormatName(format: PayloadFormat): string {
    if format.BytesFormat? then "bytes" else "utf8"
  }

  function PayloadFormatFromName(name: string): Option<PayloadFormat> {
    if name == "bytes" then Some(BytesFormat) else if name == "utf8" then Some(Utf8Format) else None
  }

  function RetainHandlingCode(handling: RetainHandling): uint64 {
    match handling
    case SendRetained => 0
    case SendRetainedIfNotExists => 1
    case DoNotSendRetained => 2
  }

  function RetainHandlingFromCode(code: uint64): Option<RetainHandling> {
    match code
    case 0 => Some(SendRetained)
    case 1 => Some(SendRetainedIfNotExists)
    case 2 => Some(DoNotSendRetained)
    case _ => None
  }

  function ExpectStr(key: string, value: MetaValue): Result<string, MetaError> {
    if value.Str? then Ok(value.text) else Err(InvalidExtensionType(key))
  }

  function ExpectU64(key: string, value: MetaValue): Result<uint64, MetaError> {
    if value.U64? then Ok(value.number) else Err(InvalidExtensionType(key))
  }

  function ExpectBool(key: string, value: MetaValue): Result<bool, MetaError> {
    if value.Bool? then Ok(value.flag) else Err(InvalidExtensionType(key))
  }

  /** An unsigned entry that must also fit the wire field, whose values lie below `bound`. */
  function ExpectBelow(key: string, value: MetaValue, bound: uint64): (r: Result<uint64, MetaError>)
    ensures r.Ok? ==> r.value < bound
  {
    var number :- ExpectU64(key, value);
    if number < bound then Ok(number) else Err(InvalidExtensionValue(key, number))
  }

  /** Every identifier must fit 32 bits; the first that does not is reported. */
  function CheckedIdentifiers(key: string, numbers: seq<uint64>): (r: Result<seq<uint32>, MetaError>)
    ensures r.Ok? <==> forall i :: 0 <= i < |numbers| ==> numbers[i] < 0x1_0000_0000
    ensures r.Ok? ==> r.value == numbers
  {
    if numbers == [] then Ok([])
    else if numbers[0] >= 0x1_0000_0000 then Err(InvalidExtensionValue(key, numbers[0]))
    else
      var rest :- CheckedIdentifiers(key, numbers[1..]);
      Ok([numbers[0]] + rest)
  }

  /** One decoding step: the known keys fill their field or fail, other names are ignored. */
  function Apply(view: MqttMeta, entry: Entry): Result<MqttMeta, MetaError> {
    match KeyOf(entry.0)
    case None => Ok(view)
    case Some(key) => ApplyKey(view, key, entry.1)
  }

  function ApplyKey(view: MqttMeta, key: Key, value: MetaValue): Result<MqttMeta, MetaError> {
    ApplyNamed(view, key, Name(key), value)
  }

  /** The step for a known key; `name` is what its errors call the entry. */
  function ApplyNamed(view: MqttMeta, key: Key, name: string, value: MetaValue): Result<MqttMeta, MetaError> {
    match key
    case Topic => var text :- ExpectStr(name, value); Ok(view.(topic := Some(text)))
    case Qos => var n :- ExpectBelow(name, value, 0x100); Ok(view.(qos := Some(n)))
    case Retain => var flag :- ExpectBool(name, value); Ok(view.(retain := flag))
    case Duplicate => var flag :- ExpectBool(name, value); Ok(view.(duplicate := flag))
    case PacketId => var n :- ExpectBelow(name, value, 0x1_0000); Ok(view.(packetId := Some(n)))
    case ContentType => var text :- ExpectStr(name, value); Ok(view.(contentType := Some(text)))
    case PayloadFormatKey =>
      var text :- ExpectStr(name, value);
      var format := PayloadFormatFromName(text);
      if format.None? then Err(InvalidExtensionName(name, text)) else Ok(view.(payloadFormat := format))
    case MessageExpiry =>
      var n :- ExpectBelow(name, value, 0x1_0000_0000); Ok(view.(messageExpiryIntervalSecs := Some(n)))
    case ResponseTopic => var text :- ExpectStr(name, value); Ok(view.(responseTopic := Some(text)))
    case CorrelationData =>
      if value.Bytes? then Ok(view.(correlationData := Some(value.bytes))) else Err(InvalidExtensionType(name))
    case TopicAlias => var n :- ExpectBelow(name, value, 0x1_0000); Ok(view.(topicAlias := Some(n)))
    case SubscriptionIdentifiers =>
      if !value.U64List? then Err(InvalidExtensionType(name))
      else var ids :- CheckedIdentifiers(name, value.numbers); Ok(view.(subscriptionIdentifiers := ids))
    case ReasonCodes =>
      if value.StrList? then Ok(view.(reasonCodes := value.texts)) else Err(InvalidExtensionType(name))
    case ReasonString => var text :- ExpectStr(name, value); Ok(view.(reasonString := Some(text)))
    case DurableName => var text :- ExpectStr(name, value); Ok(view.(durableName := Some(text)))
    case SharedGroup => var text :- ExpectStr(name, value); Ok(view.(sharedGroup := Some(text)))
    case NoLocal => var flag :- ExpectBool(name, value); Ok(view.(noLocal := flag))
    case RetainAsPublished => var flag :- ExpectBool(name, value); Ok(view.(retainAsPublished := flag))
    case RetainHandlingKey =>
      var code :- ExpectU64(name, value);
      var handling := RetainHandlingFromCode(code);
      if handling.None? then Err(InvalidExtensionValue(name, code)) else Ok(view.(retainHandling := handling))
  }

  function Decode(capture: Capture): Result<MqttMeta, MetaError> {
    if capture.protocol != MQTT then Err(ForeignExtensions(capture.protocol))
    else Fold(DEFAULT.(headers := capture.headers), FirstOccurrences(capture.entries), Apply)
  }

  method TryFromTransportMeta(meta: TransportMeta) returns (r: Result<MqttMeta, MetaError>)
    ensures r == Decode(meta.Value())
  {
    if meta.protocol != MQTT {
      return Err(ForeignExtensions(meta.protocol));
    }
    r := DecodeEntries(DEFAULT.(headers := meta.headers), meta.entries, Apply);
  }

  // ----- the independent reference: lookups by key -----

  function OptStr(text: Option<string>): Option<MetaValue> {
    if text.Some? then Some(Str(text.value)) else None
  }

  function OptU64(n: Option<int>): Option<MetaValue>
    requires n.Some? ==> 0 <= n.value <= UINT64_MAX
  {
    if n.Some? then Some(U64(n.value)) else None
  }

  function Flag(flag: bool): Option<MetaValue> {
    if flag then Some(Bool(true)) else None
  }

  /** The entry a view stores under a key: absent options, false flags and empty lists store nothing. */
  function Field(view: MqttMeta, key: Key): Option<MetaValue> {
    match key
    case Topic => OptStr(view.topic)
    case Qos => OptU64(view.qos)
    case Retain => Flag(view.retain)
    case Duplicate => Flag(view.duplicate)
    case PacketId => OptU64(view.packetId)
    case ContentType => OptStr(view.contentType)
    case PayloadFormatKey =>
      if view.payloadFormat.Some? then Some(Str(PayloadFormatName(view.payloadFormat.value))) else None
    case MessageExpiry => OptU64(view.messageExpiryIntervalSecs)
    case ResponseTopic => OptStr(view.responseTopic)
    case CorrelationData => if view.correlationData.Some? then Some(Bytes(view.correlationData.value)) else None
    case TopicAlias => OptU64(view.topicAlias)
    case SubscriptionIdentifiers =>
      if view.subscriptionIdentifiers != [] then Some(U64List(view.subscriptionIdentifiers)) else None
    case ReasonCodes => if view.reasonCodes != [] then Some(StrList(view.reasonCodes)) else None
    case ReasonString => OptStr(view.reasonString)
    case DurableName => OptStr(view.durableName)
    case SharedGroup => OptStr(view.sharedGroup)
    case NoLocal => Flag(view.noLocal)
    case RetainAsPublished => Flag(view.retainAsPublished)
    case RetainHandlingKey =>
      if view.retainHandling.Some? then Some(U64(RetainHandlingCode(view.retainHandling.value))) else None
  }

  /** Whether a value has the documented type and range of its key. */
  predicate WellFormed(key: Key, value: MetaValue) {
    match key
    case Topic | ContentType | ResponseTopic | ReasonString | DurableName | SharedGroup => value.Str?
    case Retain | Duplicate | NoLocal | RetainAsPublished => value.Bool?
    case Qos => value.U64? && value.number < 0x100
    case PacketId | TopicAlias => value.U64? && value.number < 0x1_0000
    case MessageExpiry => value.U64? && value.number < 0x1_0000_0000
    case PayloadFormatKey => value.Str? && value.text in ["bytes", "utf8"]
    case CorrelationData => value.Bytes?
    case SubscriptionIdentifiers =>
      value.U64List? && forall i :: 0 <= i < |value.numbers| ==> value.numbers[i] < 0x1_0000_0000
    case ReasonCodes => value.StrList?
    case RetainHandlingKey => value.U64? && value.number <= 2
  }

  /** Entries that spell a default (false, the empty list) read back as absent. */
  function Canonical(value: MetaValue): Option<MetaValue> {
    if value in {Bool(false), U64List([]), StrList([])} then None else Some(value)
  }

  lemma ApplySucceeds(view: MqttMeta, key: Key, value: MetaValue)
    ensures ApplyKey(view, key, value).Ok? <==> WellFormed(key, value)
  {
  }

  lemma AppliedField(view: MqttMeta, key: Key, name: string, value: MetaValue)
    ensures ApplyNamed(view, key, name, value).Ok? ==>
              var after := ApplyNamed(view, key, name, value).value;
              after.headers == view.headers && Field(after, key) == Canonical(value)
  {
  }

  lemma OtherField(view: MqttMeta, written: Key, name: string, value: MetaValue, key: Key)
    requires key != written
    ensures ApplyNamed(view, written, name, value).Ok? ==>
              Field(ApplyNamed(view, written, name, value).value, key) == Field(view, key)
  {
  }

  lemma ApplyKeyField(view: MqttMeta, written: Key, value: MetaValue, key: Key)
    requires ApplyKey(view, written, value).Ok?
    ensures ApplyKey(view, written, value).value.headers == view.headers
    ensures Field(ApplyKey(view, written, value).value, key) ==
            if key == written then Canonical(value) else Field(view, key)
  {
    AppliedField(view, written, Name(written), value);
    if key != written {
      OtherField(view, written, Name(written), value, key);
    }
  }

  lemma FieldIgnoresHeaders(view: MqttMeta, key: Key)
    ensures Field(view.(headers := None), key) == Field(view, key)
  {
  }

  /** Every known key is absent from the capture or holds a value of its documented type and range. */
  predicate WellFormedEntries(entries: Entries) {
    forall key: Key :: Get(entries, Name(key)).Some? ==> WellFormed(key, Get(entries, Name(key)).value)
  }

  /** What a lookup of a known key contributes to the view. */
  function LookedUp(entries: Entries, key: Key): Option<MetaValue> {
    var found := Get(entries, Name(key));
    if found.Some? then Canonical(found.value) else None
  }

  lemma {:induction false} FoldByLookup(view: MqttMeta, entries: Entries)
    requires DistinctKeys(entries)
    ensures Fold(view, entries, Apply).Ok? <==> WellFormedEntries(entries)
    ensures Fold(view, entries, Apply).Ok? ==>
              && Fold(view, entries, Apply).value.headers == view.headers
              && forall key: Key ::
                   Field(Fold(view, entries, Apply).value, key) ==
                   if Get(entries, Name(key)).Some? then LookedUp(entries, key) else Field(view, key)
  {
    if entries != [] {
      var prefix := DropLast(entries);
      var (name, value) := Last(entries);
      assert entries == prefix + [(name, value)];
      FoldByLookup(view, prefix);
      GetPresent(prefix, name);
      forall key: Key
        ensures Get(entries, Name(key)) == if name == Name(key) then Some(value) else Get(prefix, Name(key))
        ensures name == Name(key) <==> KeyOf(name) == Some(key)
      {
        GetAppend(prefix, [(name, value)], Name(key));
        KeyOfName(key);
      }
      if WellFormedEntries(prefix) && KeyOf(name).Some? {
        ApplySucceeds(Fold(view, prefix, Apply).value, KeyOf(name).value, value);
        if WellFormed(KeyOf(name).value, value) {
          forall key: Key {
            ApplyKeyField(Fold(view, prefix, Apply).value, KeyOf(name).value, value, key);
          }
        }
      }
    }
  }

  /** The two views hold the same value in the field of `key`. */
  predicate Agree(a: MqttMeta, b: MqttMeta, key: Key) {
    match key
    case Topic => a.topic == b.topic
    case Qos => a.qos == b.qos
    case Retain => a.retain == b.retain
    case Duplicate => a.duplicate == b.duplicate
    case PacketId => a.packetId == b.packetId
    case ContentType => a.contentType == b.contentType
    case PayloadFormatKey => a.payloadFormat == b.payloadFormat
    case MessageExpiry => a.messageExpiryIntervalSecs == b.messageExpiryIntervalSecs
    case ResponseTopic => a.responseTopic == b.responseTopic
    case CorrelationData => a.correlationData == b.correlationData
    case TopicAlias => a.topicAlias == b.topicAlias
    case SubscriptionIdentifiers => a.subscriptionIdentifiers == b.subscriptionIdentifiers
    case ReasonCodes => a.reasonCodes == b.reasonCodes
    case ReasonString => a.reasonString == b.reasonString
    case DurableName => a.durableName == b.durableName
    case SharedGroup => a.sharedGroup == b.sharedGroup
    case NoLocal => a.noLocal == b.noLocal
    case RetainAsPublished => a.retainAsPublished == b.retainAsPublished
    case RetainHandlingKey => a.retainHandling == b.retainHandling
  }

  lemma FieldDetermines(a: MqttMeta, b: MqttMeta, key: Key)
    requires Field(a, key) == Field(b, key)
    ensures Agree(a, b, key)
  {
    if key.PayloadFormatKey? && a.payloadFormat.Some? {
      assert |PayloadFormatName(BytesFormat)| != |PayloadFormatName(Utf8Format)|;
    }
  }

  predicate AllAgree(a: MqttMeta, b: MqttMeta) {
    forall key: Key :: Agree(a, b, key)
  }

  lemma EnvelopeAgrees(a: MqttMeta, b: MqttMeta)
    requires AllAgree(a, b)
    ensures a.topic == b.topic && a.qos == b.qos && a.retain == b.retain && a.duplicate == b.duplicate
    ensures a.packetId == b.packetId
  {
    assert Agree(a, b, Topic) && Agree(a, b, Qos) && Agree(a, b, Retain) && Agree(a, b, Duplicate);
    assert Agree(a, b, PacketId);
  }

  lemma PropertiesAgree(a: MqttMeta, b: MqttMeta)
    requires AllAgree(a, b)
    ensures a.contentType == b.contentType && a.payloadFormat == b.payloadFormat
    ensures a.messageExpiryIntervalSecs == b.messageExpiryIntervalSecs && a.responseTopic == b.responseTopic
    ensures a.correlationData == b.correlationData
  {
    assert Agree(a, b, ContentType) && Agree(a, b, PayloadFormatKey) && Agree(a, b, MessageExpiry);
    assert Agree(a, b, ResponseTopic) && Agree(a, b, CorrelationData);
  }

  lemma ReasonsAgree(a: MqttMeta, b: MqttMeta)
    requires AllAgree(a, b)
    ensures a.topicAlias == b.topicAlias && a.subscriptionIdentifiers == b.subscriptionIdentifiers
    ensures a.reasonCodes == b.reasonCodes && a.reasonString == b.reasonString
  {
    assert Agree(a, b, TopicAlias) && Agree(a, b, SubscriptionIdentifiers) && Agree(a, b, ReasonCodes);
    assert Agree(a, b, ReasonString);
  }

  lemma SubscriptionAgrees(a: MqttMeta, b: MqttMeta)
    requires AllAgree(a, b)
    ensures a.durableName == b.durableName && a.sharedGroup == b.sharedGroup && a.noLocal == b.noLocal
    ensures a.retainAsPublished == b.retainAsPublished && a.retainHandling == b.retainHandling
  {
    assert Agree(a, b, DurableName) && Agree(a, b, SharedGroup) && Agree(a, b, NoLocal);
    assert Agree(a, b, RetainAsPublished) && Agree(a, b, RetainHandlingKey);
  }

  /** A view is nothing but its fields and headers. */
  lemma FieldsDetermineView(a: MqttMeta, b: MqttMeta)
    requires a.headers == b.headers
    requires forall key: Key :: Field(a, key) == Field(b, key)
    ensures a == b
  {
    assert AllAgree(a, b) by {
      forall key: Key
        ensures Agree(a, b, key)
      {
        FieldDetermines(a, b, key);
      }
    }
    EnvelopeAgrees(a, b);
    PropertiesAgree(a, b);
    ReasonsAgree(a, b);
    SubscriptionAgrees(a, b);
  }

  /**
   * Decoding is lookup: an MQTT capture decodes exactly when each known key that `get` finds is
   * well formed, and the view's fields are what `get` returns. Duplicates shadowed by an earlier
   * entry and unknown keys never matter.
   */
  lemma DecodeIsLookup(capture: Capture)
    requires capture.protocol == MQTT
    ensures Decode(capture).Ok? <==> WellFormedEntries(capture.entries)
    ensures Decode(capture).Ok? ==>
              && Decode(capture).value.headers == capture.headers
              && forall key: Key :: Field(Decode(capture).value, key) == LookedUp(capture.entries, key)
  {
    var entries, first, start := capture.entries, FirstOccurrences(capture.entries), DEFAULT.(headers := capture.headers);
    FirstOccurrencesGet(entries, "");
    forall key: Key
      ensures Get(first, Name(key)) == Get(entries, Name(key))
      ensures Field(start, key) == None
    {
      FirstOccurrencesGet(entries, Name(key));
    }
    FoldByLookup(start, first);
  }

  function NumberAt(entries: Entries, name: string): Option<uint64> {
    match Get(entries, name) case Some(U64(number)) => Some(number) case _ => None
  }

  predicate FlagAt(entries: Entries, name: string) {
    Get(entries, name) == Some(Bool(true))
  }

  /** The envelope of a view is what `get` returns under the documented names. */
  predicate ReadsEnvelope(entries: Entries, view: MqttMeta) {
    && view.topic == TextAt(entries, "topic") && view.qos == NumberAt(entries, "qos")
    && view.retain == FlagAt(entries, "retain") && view.duplicate == FlagAt(entries, "duplicate")
    && view.packetId == NumberAt(entries, "packet-id")
  }

  predicate ReadsProperties(entries: Entries, view: MqttMeta) {
    && view.contentType == TextAt(entries, "content-type")
    && (view.payloadFormat == Some(Utf8Format) <==> TextAt(entries, "payload-format") == Some("utf8"))
    && (view.payloadFormat == Some(BytesFormat) <==> TextAt(entries, "payload-format") == Some("bytes"))
    && view.messageExpiryIntervalSecs == NumberAt(entries, "message-expiry-interval-secs")
    && view.responseTopic == TextAt(entries, "response-topic")
    && view.correlationData == (match Get(entries, "correlation-data") case Some(Bytes(b)) => Some(b) case _ => None)
    && view.topicAlias == NumberAt(entries, "topic-alias")
    && view.subscriptionIdentifiers
       == (match Get(entries, "subscription-identifiers") case Some(U64List(ids)) => ids case _ => [])
    && view.reasonCodes == (match Get(entries, "reason-codes") case Some(StrList(texts)) => texts case _ => [])
    && view.reasonString == TextAt(entries, "reason-string")
  }

  predicate ReadsSubscription(entries: Entries, view: MqttMeta) {
    && view.durableName == TextAt(entries, "durable-name") && view.sharedGroup == TextAt(entries, "shared-group")
    && view.noLocal == FlagAt(entries, "no-local") && view.retainAsPublished == FlagAt(entries, "retain-as-published")
    && (view.retainHandling == Some(SendRetained) <==> NumberAt(entries, "retain-handling") == Some(0))
    && (view.retainHandling == Some(SendRetainedIfNotExists) <==> NumberAt(entries, "retain-handling") == Some(1))
    && (view.retainHandling == Some(DoNotSendRetained) <==> NumberAt(entries, "retain-handling") == Some(2))
  }

  ghost predicate LookedUpBy(entries: Entries, view: MqttMeta) {
    WellFormedEntries(entries) && forall key: Key :: Field(view, key) == LookedUp(entries, key)
  }

  /** A decoded view, field by field: what `get` returns under the documented names and types. */
  lemma DecodeReads(capture: Capture)
    requires Decode(capture).Ok?
    ensures var view := Decode(capture).value;
            && ReadsEnvelope(capture.entries, view) && ReadsProperties(capture.entries, view)
            && ReadsSubscription(capture.entries, view) && view.headers == capture.headers
  {
    DecodeIsLookup(capture);
    var entries, view := capture.entries, Decode(capture).value;
    assert LookedUpBy(entries, view);
    EnvelopeRead(entries, view);
    PropertiesRead(entries, view);
    SubscriptionRead(entries, view);
  }

  lemma TextRead(entries: Entries, view: MqttMeta, key: Key)
    requires LookedUpBy(entries, view)
    requires key.Topic? || key.ContentType? || key.ResponseTopic? || key.ReasonString? || key.DurableName? || key.SharedGroup?
    ensures Field(view, key) == OptStr(TextAt(entries, Name(key)))
  {
    assert Field(view, key) == LookedUp(entries, key);
    assert Get(entries, Name(key)).Some? ==> WellFormed(key, Get(entries, Name(key)).value);
  }

  lemma NumberRead(entries: Entries, view: MqttMeta, key: Key)
    requires LookedUpBy(entries, view)
    requires key.Qos? || key.PacketId? || key.MessageExpiry? || key.TopicAlias? || key.RetainHandlingKey?
    ensures Field(view, key) == OptU64(NumberAt(entries, Name(key)))
  {
    assert Field(view, key) == LookedUp(entries, key);
    assert Get(entries, Name(key)).Some? ==> WellFormed(key, Get(entries, Name(key)).value);
  }

  lemma FlagRead(entries: Entries, view: MqttMeta, key: Key)
    requires LookedUpBy(entries, view)
    requires key.Retain? || key.Duplicate? || key.NoLocal? || key.RetainAsPublished?
    ensures Field(view, key) == Flag(FlagAt(entries, Name(key)))
  {
    assert Field(view, key) == LookedUp(entries, key);
    assert Get(entries, Name(key)).Some? ==> WellFormed(key, Get(entries, Name(key)).value);
  }

  lemma EnvelopeRead(entries: Entries, view: MqttMeta)
    requires LookedUpBy(entries, view)
    ensures ReadsEnvelope(entries, view)
  {
    TextRead(entries, view, Topic);
    NumberRead(entries, view, Qos);
    FlagRead(entries, view, Retain);
    FlagRead(entries, view, Duplicate);
    NumberRead(entries, view, PacketId);
  }

  lemma FormatRead(entries: Entries, view: MqttMeta)
    requires LookedUpBy(entries, view)
    ensures view.payloadFormat == Some(Utf8Format) <==> TextAt(entries, "payload-format") == Some("utf8")
    ensures view.payloadFormat == Some(BytesFormat) <==> TextAt(entries, "payload-format") == Some("bytes")
  {
    assert Field(view, PayloadFormatKey) == LookedUp(entries, PayloadFormatKey);
    assert |"bytes"| != |"utf8"|;
  }

  lemma ListsRead(entries: Entries, view: MqttMeta)
    requires LookedUpBy(entries, view)
    ensures view.correlationData == (match Get(entries, "correlation-data") case Some(Bytes(b)) => Some(b) case _ => None)
    ensures view.subscriptionIdentifiers
         == (match Get(entries, "subscription-identifiers") case Some(U64List(ids)) => ids case _ => [])
    ensures view.reasonCodes == (match Get(entries, "reason-codes") case Some(StrList(texts)) => texts case _ => [])
  {
    assert Field(view, CorrelationData) == LookedUp(entries, CorrelationData);
    assert Field(view, SubscriptionIdentifiers) == LookedUp(entries, SubscriptionIdentifiers);
    assert Field(view, ReasonCodes) == LookedUp(entries, ReasonCodes);
  }

  lemma PropertiesRead(entries: Entries, view: MqttMeta)
    requires LookedUpBy(entries, view)
    ensures ReadsProperties(entries, view)
  {
    FormatRead(entries, view);
    ListsRead(entries, view);
    TextRead(entries, view, ContentType);
    NumberRead(entries, view, MessageExpiry);
    TextRead(entries, view, ResponseTopic);
    NumberRead(entries, view, TopicAlias);
    TextRead(entries, view, ReasonString);
  }

  lemma SubscriptionRead(entries: Entries, view: MqttMeta)
    requires LookedUpBy(entries, view)
    ensures ReadsSubscription(entries, view)
  {
    TextRead(entries, view, DurableName);
    TextRead(entries, view, SharedGroup);
    FlagRead(entries, view, NoLocal);
    FlagRead(entries, view, RetainAsPublished);
    NumberRead(entries, view, RetainHandlingKey);
  }

  predicate HasType(key: Key, value: MetaValue) {
    match key
    case Topic | ContentType | ResponseTopic | ReasonString | DurableName | SharedGroup | PayloadFormatKey => value.Str?
    case Retain | Duplicate | NoLocal | RetainAsPublished => value.Bool?
    case Qos | PacketId | TopicAlias | MessageExpiry | RetainHandlingKey => value.U64?
    case CorrelationData => value.Bytes?
    case SubscriptionIdentifiers => value.U64List?
    case ReasonCodes => value.StrList?
  }

  predicate FirstTooWide(numbers: seq<uint64>, n: uint64) {
    exists i :: 0 <= i < |numbers| && numbers[i] == n >= 0x1_0000_0000
      && forall j | 0 <= j < i :: numbers[j] < 0x1_0000_0000
  }

  /** The error says what is wrong with the value under its key: the type, the number or the name. */
  predicate Blames(key: Key, value: MetaValue, error: MetaError) {
    if !HasType(key, value) then error == InvalidExtensionType(Name(key))
    else match value
      case Str(text) => error == InvalidExtensionName(Name(key), text)
      case U64(number) => error == InvalidExtensionValue(Name(key), number)
      case U64List(numbers) => error.InvalidExtensionValue? && error.valueKey == Name(key) && FirstTooWide(numbers, error.value)
      case _ => false
  }

  lemma {:induction false} WidthChecked(key: string, numbers: seq<uint64>)
    requires CheckedIdentifiers(key, numbers).Err?
    ensures var error := CheckedIdentifiers(key, numbers).error;
            error.InvalidExtensionValue? && error.valueKey == key && FirstTooWide(numbers, error.value)
  {
    if numbers[0] < 0x1_0000_0000 {
      WidthChecked(key, numbers[1..]);
      var n := CheckedIdentifiers(key, numbers).error.value;
      var i :| 0 <= i < |numbers[1..]| && numbers[1..][i] == n >= 0x1_0000_0000
               && forall j | 0 <= j < i :: numbers[1..][j] < 0x1_0000_0000;
      assert numbers[i + 1] == n && forall j | 1 <= j < i + 1 :: numbers[j] == numbers[1..][j - 1];
    }
  }

  lemma ApplyFails(view: MqttMeta, key: Key, value: MetaValue)
    requires !WellFormed(key, value)
    ensures ApplyKey(view, key, value).Err? && Blames(key, value, ApplyKey(view, key, value).error)
  {
    ApplySucceeds(view, key, value);
    if key.SubscriptionIdentifiers? && value.U64List? {
      WidthChecked(Name(key), value.numbers);
    }
  }

  predicate Malformed(entry: Entry) {
    KeyOf(entry.0).Some? && !WellFormed(KeyOf(entry.0).value, entry.1)
  }

  /** The `i`-th entry is the first malformed one, and the error is about it. */
  predicate FirstBlamed(entries: Entries, i: nat, error: MetaError) {
    && i < |entries| && Malformed(entries[i]) && Blames(KeyOf(entries[i].0).value, entries[i].1, error)
    && forall j | 0 <= j < i :: !Malformed(entries[j])
  }

  lemma EntryApplied(view: MqttMeta, entry: Entry)
    ensures Apply(view, entry).Ok? <==> !Malformed(entry)
    ensures Malformed(entry) ==> Blames(KeyOf(entry.0).value, entry.1, Apply(view, entry).error)
  {
    if KeyOf(entry.0).Some? {
      ApplySucceeds(view, KeyOf(entry.0).value, entry.1);
      if Malformed(entry) {
        ApplyFails(view, KeyOf(entry.0).value, entry.1);
      }
    }
  }

  /** A capture that does not decode is foreign, or the error is about its first malformed entry that is not shadowed. */
  lemma DecodeFailsFirst(capture: Capture)
    requires Decode(capture).Err?
    ensures if capture.protocol != MQTT then Decode(capture).error == ForeignExtensions(capture.protocol)
            else exists i: nat :: FirstBlamed(FirstOccurrences(capture.entries), i, Decode(capture).error)
  {
    if capture.protocol == MQTT {
      var start, first := DEFAULT.(headers := capture.headers), FirstOccurrences(capture.entries);
      var i, sofar := FoldStops(start, first, Apply);
      EntryApplied(sofar, first[i]);
      forall j | 0 <= j < i
        ensures !Malformed(first[j])
      {
        var before := FoldApplied(start, first[..i], Apply, j);
        EntryApplied(before, first[j]);
      }
      assert FirstBlamed(first, i, Decode(capture).error);
    }
  }

  /** Decoding a capture is decoding its first-occurrence deduplication, errors included. */
  lemma DecodeIgnoresShadowed(capture: Capture)
    ensures Decode(capture) == Decode(capture.(entries := FirstOccurrences(capture.entries)))
  {
    FirstOccurrencesGet(capture.entries, "");
    FirstOccurrencesOfDistinct(FirstOccurrences(capture.entries));
  }

  /** Two captures that answer every `get` alike decode to the same view, whatever their order and duplicates. */
  lemma DecodeSeesOnlyLookups(a: Capture, b: Capture)
    requires a.protocol == b.protocol == MQTT && a.headers == b.headers
    requires forall key: Key :: Get(a.entries, Name(key)) == Get(b.entries, Name(key))
    ensures Decode(a).Ok? <==> Decode(b).Ok?
    ensures Decode(a).Ok? ==> Decode(a) == Decode(b)
  {
    DecodeIsLookup(a);
    DecodeIsLookup(b);
    if Decode(a).Ok? {
      FieldsDetermineView(Decode(a).value, Decode(b).value);
    }
  }

  // ----- encoding -----

  function Put(entries: Entries, view: MqttMeta, key: Key): Entries {
    if Field(view, key).Some? then SetEntry(entries, Name(key), Field(view, key).value) else entries
  }

  function PutAll(view: MqttMeta, keys: seq<Key>): Entries {
    if keys == [] then [] else Put(PutAll(view, DropLast(keys)), view, Last(keys))
  }

  /** The order in which the encoder sets the keys. */
  const ENCODE_ORDER: seq<Key> :=
    [Topic, Qos, Retain, Duplicate, PacketId, ContentType, PayloadFormatKey, MessageExpiry, ResponseTopic,
     CorrelationData, TopicAlias, SubscriptionIdentifiers, ReasonCodes, ReasonString, DurableName, SharedGroup,
     NoLocal, RetainAsPublished, RetainHandlingKey]

  function Encode(view: MqttMeta): Capture {
    Capture(MQTT, view.headers, PutAll(view, ENCODE_ORDER))
  }

  /** The encoder's chain of conditional `set` calls. */
  method IntoTransportMeta(view: MqttMeta) returns (meta: TransportMeta)
    ensures fresh(meta) && meta.Value() == Encode(view)
  {
    meta := new TransportMeta(MQTT);
    for n := 0 to |ENCODE_ORDER|
      invariant meta.entries == PutAll(view, ENCODE_ORDER[..n])
      invariant fresh(meta) && meta.protocol == MQTT
    {
      assert DropLast(ENCODE_ORDER[..n + 1]) == ENCODE_ORDER[..n];
      var field := Field(view, ENCODE_ORDER[n]);
      if field.Some? {
        meta.Set(Name(ENCODE_ORDER[n]), field.value);
      }
    }
    assert ENCODE_ORDER[..|ENCODE_ORDER|] == ENCODE_ORDER;
    meta.headers := view.headers;
  }

  lemma PutGet(entries: Entries, view: MqttMeta, written: Key, key: Key)
    ensures Get(Put(entries, view, written), Name(key))
         == if key == written && Field(view, key).Some? then Field(view, key) else Get(entries, Name(key))
  {
    var field := Field(view, written);
    if field.Some? {
      KeyOfName(key);
      KeyOfName(written);
      GetAfterSet(entries, Name(written), field.value, Name(key));
    }
  }

  lemma {:induction false} PutAllGet(view: MqttMeta, keys: seq<Key>, key: Key)
    ensures Get(PutAll(view, keys), Name(key)) == if key in keys then Field(view, key) else None
  {
    if keys != [] {
      PutAllGet(view, DropLast(keys), key);
      PutGet(PutAll(view, DropLast(keys)), view, Last(keys), key);
      assert keys == DropLast(keys) + [Last(keys)];
    }
  }

  /** The encoder stores exactly the view's fields, and decoding gives the view back. */
  lemma DecodeEncode(view: MqttMeta)
    ensures Decode(Encode(view)) == Ok(view)
    ensures forall key: Key :: Get(Encode(view).entries, Name(key)) == Field(view, key)
  {
    var capture := Encode(view);
    forall key: Key
      ensures Get(capture.entries, Name(key)) == Field(view, key)
      ensures LookedUp(capture.entries, key) == Field(view, key)
      ensures Field(view, key).Some? ==> WellFormed(key, Field(view, key).value)
    {
      PutAllGet(view, ENCODE_ORDER, key);
      FieldWellFormed(view, key);
    }
    DecodeIsLookup(capture);
    FieldsDetermineView(Decode(capture).value, view);
  }

  lemma FieldWellFormed(view: MqttMeta, key: Key)
    ensures key in ENCODE_ORDER
    ensures Field(view, key).Some? ==>
              WellFormed(key, Field(view, key).value) && Canonical(Field(view, key).value) == Field(view, key)
  {
    match key {
      case Topic => assert ENCODE_ORDER[0] == key;
      case Qos => assert ENCODE_ORDER[1] == key;
      case Retain => assert ENCODE_ORDER[2] == key;
      case Duplicate => assert ENCODE_ORDER[3] == key;
      case PacketId => assert ENCODE_ORDER[4] == key;
      case ContentType => assert ENCODE_ORDER[5] == key;
      case PayloadFormatKey => assert ENCODE_ORDER[6] == key;
      case MessageExpiry => assert ENCODE_ORDER[7] == key;
      case ResponseTopic => assert ENCODE_ORDER[8] == key;
      case CorrelationData => assert ENCODE_ORDER[9] == key;
      case TopicAlias => assert ENCODE_ORDER[10] == key;
      case SubscriptionIdentifiers => assert ENCODE_ORDER[11] == key;
      case ReasonCodes => assert ENCODE_ORDER[12] == key;
      case ReasonString => assert ENCODE_ORDER[13] == key;
      case DurableName => assert ENCODE_ORDER[14] == key;
      case SharedGroup => assert ENCODE_ORDER[15] == key;
      case NoLocal => assert ENCODE_ORDER[16] == key;
      case RetainAsPublished => assert ENCODE_ORDER[17] == key;
      case RetainHandlingKey => assert ENCODE_ORDER[18] == key;
    }
  }

  /** Re-encoding a decoded capture answers each known key as the capture did, up to spelled-out defaults. */
  lemma EncodeDecode(capture: Capture)
    requires capture.protocol == MQTT && WellFormedEntries(capture.entries)
    ensures Decode(capture).Ok?
    ensures forall key: Key ::
              Get(Encode(Decode(capture).value).entries, Name(key)) == LookedUp(capture.entries, key)
  {
    DecodeIsLookup(capture);
    DecodeEncode(Decode(capture).value);
  }
}
