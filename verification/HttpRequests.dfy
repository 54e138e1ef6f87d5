/** Building HTTP requests: the native and the bridge route, and the in-place header merge. */
module HttpRequests {
  import opened Wrappers
  import opened Widths
  import opened TransportMetas
  import opened Commands
  import BridgePlanner
  import HttpMetas

  datatype HttpRequest = HttpRequest(verb: string, path: string, body: Option<seq<byte>>, headers: Headers)

  datatype ResourceAttributes = ResourceAttributes(slug: string, verb: string, headers: Option<Headers>)

  /** A device, and the text encoding its request bodies use. */
  datatype HttpDevice = HttpDevice(resources: map<string, ResourceAttributes>, utf8: string -> seq<byte>)

  datatype ConversionError =
    | UnsupportedIntent
    | UnknownResource(resource: string)
    | InvalidPayload
    | Bridge(planner: BridgePlanner.BridgePlannerError)
    | InvalidBridgeMessage
    | Extensions(meta: HttpMetas.MetaError)

  datatype NativePlan = NativePlan(
    resource: string,
    action: RequestAction,
    payload: Option<PayloadValue>,
    verb: Option<string>,
    path: Option<string>,
    contentType: Option<string>,
    headers: Headers)

  // ----- header merge -----

  function LowerChar(c: char): char {
    if 'A' <= c <= 'Z' then c - 'A' + 'a' else c
  }

  function Lower(s: string): string {
    Map(LowerChar, s)
  }

  /** The characters are the same, or the two cases of one ASCII letter. */
  predicate SameLetter(a: char, b: char) {
    || a == b
    || ('A' <= a <= 'Z' && b == a - 'A' + 'a')
    || ('A' <= b <= 'Z' && a == b - 'A' + 'a')
  }

  lemma SameLetterExactly(a: char, b: char)
    ensures LowerChar(a) == LowerChar(b) <==> SameLetter(a, b)
  {
  }

  /** Names are compared letter by letter, ignoring ASCII case and nothing else. */
  lemma SameNameExactly(a: string, b: string)
    ensures Lower(a) == Lower(b) <==> |a| == |b| && forall i | 0 <= i < |a| :: SameLetter(a[i], b[i])
  {
    assert |Lower(a)| == |a| && |Lower(b)| == |b|;
    if |a| == |b| {
      forall i | 0 <= i < |a|
        ensures Lower(a)[i] == Lower(b)[i] <==> SameLetter(a[i], b[i])
      {
        SameLetterExactly(a[i], b[i]);
      }
    }
  }

  /** The value of the first header whose name matches ignoring ASCII case. */
  function Lookup(headers: Headers, name: string): Option<string> {
    if headers == [] then None
    else if Lower(headers[0].key) == Lower(name) then Some(headers[0].value)
    else Lookup(headers[1..], name)
  }

  /** The value of the last such header. */
  function LookupLast(headers: Headers, name: string): Option<string> {
    if headers == [] then None
    else if Lower(Last(headers).key) == Lower(name) then Some(Last(headers).value)
    else LookupLast(DropLast(headers), name)
  }

  function Position(headers: Headers, name: string): (i: nat)
    ensures i <= |headers|
    ensures i < |headers| ==> Lower(headers[i].key) == Lower(name)
    ensures forall j :: 0 <= j < i ==> Lower(headers[j].key) != Lower(name)
  {
    if headers == [] || Lower(headers[0].key) == Lower(name) then 0 else 1 + Position(headers[1..], name)
  }

  function Merged(headers: Headers, header: Header): Headers {
    var i := Position(headers, header.key);
    if i < |headers| then headers[i := header] else headers + [header]
  }

  method MergeHeader(headers: Headers, header: Header) returns (r: Headers)
    ensures r == Merged(headers, header)
  {
    var i := 0;
    while i < |headers| && Lower(headers[i].key) != Lower(header.key)
      invariant i <= |headers|
      invariant Position(headers, header.key) == i + Position(headers[i..], header.key)
    {
      i := i + 1;
    }
    if i < |headers| {
      r := headers[i := header];
    } else {
      r := headers + [header];
    }
  }

  function MergedAll(headers: Headers, planned: Headers): Headers {
    if planned == [] then headers else Merged(MergedAll(headers, DropLast(planned)), Last(planned))
  }

  lemma {:induction false} LookupAppend(left: Headers, right: Headers, name: string)
    ensures Lookup(left + right, name) == OrElse(Lookup(left, name), Lookup(right, name))
  {
    if left == [] {
      assert left + right == right;
    } else {
      assert (left + right)[1..] == left[1..] + right;
      LookupAppend(left[1..], right, name);
    }
  }

  lemma {:induction false} LookupAtPosition(headers: Headers, name: string)
    ensures Lookup(headers, name) ==
            var i := Position(headers, name); if i < |headers| then Some(headers[i].value) else None
  {
    if headers != [] && Lower(headers[0].key) != Lower(name) {
      LookupAtPosition(headers[1..], name);
    }
  }

  /** One merge overrides one case-insensitive name and leaves every other lookup alone. */
  lemma LookupMerged(headers: Headers, header: Header, name: string)
    ensures Lookup(Merged(headers, header), name) ==
            if Lower(name) == Lower(header.key) then Some(header.value) else Lookup(headers, name)
  {
    var i := Position(headers, header.key);
    if i == |headers| {
      LookupAppend(headers, [header], name);
      LookupAtPosition(headers, name);
      PositionOfSameName(headers, header.key, name);
    } else {
      var after := Merged(headers, header);
      assert headers == headers[..i] + headers[i..] && after == headers[..i] + after[i..];
      LookupAppend(headers[..i], headers[i..], name);
      LookupAppend(headers[..i], after[i..], name);
      assert headers[i..][1..] == headers[i + 1..] == after[i..][1..];
      LookupAtPosition(headers[..i], name);
    }
  }

  /** A merge writes the first header of the name in place, spelling included, or appends; the others keep their places. */
  lemma MergeKeepsPlaces(headers: Headers, header: Header, i: nat)
    requires i < |headers|
    ensures var after := Merged(headers, header);
            && |after| == |headers| + (if Lookup(headers, header.key).None? then 1 else 0)
            && after[i] == (if Lower(headers[i].key) == Lower(header.key) && Lookup(headers[..i], header.key).None?
                            then header else headers[i])
            && (Lookup(headers, header.key).None? ==> Last(after) == header)
  {
    LookupAtPosition(headers, header.key);
    LookupAtPosition(headers[..i], header.key);
    var first := Position(headers, header.key);
    if first < i {
      assert Lower(headers[..i][first].key) == Lower(header.key);
    }
  }

  lemma {:induction false} PositionOfSameName(headers: Headers, a: string, b: string)
    ensures Lower(a) == Lower(b) ==> Position(headers, a) == Position(headers, b)
  {
    if headers != [] {
      PositionOfSameName(headers[1..], a, b);
    }
  }

  lemma {:induction false} LookupMergedAll(headers: Headers, planned: Headers, name: string)
    ensures Lookup(MergedAll(headers, planned), name) == OrElse(LookupLast(planned, name), Lookup(headers, name))
  {
    if planned != [] {
      LookupMergedAll(headers, DropLast(planned), name);
      LookupMerged(MergedAll(headers, DropLast(planned)), Last(planned), name);
    }
  }

  function Names(headers: Headers): seq<string> {
    Map((h: Header) => Lower(h.key), headers)
  }

  /** The names in `planned` not among `known`, each where it is first seen. */
  function NewNames(planned: Headers, known: seq<string>): seq<string> {
    if planned == [] then []
    else
      var sofar := NewNames(DropLast(planned), known);
      var name := Lower(Last(planned).key);
      if name in known || name in sofar then sofar else sofar + [name]
  }

  /** Static names keep their positions and new names follow in first-seen order. */
  lemma {:induction false} NamesMergedAll(headers: Headers, planned: Headers)
    ensures Names(MergedAll(headers, planned)) == Names(headers) + NewNames(planned, Names(headers))
  {
    if planned != [] {
      NamesMergedAll(headers, DropLast(planned));
      var before := MergedAll(headers, DropLast(planned));
      var i := Position(before, Last(planned).key);
      var name := Lower(Last(planned).key);
      assert i < |before| ==> Names(before)[i] == name;
      assert name in Names(before) ==> exists j :: 0 <= j < |before| && Lower(before[j].key) == name;
      assert Names(before + [Last(planned)]) == Names(before) + [name];
      assert i < |before| ==> Names(before[i := Last(planned)]) == Names(before);
    }
  }

  // ----- encoding -----

  function Body(device: HttpDevice, payload: Option<PayloadValue>): Result<Option<seq<byte>>, ConversionError> {
    match payload
    case None => Ok(None)
    case Some(BytesValue(bytes)) => Ok(Some(bytes))
    case Some(StringValue(text)) => Ok(Some(device.utf8(text)))
    case Some(Null) => Ok(Some([]))
    case _ => Err(InvalidPayload)
  }

  function DeclaredHeaders(plan: NativePlan): Headers {
    plan.headers + if plan.contentType.Some? then [Header("Content-Type", plan.contentType.value)] else []
  }

  function Encoded(device: HttpDevice, plan: NativePlan): Result<HttpRequest, ConversionError> {
    if plan.resource !in device.resources then Err(UnknownResource(plan.resource))
    else
      var attributes := device.resources[plan.resource];
      var body :- Body(device, plan.payload);
      Ok(HttpRequest(plan.verb.GetOr(attributes.verb), plan.path.GetOr(attributes.slug), body,
                     MergedAll(attributes.headers.GetOr([]), DeclaredHeaders(plan))))
  }

  method Encode(device: HttpDevice, plan: NativePlan) returns (r: Result<HttpRequest, ConversionError>)
    ensures r == Encoded(device, plan)
  {
    if plan.resource !in device.resources {
      return Err(UnknownResource(plan.resource));
    }
    var attributes := device.resources[plan.resource];
    var body :- Body(device, plan.payload);
    var verb := attributes.verb;
    if plan.verb.Some? {
      verb := plan.verb.value;
    }
    var headers := attributes.headers.GetOr([]);
    for i := 0 to |plan.headers|
      invariant headers == MergedAll(attributes.headers.GetOr([]), plan.headers[..i])
    {
      assert DropLast(plan.headers[..i + 1]) == plan.headers[..i];
      headers := MergeHeader(headers, plan.headers[i]);
    }
    assert plan.headers[..|plan.headers|] == plan.headers;
    if plan.contentType.Some? {
      assert DropLast(DeclaredHeaders(plan)) == plan.headers;
      headers := MergeHeader(headers, Header("Content-Type", plan.contentType.value));
    } else {
      assert DeclaredHeaders(plan) == plan.headers;
    }
    r := Ok(HttpRequest(verb, plan.path.GetOr(attributes.slug), body, headers));
  }

  /**
   * The encoded headers are a case-insensitive override: a name reads as the declared content
   * type, else the last planned value, else the first static value.
   */
  lemma EncodedHeadersOverride(device: HttpDevice, plan: NativePlan, name: string)
    requires Encoded(device, plan).Ok?
    ensures plan.resource in device.resources
    ensures Lookup(Encoded(device, plan).value.headers, name) ==
            if plan.contentType.Some? && Lower(name) == Lower("Content-Type") then plan.contentType
            else OrElse(LookupLast(plan.headers, name),
                        Lookup(device.resources[plan.resource].headers.GetOr([]), name))
    ensures Names(Encoded(device, plan).value.headers) ==
            var declared := Names(device.resources[plan.resource].headers.GetOr([]));
            declared + NewNames(DeclaredHeaders(plan), declared)
  {
    var declared := device.resources[plan.resource].headers.GetOr([]);
    LookupMergedAll(declared, DeclaredHeaders(plan), name);
    NamesMergedAll(declared, DeclaredHeaders(plan));
    if plan.contentType.Some? {
      assert DropLast(DeclaredHeaders(plan)) == plan.headers;
    } else {
      assert DeclaredHeaders(plan) == plan.headers;
    }
  }

  // ----- planning -----

  function CaptureView(extensions: Option<Capture>): Result<HttpMetas.HttpMeta, ConversionError> {
    if extensions.None? then Ok(HttpMetas.DEFAULT)
    else
      var decoded := HttpMetas.Decode(extensions.value);
      if decoded.Ok? then Ok(decoded.value) else Err(Extensions(decoded.error))
  }

  function PlanNative(command: Command): Result<NativePlan, ConversionError> {
    match command.intent
    case Read(resource, options) => PlanRequest(resource, ReadAction, None, options)
    case Write(resource, payload, options) => PlanRequest(resource, WriteAction, Some(payload), options)
    case Invoke(operation, args, options) => PlanRequest(operation, InvokeAction, args, options)
    case _ => Err(UnsupportedIntent)
  }

  function PlanRequest(resource: string, action: RequestAction, payload: Option<PayloadValue>, options: RequestOptions)
    : Result<NativePlan, ConversionError>
  {
    var view :- CaptureView(options.extensions);
    Ok(NativePlan(resource, action, payload, OrElse(options.verb, view.verb), OrElse(options.path, view.path),
                  OrElse(options.contentType, view.contentType), options.headers + view.headers.GetOr([])))
  }

  function NativeRequest(device: HttpDevice, command: Command): Result<HttpRequest, ConversionError> {
    var plan :- PlanNative(command);
    Encoded(device, plan)
  }

  /** Lowers a bridge command to a native plan. */
  function PlanFromBridge(bridge: BridgeCommand): Result<NativePlan, ConversionError> {
    if !bridge.operation.RequestResponseOp? || !bridge.route.RequestResponseRoute? then Err(InvalidBridgeMessage)
    else
      var view :- CaptureView(bridge.transport);
      Ok(NativePlan(bridge.route.resource, bridge.operation.request, bridge.payload,
                    OrElse(bridge.operation.verb, view.verb), OrElse(bridge.route.path, view.path),
                    OrElse(bridge.operation.contentType, view.contentType), bridge.headers.GetOr([])))
  }

  function BridgeRequest(device: HttpDevice, command: Command): Result<HttpRequest, ConversionError> {
    var planned := BridgePlanner.CommandToRequestResponse(command);
    if planned.Err? then Err(Bridge(planned.error))
    else
      var plan :- PlanFromBridge(planned.value);
      Encoded(device, plan)
  }

  // ----- what a command asks for -----

  predicate RequestIntent(intent: Intent) {
    intent.Read? || intent.Write? || intent.Invoke?
  }

  function ResourceOf(intent: Intent): string
    requires RequestIntent(intent)
  {
    if intent.Invoke? then intent.operation else intent.resource
  }

  function PayloadOf(intent: Intent): Option<PayloadValue>
    requires RequestIntent(intent)
  {
    match intent
    case Read(_, _) => None
    case Write(_, payload, _) => Some(payload)
    case Invoke(_, args, _) => args
  }

  /** The body a payload goes out as: bytes, text as UTF-8, null as nothing; no payload is no body. */
  predicate Carries(device: HttpDevice, payload: Option<PayloadValue>, body: Option<seq<byte>>) {
    match payload
    case None => body == None
    case Some(BytesValue(bytes)) => body == Some(bytes)
    case Some(StringValue(text)) => body == Some(device.utf8(text))
    case Some(Null) => body == Some([])
    case _ => false
  }

  /** The plan reads the command: what its options name, else what `get` returns for its capture. */
  predicate ReadsCommand(command: Command, plan: NativePlan)
    requires RequestIntent(command.intent)
  {
    var options, entries := command.intent.request, CaptureEntries(command.intent.request.extensions);
    && plan.resource == ResourceOf(command.intent) && plan.payload == PayloadOf(command.intent)
    && plan.verb == OrElse(options.verb, TextAt(entries, "method"))
    && plan.path == OrElse(options.path, TextAt(entries, "path"))
    && plan.contentType == OrElse(options.contentType, TextAt(entries, "content-type"))
    && plan.headers == options.headers + CaptureHeaders(options.extensions)
  }

  lemma CaptureReads(extensions: Option<Capture>)
    requires CaptureView(extensions).Ok?
    ensures var view, entries := CaptureView(extensions).value, CaptureEntries(extensions);
            && view.verb == TextAt(entries, "method") && view.path == TextAt(entries, "path")
            && view.contentType == TextAt(entries, "content-type")
            && view.headers.GetOr([]) == CaptureHeaders(extensions)
  {
    if extensions.Some? {
      HttpMetas.DecodeReads(extensions.value);
    }
  }

  lemma PlanReads(command: Command)
    requires RequestIntent(command.intent) && PlanNative(command).Ok?
    ensures ReadsCommand(command, PlanNative(command).value)
  {
    CaptureReads(command.intent.request.extensions);
  }

  /** The options carry a capture the typed view refuses: foreign, or malformed under a known key. */
  predicate BadCapture(intent: Intent)
    requires RequestIntent(intent)
  {
    var extensions := intent.request.extensions;
    extensions.Some? && (extensions.value.protocol != HTTP || !HttpMetas.WellFormedEntries(extensions.value.entries))
  }

  /**
   * The request of a command, whichever route built it: verb and path are the option's, else the
   * capture's, else the resource's own; a header reads as the declared content type, else the last value
   * asked for, else the resource's; and the body is the payload.
   */
  lemma CommandRequest(device: HttpDevice, command: Command, name: string)
    requires RequestIntent(command.intent) && NativeRequest(device, command).Ok?
    ensures ResourceOf(command.intent) in device.resources
    ensures var request, options := NativeRequest(device, command).value, command.intent.request;
            var attributes := device.resources[ResourceOf(command.intent)];
            var entries := CaptureEntries(options.extensions);
            var contentType := OrElse(options.contentType, TextAt(entries, "content-type"));
            && request.verb == OrElse(options.verb, TextAt(entries, "method")).GetOr(attributes.verb)
            && request.path == OrElse(options.path, TextAt(entries, "path")).GetOr(attributes.slug)
            && Carries(device, PayloadOf(command.intent), request.body)
            && Lookup(request.headers, name) ==
               if contentType.Some? && Lower(name) == Lower("Content-Type") then contentType
               else OrElse(LookupLast(options.headers + CaptureHeaders(options.extensions), name),
                           Lookup(attributes.headers.GetOr([]), name))
  {
    var plan := PlanNative(command).value;
    PlanReads(command);
    EncodedHeadersOverride(device, plan, name);
  }

  /** Why a command is refused, exactly: its capture, else an unknown resource, else its payload. */
  lemma CommandRefused(device: HttpDevice, command: Command)
    requires RequestIntent(command.intent)
    ensures var answer, resource := NativeRequest(device, command), ResourceOf(command.intent);
            && (answer.Err? && answer.error.Extensions? <==> BadCapture(command.intent))
            && (answer == Err(UnknownResource(resource)) <==> !BadCapture(command.intent) && resource !in device.resources)
            && (answer == Err(InvalidPayload)
                <==> && !BadCapture(command.intent) && resource in device.resources
                     && forall body :: !Carries(device, PayloadOf(command.intent), body))
            && (answer.Err? ==> answer.error.Extensions? || answer.error.UnknownResource? || answer.error.InvalidPayload?)
  {
    var extensions := command.intent.request.extensions;
    if extensions.Some? && extensions.value.protocol == HTTP {
      HttpMetas.DecodeIsLookup(extensions.value);
    }
    BodyCarries(device, PayloadOf(command.intent));
  }

  lemma BodyCarries(device: HttpDevice, payload: Option<PayloadValue>)
    ensures Body(device, payload).Ok? <==> exists body :: Carries(device, payload, body)
    ensures Body(device, payload).Ok? ==> Carries(device, payload, Body(device, payload).value)
    ensures Body(device, payload).Err? ==> Body(device, payload) == Err(InvalidPayload)
  {
    if Body(device, payload).Ok? {
      assert Carries(device, payload, Body(device, payload).value);
    }
  }

  // ----- equivalence -----

  lemma {:induction false} FoldKeepsHeaders(view: HttpMetas.HttpMeta, entries: Entries, headers: Option<Headers>)
    ensures Fold(view.(headers := headers), entries, HttpMetas.Apply) ==
            var plain := Fold(view, entries, HttpMetas.Apply);
            if plain.Ok? then Ok(plain.value.(headers := headers)) else plain
  {
    if entries != [] {
      FoldKeepsHeaders(view, DropLast(entries), headers);
    }
  }

  lemma CaptureViewWithoutHeaders(extensions: Option<Capture>)
    ensures CaptureView(BridgePlanner.SplitCaptureHeaders(extensions).0) ==
            var view := CaptureView(extensions);
            if view.Ok? then Ok(view.value.(headers := None)) else view
    ensures CaptureView(extensions).Ok? ==>
              CaptureView(extensions).value.headers == if extensions.Some? then extensions.value.headers else None
  {
    if extensions.Some? {
      var capture := extensions.value;
      var first, start := FirstOccurrences(capture.entries), HttpMetas.DEFAULT.(headers := capture.headers);
      FoldKeepsHeaders(start, first, None);
      FoldKeepsHeaders(start, first, capture.headers);
    }
  }

  lemma PlansAgree(command: Command, resource: string, action: RequestAction, payload: Option<PayloadValue>,
                   options: RequestOptions)
    ensures PlanRequest(resource, action, payload, options) ==
            PlanFromBridge(BridgePlanner.RequestResponse(command, resource, action, payload, options))
  {
    CaptureViewWithoutHeaders(options.extensions);
    var view := CaptureView(options.extensions);
    if view.Ok? {
      assert options.headers + view.value.headers.GetOr([]) ==
             BridgePlanner.RequestResponse(command, resource, action, payload, options).headers.GetOr([]);
    }
  }

  /**
   * The native and the bridge route are the same function on every device, errors included,
   * exactly for request/response intents; other intents are refused by both under different names.
   */
  lemma RoutesAgree(device: HttpDevice, command: Command)
    ensures NativeRequest(device, command) == BridgeRequest(device, command) <==> RequestIntent(command.intent)
    ensures !RequestIntent(command.intent) ==>
              && NativeRequest(device, command) == Err(UnsupportedIntent)
              && BridgeRequest(device, command) == Err(Bridge(BridgePlanner.UnsupportedIntent))
  {
    match command.intent {
      case Read(resource, options) => PlansAgree(command, resource, ReadAction, None, options);
      case Write(resource, payload, options) => PlansAgree(command, resource, WriteAction, Some(payload), options);
      case Invoke(operation, args, options) => PlansAgree(command, operation, InvokeAction, args, options);
      case _ =>
    }
  }
}
