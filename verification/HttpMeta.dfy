/** The typed HTTP view over a transport capture. */
module HttpMetas {
  import opened Wrappers
  import opened Widths
  import opened TransportMetas

  datatype HttpMeta = HttpMeta(
    verb: Option<string>,
    path: Option<string>,
    statusCode: Option<uint16>,
    contentType: Option<string>,
    headers: Option<Headers>)

  datatype MetaError =
    | ForeignExtensions(protocol: string)
    | InvalidExtensionValue(valueKey: string, value: uint64)
    | InvalidExtensionType(typeKey: string)

  const DEFAULT: HttpMeta := HttpMeta(None, None, None, None, None)

  const KEY_METHOD: string := "method"
  const KEY_PATH: string := "path"
  const KEY_STATUS_CODE: string := "status-code"
  const KEY_CONTENT_TYPE: string := "content-type"
  const KEYS: set<string> := {KEY_METHOD, KEY_PATH, KEY_STATUS_CODE, KEY_CONTENT_TYPE}

  function Apply(view: HttpMeta, entry: Entry): Result<HttpMeta, MetaError> {
    var (key, value) := entry;
    if key == KEY_STATUS_CODE then
      if !value.U64? then Err(InvalidExtensionType(key))
      else if value.number >= 0x1_0000 then Err(InvalidExtensionValue(key, value.number))
      else Ok(view.(statusCode := Some(value.number)))
    else if key !in KEYS then Ok(view)
    else if !value.Str? then Err(InvalidExtensionType(key))
    else if key == KEY_METHOD then Ok(view.(verb := Some(value.text)))
    else if key == KEY_PATH then Ok(view.(path := Some(value.text)))
    else Ok(view.(contentType := Some(value.text)))
  }

  function Decode(capture: Capture): Result<HttpMeta, MetaError> {
    if capture.protocol != HTTP then Err(ForeignExtensions(capture.protocol))
    else Fold(DEFAULT.(headers := capture.headers), FirstOccurrences(capture.entries), Apply)
  }

  method TryFromTransportMeta(meta: TransportMeta) returns (r: Result<HttpMeta, MetaError>)
    ensures r == Decode(meta.Value())
  {
    if meta.protocol != HTTP {
      return Err(ForeignExtensions(meta.protocol));
    }
    r := DecodeEntries(DEFAULT.(headers := meta.headers), meta.entries, Apply);
  }

  // ----- the independent reference: lookups by key -----

  predicate WellFormed(key: string, value: MetaValue) {
    if key == KEY_STATUS_CODE then value.U64? && value.number < 0x1_0000
    else key in KEYS ==> value.Str?
  }

  predicate WellFormedEntries(entries: Entries) {
    forall key :: key in KEYS && Get(entries, key).Some? ==> WellFormed(key, Get(entries, key).value)
  }

  /** What looking up `key` says when it is text, else `other`. */
  function Text(entries: Entries, key: string, other: Option<string>): Option<string> {
    var found := Get(entries, key);
    if found.Some? && found.value.Str? then Some(found.value.text) else other
  }

  /** The view read off by `get`, over a view of earlier entries. */
  function View(entries: Entries, under: HttpMeta): HttpMeta
    requires WellFormedEntries(entries)
  {
    var status := Get(entries, KEY_STATUS_CODE);
    HttpMeta(
      Text(entries, KEY_METHOD, under.verb),
      Text(entries, KEY_PATH, under.path),
      if status.Some? then Some(status.value.number) else under.statusCode,
      Text(entries, KEY_CONTENT_TYPE, under.contentType),
      under.headers)
  }

  lemma DistinctKeyNames()
    ensures |KEY_METHOD| == 6 && |KEY_PATH| == 4 && |KEY_STATUS_CODE| == 11 && |KEY_CONTENT_TYPE| == 12
  {
  }

  lemma {:induction false} FoldByLookup(view: HttpMeta, entries: Entries)
    requires DistinctKeys(entries)
    ensures Fold(view, entries, Apply).Ok? <==> WellFormedEntries(entries)
    ensures WellFormedEntries(entries) ==> Fold(view, entries, Apply) == Ok(View(entries, view))
  {
    if entries != [] {
      var prefix := DropLast(entries);
      var (name, value) := Last(entries);
      assert entries == prefix + [(name, value)];
      FoldByLookup(view, prefix);
      GetPresent(prefix, name);
      DistinctKeyNames();
      forall key
        ensures Get(entries, key) == if name == key then Some(value) else Get(prefix, key)
      {
        GetAppend(prefix, [(name, value)], key);
      }
      assert WellFormedEntries(entries) <==> WellFormedEntries(prefix) && WellFormed(name, value);
    }
  }

  /** An HTTP capture decodes exactly when its known keys are well formed, to what `get` reads. */
  lemma DecodeIsLookup(capture: Capture)
    requires capture.protocol == HTTP
    ensures Decode(capture).Ok? <==> WellFormedEntries(capture.entries)
    ensures WellFormedEntries(capture.entries) ==>
              Decode(capture) == Ok(View(capture.entries, DEFAULT.(headers := capture.headers)))
  {
    var entries, first := capture.entries, FirstOccurrences(capture.entries);
    FirstOccurrencesGet(entries, "");
    forall key
      ensures Get(first, key) == Get(entries, key)
    {
      FirstOccurrencesGet(entries, key);
    }
    FoldByLookup(DEFAULT.(headers := capture.headers), first);
  }

  /** A decoded view, field by field: what `get` returns under the documented names and types. */
  lemma DecodeReads(capture: Capture)
    requires Decode(capture).Ok?
    ensures var view, entries := Decode(capture).value, capture.entries;
            && view.verb == TextAt(entries, "method") && view.path == TextAt(entries, "path")
            && view.contentType == TextAt(entries, "content-type")
            && view.statusCode == (match Get(entries, "status-code") case Some(U64(code)) => Some(code) case _ => None)
            && view.headers == capture.headers
  {
    DecodeIsLookup(capture);
    DistinctKeyNames();
    assert {KEY_METHOD, KEY_PATH, KEY_STATUS_CODE, KEY_CONTENT_TYPE} <= KEYS;
  }

  /** The entry is under a known key with another type, or a status code of more than 16 bits. */
  predicate Malformed(entry: Entry) {
    || (entry.0 in {"method", "path", "content-type"} && !entry.1.Str?)
    || (entry.0 == "status-code" && !(entry.1.U64? && entry.1.number < 0x1_0000))
  }

  predicate FirstBlamed(entries: Entries, i: nat, error: MetaError) {
    && i < |entries| && Malformed(entries[i])
    && error == (if entries[i].0 == "status-code" && entries[i].1.U64?
                 then InvalidExtensionValue(entries[i].0, entries[i].1.number) else InvalidExtensionType(entries[i].0))
    && forall j | 0 <= j < i :: !Malformed(entries[j])
  }

  /** A capture that does not decode is foreign, or the error is about its first malformed entry that is not shadowed. */
  lemma DecodeFailsFirst(capture: Capture)
    requires Decode(capture).Err?
    ensures if capture.protocol != HTTP then Decode(capture).error == ForeignExtensions(capture.protocol)
            else exists i: nat :: FirstBlamed(FirstOccurrences(capture.entries), i, Decode(capture).error)
  {
    if capture.protocol == HTTP {
      var start, first := DEFAULT.(headers := capture.headers), FirstOccurrences(capture.entries);
      var i, sofar := FoldStops(start, first, Apply);
      forall j | 0 <= j < i
        ensures !Malformed(first[j])
      {
        var before := FoldApplied(start, first[..i], Apply, j);
      }
      assert FirstBlamed(first, i, Decode(capture).error);
    }
  }

  lemma DecodeIgnoresShadowed(capture: Capture)
    ensures Decode(capture) == Decode(capture.(entries := FirstOccurrences(capture.entries)))
  {
    FirstOccurrencesGet(capture.entries, "");
    FirstOccurrencesOfDistinct(FirstOccurrences(capture.entries));
  }

  function PutStr(entries: Entries, key: string, text: Option<string>): Entries {
    if text.Some? then SetEntry(entries, key, Str(text.value)) else entries
  }

  function PutStatus(entries: Entries, status: Option<uint16>): Entries {
    if status.Some? then SetEntry(entries, KEY_STATUS_CODE, U64(status.value)) else entries
  }

  function Encode(view: HttpMeta): Capture {
    Capture(HTTP, view.headers,
            PutStr(PutStatus(PutStr(PutStr([], KEY_METHOD, view.verb), KEY_PATH, view.path), view.statusCode),
                   KEY_CONTENT_TYPE, view.contentType))
  }

  method IntoTransportMeta(view: HttpMeta) returns (meta: TransportMeta)
    ensures fresh(meta) && meta.Value() == Encode(view)
  {
    meta := new TransportMeta(HTTP);
    if view.verb.Some? {
      meta.Set(KEY_METHOD, Str(view.verb.value));
    }
    if view.path.Some? {
      meta.Set(KEY_PATH, Str(view.path.value));
    }
    if view.statusCode.Some? {
      meta.Set(KEY_STATUS_CODE, U64(view.statusCode.value));
    }
    if view.contentType.Some? {
      meta.Set(KEY_CONTENT_TYPE, Str(view.contentType.value));
    }
    meta.headers := view.headers;
  }

  lemma PutStrGet(entries: Entries, key: string, text: Option<string>, other: string)
    ensures Get(PutStr(entries, key, text), other) ==
            if other == key && text.Some? then Some(Str(text.value)) else Get(entries, other)
  {
    if text.Some? {
      GetAfterSet(entries, key, Str(text.value), other);
    }
  }

  lemma EncodeGet(view: HttpMeta, key: string)
    ensures Get(Encode(view).entries, key) ==
            if key == KEY_STATUS_CODE then (if view.statusCode.Some? then Some(U64(view.statusCode.value)) else None)
            else
              var text := if key == KEY_METHOD then view.verb else if key == KEY_PATH then view.path
                          else if key == KEY_CONTENT_TYPE then view.contentType else None;
              if text.Some? then Some(Str(text.value)) else None
  {
    DistinctKeyNames();
    var e1 := PutStr([], KEY_METHOD, view.verb);
    var e2 := PutStr(e1, KEY_PATH, view.path);
    var e3 := PutStatus(e2, view.statusCode);
    PutStrGet([], KEY_METHOD, view.verb, key);
    PutStrGet(e1, KEY_PATH, view.path, key);
    if view.statusCode.Some? {
      GetAfterSet(e2, KEY_STATUS_CODE, U64(view.statusCode.value), key);
    }
    PutStrGet(e3, KEY_CONTENT_TYPE, view.contentType, key);
  }

  /** Encoding a view and decoding the capture gives the view back. */
  lemma DecodeEncode(view: HttpMeta)
    ensures Decode(Encode(view)) == Ok(view)
  {
    DistinctKeyNames();
    forall key | key in KEYS {
      EncodeGet(view, key);
    }
    DecodeIsLookup(Encode(view));
    assert {KEY_METHOD, KEY_PATH, KEY_STATUS_CODE, KEY_CONTENT_TYPE} <= KEYS;
  }
}
