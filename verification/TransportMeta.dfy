/**
 * The open transport capture: an ordered list of keyed entries that may hold duplicates.
 * `TransportMeta` is the mutable object; `Capture` is its value, passed between planners.
 */
module TransportMetas {
  import opened Wrappers
  import opened Widths

  datatype Header = Header(key: string, value: string)
  type Headers = seq<Header>

  datatype MetaValue =
    | Bool(flag: bool)
    | U64(number: uint64)
    | I64(signed: int64)
    | Str(text: string)
    | Bytes(bytes: seq<byte>)
    | U64List(numbers: seq<uint64>)
    | StrList(texts: seq<string>)
    | Pairs(pairs: seq<(string, string)>)

  type Entry = (string, MetaValue)
  type Entries = seq<Entry>

  datatype Capture = Capture(protocol: string, headers: Option<Headers>, entries: Entries)

  const MQTT: string := "mqtt"
  const HTTP: string := "http"

  /** The value of the first entry stored under `key`. */
  function Get(entries: Entries, key: string): Option<MetaValue> {
    if entries == [] then None
    else if entries[0].0 == key then Some(entries[0].1)
    else Get(entries[1..], key)
  }

  /** The first value stored under `name`, if it is text. */
  function TextAt(entries: Entries, name: string): Option<string> {
    match Get(entries, name) case Some(Str(text)) => Some(text) case _ => None
  }

  /** The entries and the headers of an optional capture. */
  function CaptureEntries(extensions: Option<Capture>): Entries {
    if extensions.Some? then extensions.value.entries else []
  }

  function CaptureHeaders(extensions: Option<Capture>): Headers {
    if extensions.Some? then extensions.value.headers.GetOr([]) else []
  }

  function IndexOf(entries: Entries, key: string): (i: nat)
    ensures i <= |entries|
    ensures forall j :: 0 <= j < i ==> entries[j].0 != key
    ensures i < |entries| ==> entries[i].0 == key
  {
    if entries == [] || entries[0].0 == key then 0 else 1 + IndexOf(entries[1..], key)
  }

  lemma {:induction false} GetAtIndex(entries: Entries, key: string)
    ensures Get(entries, key) ==
            (var i := IndexOf(entries, key); if i < |entries| then Some(entries[i].1) else None)
  {
    if entries != [] && entries[0].0 != key {
      GetAtIndex(entries[1..], key);
    }
  }

  function SetEntry(entries: Entries, key: string, value: MetaValue): Entries {
    var i := IndexOf(entries, key);
    if i < |entries| then entries[i := (key, value)] else entries + [(key, value)]
  }

  /** Every entry not stored under `key`, in order. */
  function Without(entries: Entries, key: string): Entries {
    if entries == [] then []
    else if entries[0].0 == key then Without(entries[1..], key)
    else [entries[0]] + Without(entries[1..], key)
  }

  lemma {:induction false} GetAppend(left: Entries, right: Entries, key: string)
    ensures Get(left + right, key) == OrElse(Get(left, key), Get(right, key))
  {
    if left == [] {
      assert left + right == right;
    } else {
      assert (left + right)[1..] == left[1..] + right;
      GetAppend(left[1..], right, key);
    }
  }

  /** `set` overrides one key and leaves every other lookup alone. */
  lemma {:induction false} GetAfterSet(entries: Entries, key: string, value: MetaValue, other: string)
    ensures Get(SetEntry(entries, key, value), other) == if other == key then Some(value) else Get(entries, other)
  {
    var i := IndexOf(entries, key);
    if i == |entries| {
      GetAtIndex(entries, key);
      GetAppend(entries, [(key, value)], other);
    } else {
      GetSplit(entries, i, other);
      var after := SetEntry(entries, key, value);
      GetSplit(after, i, other);
      assert after[..i] == entries[..i] && after[i + 1..] == entries[i + 1..];
      GetAtIndex(entries[..i], key);
    }
  }

  /** `set` writes the first entry of the key in place, or appends one; every other entry keeps its place. */
  lemma SetKeepsPlaces(entries: Entries, key: string, value: MetaValue, i: nat)
    requires i < |entries|
    ensures var after := SetEntry(entries, key, value);
            && |after| == |entries| + (if Get(entries, key).None? then 1 else 0)
            && after[i] == (if entries[i].0 == key && Get(entries[..i], key).None? then (key, value) else entries[i])
            && (Get(entries, key).None? ==> Last(after) == (key, value))
  {
    GetAtIndex(entries, key);
    GetAtIndex(entries[..i], key);
    var first := IndexOf(entries, key);
    if first < i {
      assert entries[..i][first].0 == key;
    }
  }

  lemma GetSplit(entries: Entries, i: nat, key: string)
    requires i < |entries|
    ensures Get(entries, key) == OrElse(Get(entries[..i], key),
                                        if entries[i].0 == key then Some(entries[i].1) else Get(entries[i + 1..], key))
  {
    assert entries == entries[..i] + entries[i..];
    assert entries[i..][1..] == entries[i + 1..];
    GetAppend(entries[..i], entries[i..], key);
  }

  /** `take` leaves no entry under the key, duplicates included, and no other lookup changes. */
  lemma {:induction false} GetAfterTake(entries: Entries, key: string, other: string)
    ensures Get(Without(entries, key), other) == if other == key then None else Get(entries, other)
  {
    if entries != [] {
      GetAfterTake(entries[1..], key, other);
      assert ([entries[0]] + Without(entries[1..], key))[1..] == Without(entries[1..], key);
    }
  }

  lemma {:induction false} WithoutAppend(left: Entries, right: Entries, key: string)
    ensures Without(left + right, key) == Without(left, key) + Without(right, key)
  {
    if left == [] {
      assert left + right == right;
    } else {
      assert (left + right)[1..] == left[1..] + right;
      WithoutAppend(left[1..], right, key);
    }
  }

  lemma {:induction false} WithoutAbsent(entries: Entries, key: string)
    requires Get(entries, key).None?
    ensures Without(entries, key) == entries
  {
    if entries != [] {
      WithoutAbsent(entries[1..], key);
    }
  }

  lemma WithoutRemoved(entries: Entries, i: nat)
    requires i < |entries|
    ensures Without(entries[..i] + entries[i + 1..], entries[i].0) == Without(entries, entries[i].0)
  {
    var head, tail := entries[..i], entries[i..];
    assert entries == head + tail && tail[1..] == entries[i + 1..];
    WithoutAppend(head, tail, entries[i].0);
    WithoutAppend(head, tail[1..], entries[i].0);
  }

  /**
   * Taking a key just set gives the value back and leaves what taking it before would have left: the
   * capture itself if it lacked the key.
   */
  lemma TakeUndoesSet(entries: Entries, key: string, value: MetaValue)
    ensures Get(SetEntry(entries, key, value), key) == Some(value)
    ensures Without(SetEntry(entries, key, value), key) == Without(entries, key)
    ensures Get(entries, key).None? ==> Without(SetEntry(entries, key, value), key) == entries
  {
    GetAfterSet(entries, key, value, key);
    var i := IndexOf(entries, key);
    if i == |entries| {
      WithoutAppend(entries, [(key, value)], key);
    } else {
      var after := SetEntry(entries, key, value);
      GetAtIndex(entries, key);
      WithoutRemoved(entries, i);
      WithoutRemoved(after, i);
      assert after[..i] + after[i + 1..] == entries[..i] + entries[i + 1..];
    }
    if Get(entries, key).None? {
      WithoutAbsent(entries, key);
    }
  }

  class TransportMeta {
    var protocol: string
    var headers: Option<Headers>
    var entries: Entries

    constructor (protocol: string)
      ensures this.protocol == protocol && headers == None && entries == []
    {
      this.protocol, headers, entries := protocol, None, [];
    }

    function Value(): Capture
      reads this
    {
      Capture(protocol, headers, entries)
    }

    method Position(key: string) returns (i: nat)
      ensures i == IndexOf(entries, key)
    {
      i := 0;
      while i < |entries| && entries[i].0 != key
        invariant i <= |entries|
        invariant IndexOf(entries, key) == i + IndexOf(entries[i..], key)
      {
        i := i + 1;
      }
    }

    method Set(key: string, value: MetaValue)
      modifies this`entries
      ensures entries == SetEntry(old(entries), key, value)
    {
      var i := Position(key);
      if i < |entries| {
        entries := entries[i := (key, value)];
      } else {
        entries := entries + [(key, value)];
      }
    }

    method Take(key: string) returns (value: Option<MetaValue>)
      modifies this`entries
      ensures value == Get(old(entries), key)
      ensures entries == Without(old(entries), key)
    {
      GetAtIndex(entries, key);
      var i := Position(key);
      if i == |entries| {
        WithoutAbsent(entries, key);
        return None;
      }
      value := Some(entries[i].1);
      WithoutRemoved(entries, i);
      entries := entries[..i] + entries[i + 1..];
      Retain(key);
    }

    method Retain(dropped: string)
      modifies this`entries
      ensures entries == Without(old(entries), dropped)
    {
      var kept: Entries := [];
      for i := 0 to |entries|
        invariant entries == old(entries)
        invariant Without(entries, dropped) == kept + Without(entries[i..], dropped)
      {
        if entries[i].0 != dropped {
          kept := kept + [entries[i]];
        }
      }
      entries := kept;
    }
  }

  /** The entries that are first under their key, in order: what first-occurrence-wins decoding sees. */
  function FirstOccurrences(entries: Entries): Entries {
    if entries == [] then []
    else
      var prefix := FirstOccurrences(DropLast(entries));
      if Get(prefix, Last(entries).0).Some? then prefix else prefix + [Last(entries)]
  }

  predicate DistinctKeys(entries: Entries) {
    forall i, j :: 0 <= i < j < |entries| ==> entries[i].0 != entries[j].0
  }

  lemma {:induction false} GetPresent(entries: Entries, key: string)
    ensures Get(entries, key).Some? <==> exists i :: 0 <= i < |entries| && entries[i].0 == key
  {
    GetAtIndex(entries, key);
  }

  /** Deduplication changes no lookup and leaves each key once. */
  lemma {:induction false} FirstOccurrencesGet(entries: Entries, key: string)
    ensures Get(FirstOccurrences(entries), key) == Get(entries, key)
    ensures DistinctKeys(FirstOccurrences(entries))
  {
    if entries != [] {
      var prefix, last := DropLast(entries), Last(entries);
      FirstOccurrencesGet(prefix, key);
      FirstOccurrencesGet(prefix, last.0);
      assert entries == prefix + [last];
      GetAppend(prefix, [last], key);
      GetAppend(FirstOccurrences(prefix), [last], key);
      GetPresent(FirstOccurrences(prefix), last.0);
    }
  }

  lemma LastKeyIsNew(entries: Entries)
    requires entries != [] && DistinctKeys(entries)
    ensures DistinctKeys(DropLast(entries))
    ensures Get(DropLast(entries), Last(entries).0).None?
  {
    GetAtIndex(DropLast(entries), Last(entries).0);
  }

  lemma {:induction false} FirstOccurrencesOfDistinct(entries: Entries)
    requires DistinctKeys(entries)
    ensures FirstOccurrences(entries) == entries
  {
    if entries != [] {
      LastKeyIsNew(entries);
      FirstOccurrencesOfDistinct(DropLast(entries));
      assert entries == DropLast(entries) + [Last(entries)];
    }
  }

  /** A typed view folded over entries, left to right, stopping at the first malformed one. */
  function Fold<V, E>(view: V, entries: Entries, apply: (V, Entry) -> Result<V, E>): Result<V, E> {
    if entries == [] then Ok(view)
    else
      var sofar :- Fold(view, DropLast(entries), apply);
      apply(sofar, Last(entries))
  }

  lemma {:induction false} FoldErrSticks<V, E>(view: V, part: Entries, whole: Entries,
                                              apply: (V, Entry) -> Result<V, E>)
    requires part <= whole && Fold(view, part, apply).Err?
    ensures Fold(view, whole, apply) == Fold(view, part, apply)
    decreases |whole|
  {
    if |part| < |whole| {
      FoldErrSticks(view, part, DropLast(whole), apply);
    } else {
      assert part == whole;
    }
  }

  /** A failing fold stops at the first entry that is refused. */
  lemma {:induction false} FoldStops<V, E>(view: V, entries: Entries, apply: (V, Entry) -> Result<V, E>)
    returns (i: nat, sofar: V)
    requires Fold(view, entries, apply).Err?
    ensures i < |entries| && Fold(view, entries[..i], apply) == Ok(sofar)
    ensures apply(sofar, entries[i]).Err? && Fold(view, entries, apply).error == apply(sofar, entries[i]).error
  {
    var before := DropLast(entries);
    if Fold(view, before, apply).Err? {
      i, sofar := FoldStops(view, before, apply);
      assert before[..i] == entries[..i];
    } else {
      i, sofar := |entries| - 1, Fold(view, before, apply).value;
    }
  }

  lemma {:induction false} FoldApplied<V, E>(view: V, entries: Entries, apply: (V, Entry) -> Result<V, E>, j: nat)
    returns (sofar: V)
    requires Fold(view, entries, apply).Ok? && j < |entries|
    ensures apply(sofar, entries[j]).Ok?
  {
    if j == |entries| - 1 {
      sofar := Fold(view, DropLast(entries), apply).value;
    } else {
      sofar := FoldApplied(view, DropLast(entries), apply, j);
    }
  }

  lemma {:induction false} FirstOccurrencesPrefix(entries: Entries, n: nat)
    requires n <= |entries|
    ensures FirstOccurrences(entries[..n]) <= FirstOccurrences(entries)
  {
    if n == |entries| {
      assert entries[..n] == entries;
    } else {
      assert DropLast(entries)[..n] == entries[..n];
      FirstOccurrencesPrefix(DropLast(entries), n);
    }
  }

  /** One more entry: it is skipped when its key was seen, and applied to the view otherwise. */
  lemma DecodeStep<V, E>(view: V, entries: Entries, apply: (V, Entry) -> Result<V, E>, i: nat)
    requires i < |entries|
    ensures var before, entry := FirstOccurrences(entries[..i]), entries[i];
            FirstOccurrences(entries[..i + 1])
            == if Get(before, entry.0).Some? then before else before + [entry]
    ensures var before, entry := FirstOccurrences(entries[..i]), entries[i];
            Fold(view, before + [entry], apply)
            == match Fold(view, before, apply) case Ok(sofar) => apply(sofar, entry) case Err(error) => Err(error)
  {
    assert DropLast(entries[..i + 1]) == entries[..i];
    var before := FirstOccurrences(entries[..i]);
    assert DropLast(before + [entries[i]]) == before;
  }

  lemma DecodeStops<V, E>(view: V, entries: Entries, apply: (V, Entry) -> Result<V, E>, n: nat)
    requires n <= |entries| && Fold(view, FirstOccurrences(entries[..n]), apply).Err?
    ensures Fold(view, FirstOccurrences(entries), apply) == Fold(view, FirstOccurrences(entries[..n]), apply)
  {
    FirstOccurrencesPrefix(entries, n);
    FoldErrSticks(view, FirstOccurrences(entries[..n]), FirstOccurrences(entries), apply);
  }

  /** `seen` holds exactly the keys of the entries. */
  ghost predicate Seen(seen: seq<string>, entries: Entries) {
    forall key :: key in seen <==> Get(entries, key).Some?
  }

  lemma SeenStep(seen: seq<string>, entries: Entries, entry: Entry)
    requires Seen(seen, entries)
    ensures Seen(seen + [entry.0], entries + [entry])
  {
    forall key
      ensures key in seen + [entry.0] <==> Get(entries + [entry], key).Some?
    {
      GetAppend(entries, [entry], key);
    }
  }

  /** The decode loop of both typed views: skip keys already seen, apply the others in order. */
  method DecodeEntries<V, E>(empty: V, entries: Entries, apply: (V, Entry) -> Result<V, E>) returns (r: Result<V, E>)
    ensures r == Fold(empty, FirstOccurrences(entries), apply)
  {
    var view := empty;
    var seen: seq<string> := [];
    for i := 0 to |entries|
      invariant Fold(empty, FirstOccurrences(entries[..i]), apply) == Ok(view)
      invariant Seen(seen, FirstOccurrences(entries[..i]))
    {
      DecodeStep(empty, entries, apply, i);
      if entries[i].0 !in seen {
        SeenStep(seen, FirstOccurrences(entries[..i]), entries[i]);
        seen := seen + [entries[i].0];
        var next := apply(view, entries[i]);
        if next.Err? {
          DecodeStops(empty, entries, apply, i + 1);
          return next;
        }
        view := next.value;
      }
    }
    assert entries[..|entries|] == entries;
    r := Ok(view);
  }
}
