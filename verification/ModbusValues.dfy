/**
 * Modbus values: their payload form, the values a payload decodes to, and the register words a
 * 32-bit or 16-bit value is written as.
 */
module ModbusValues {
  import opened Wrappers
  import opened Widths
  import opened Commands

  datatype ModbusValue =
    | Ack
    | Bit(flag: bool)
    | Bits(flags: seq<bool>)
    | U16(words: seq<uint16>)
    | I16(shorts: seq<int16>)
    | U32(unsigned32: seq<uint32>)
    | I32(signed32: seq<int32>)
    | Bytes(bytes: seq<byte>)
    | Text(text: string)

  datatype Codec =
    | BoolCodec | BitsCodec | U16Codec | I16Codec
    | U32Be | U32Le | I32Be | I32Le | BytesCodec | Utf8Codec

  function OneOrList<T>(values: seq<T>, wrap: T -> PayloadValue): PayloadValue {
    if |values| == 1 then wrap(values[0]) else ListValue(Map(wrap, values))
  }

  function ToPayload(value: ModbusValue): PayloadValue {
    match value
    case Ack => Null
    case Bit(flag) => BoolValue(flag)
    case Bits(flags) => ListValue(Map(flag => BoolValue(flag), flags))
    case U16(words) => OneOrList(words, (x: uint16) => U64Value(x))
    case I16(shorts) => OneOrList(shorts, (x: int16) => I64Value(x))
    case U32(values) => OneOrList(values, (x: uint32) => U64Value(x))
    case I32(values) => OneOrList(values, (x: int32) => I64Value(x))
    case Bytes(bytes) => BytesValue(bytes)
    case Text(text) => StringValue(text)
  }

  /** The bounds of the integers a numeric codec holds, and whether its payload form is signed. */
  datatype Numeric = Numeric(low: int, high: int, signed: bool, scalarError: string, rangeError: string)

  const UNSIGNED16: Numeric :=
    Numeric(0, 0xFFFF, false, "u16 payload must be unsigned integer", "u16 payload out of range")
  const SIGNED16: Numeric :=
    Numeric(-0x8000, 0x7FFF, true, "i16 payload must be integer", "i16 payload out of range")
  const UNSIGNED32: Numeric :=
    Numeric(0, 0xFFFF_FFFF, false, "u32 payload must be unsigned integer", "u32 payload out of range")
  const SIGNED32: Numeric :=
    Numeric(-0x8000_0000, 0x7FFF_FFFF, true, "i32 payload must be integer", "i32 payload out of range")

  function Number(payload: PayloadValue): Option<int> {
    match payload
    case I64Value(x) => Some(x)
    case U64Value(x) => Some(x)
    case _ => None
  }

  /** The payload is one integer within the bounds. */
  predicate Fits(n: Numeric, payload: PayloadValue) {
    Number(payload).Some? && n.low <= Number(payload).value <= n.high
  }

  function DecodeNumber(n: Numeric, payload: PayloadValue): Result<int, string> {
    match Number(payload)
    case None => Err(n.scalarError)
    case Some(x) => if n.low <= x <= n.high then Ok(x) else Err(n.rangeError)
  }

  /** Decodes the elements in order; the first failure is the answer. */
  function DecodeNumbers(n: Numeric, payloads: seq<PayloadValue>): (r: Result<seq<int>, string>)
    ensures r.Ok? <==> forall i | 0 <= i < |payloads| :: Fits(n, payloads[i])
    ensures r.Ok? ==> |r.value| == |payloads|
    ensures r.Ok? ==> forall i | 0 <= i < |payloads| :: r.value[i] == Number(payloads[i]).value
  {
    if payloads == [] then
      Ok([])
    else
      assert forall i | 1 <= i < |payloads| :: payloads[i] == payloads[1..][i - 1];
      var first :- DecodeNumber(n, payloads[0]);
      var rest :- DecodeNumbers(n, payloads[1..]);
      Ok([first] + rest)
  }

  function DecodeNumericList(n: Numeric, payload: PayloadValue): Result<seq<int>, string> {
    match payload
    case I64Value(_) | U64Value(_) =>
      var x :- DecodeNumber(n, payload);
      Ok([x])
    case ListValue(values) => DecodeNumbers(n, values)
    case _ => Err(n.scalarError)
  }

  const FLAG_ERROR: string := "bits payload entries must be booleans"

  function DecodeFlags(payloads: seq<PayloadValue>): (r: Result<seq<bool>, string>)
    ensures r.Ok? <==> forall i | 0 <= i < |payloads| :: payloads[i].BoolValue?
    ensures r.Ok? ==> |r.value| == |payloads|
    ensures r.Ok? ==> forall i | 0 <= i < |payloads| :: r.value[i] == payloads[i].flag
  {
    if payloads == [] then
      Ok([])
    else
      assert forall i | 1 <= i < |payloads| :: payloads[i] == payloads[1..][i - 1];
      if payloads[0].BoolValue? then
        var rest :- DecodeFlags(payloads[1..]);
        Ok([payloads[0].flag] + rest)
      else
        Err(FLAG_ERROR)
  }

  function FromPayload(codec: Codec, payload: PayloadValue): Result<ModbusValue, string> {
    match codec
    case BoolCodec =>
      if payload.BoolValue? then Ok(Bit(payload.flag)) else Err("bool payload must be a boolean")
    case BitsCodec =>
      if payload.ListValue? then
        var flags :- DecodeFlags(payload.values);
        Ok(Bits(flags))
      else
        Err("payload must be a list")
    case U16Codec =>
      var words :- DecodeNumericList(UNSIGNED16, payload);
      Ok(U16(words))
    case I16Codec =>
      var shorts :- DecodeNumericList(SIGNED16, payload);
      Ok(I16(shorts))
    case U32Be | U32Le =>
      var values :- DecodeNumericList(UNSIGNED32, payload);
      Ok(U32(values))
    case I32Be | I32Le =>
      var values :- DecodeNumericList(SIGNED32, payload);
      Ok(I32(values))
    case BytesCodec =>
      if payload.BytesValue? then Ok(Bytes(payload.bytes)) else Err("bytes payload must be binary data")
    case Utf8Codec =>
      if payload.StringValue? then Ok(Text(payload.text)) else Err("string payload must be utf8 text")
  }

  /** The value is of the codec's own kind. */
  predicate Matches(codec: Codec, value: ModbusValue) {
    match codec
    case BoolCodec => value.Bit?
    case BitsCodec => value.Bits?
    case U16Codec => value.U16?
    case I16Codec => value.I16?
    case U32Be | U32Le => value.U32?
    case I32Be | I32Le => value.I32?
    case BytesCodec => value.Bytes?
    case Utf8Codec => value.Text?
  }

  /** `payload` is the payload form of the integers `xs`. */
  predicate Renders(n: Numeric, xs: seq<int>, payload: PayloadValue) {
    if |xs| == 1 then
      RendersOne(n, xs[0], payload)
    else
      && payload.ListValue? && |payload.values| == |xs|
      && forall i | 0 <= i < |xs| :: RendersOne(n, xs[i], payload.values[i])
  }

  predicate RendersOne(n: Numeric, x: int, payload: PayloadValue) {
    n.low <= x <= n.high && Number(payload) == Some(x) && payload.I64Value? == n.signed
  }

  lemma RenderedDecodes(n: Numeric, xs: seq<int>, payload: PayloadValue)
    requires Renders(n, xs, payload)
    ensures DecodeNumericList(n, payload) == Ok(xs)
  {
    if |xs| == 1 {
      assert xs == [xs[0]];
    } else {
      assert forall i | 0 <= i < |xs| :: RendersOne(n, xs[i], payload.values[i]);
      assert DecodeNumbers(n, payload.values).value == xs;
    }
  }

  /** A value comes back from its payload form exactly when it is of the codec's kind. */
  lemma PayloadRoundTrip(codec: Codec, value: ModbusValue)
    ensures FromPayload(codec, ToPayload(value)) == Ok(value) <==> Matches(codec, value)
  {
    if Matches(codec, value) {
      match value
      case Bits(flags) =>
        assert DecodeFlags(ToPayload(value).values).value == flags;
      case U16(words) => RenderedDecodes(UNSIGNED16, words, ToPayload(value));
      case I16(shorts) => RenderedDecodes(SIGNED16, shorts, ToPayload(value));
      case U32(values) => RenderedDecodes(UNSIGNED32, values, ToPayload(value));
      case I32(values) => RenderedDecodes(SIGNED32, values, ToPayload(value));
      case _ =>
    }
  }

  /** An acknowledgement, and nothing else, is given as null. */
  lemma OnlyAckIsNull(value: ModbusValue)
    ensures ToPayload(value) == Null <==> value.Ack?
  {
  }

  function NumericOf(codec: Codec): Option<Numeric> {
    match codec
    case U16Codec => Some(UNSIGNED16)
    case I16Codec => Some(SIGNED16)
    case U32Be | U32Le => Some(UNSIGNED32)
    case I32Be | I32Le => Some(SIGNED32)
    case _ => None
  }

  /**
   * A payload in the form values are given: no list of one number, and numbers tagged with the
   * signedness of the codec.
   */
  predicate Canonical(n: Numeric, payload: PayloadValue) {
    match payload
    case I64Value(_) => n.signed
    case U64Value(_) => !n.signed
    case ListValue(values) => |values| != 1 && forall v <- values :: v.I64Value? == n.signed
    case _ => false
  }

  /** A payload that decodes comes back from the value exactly when it was canonical, or not numeric. */
  lemma PayloadSurvives(codec: Codec, payload: PayloadValue)
    requires FromPayload(codec, payload).Ok?
    ensures ToPayload(FromPayload(codec, payload).value) == payload
            <==> (NumericOf(codec).Some? ==> Canonical(NumericOf(codec).value, payload))
  {
    var back := ToPayload(FromPayload(codec, payload).value);
    if codec.BitsCodec? {
      assert back.values == payload.values;
    } else if NumericOf(codec).Some? && payload.ListValue? && |payload.values| != 1 {
      var n := NumericOf(codec).value;
      assert forall i | 0 <= i < |payload.values| ::
          back.values[i] == payload.values[i] <==> payload.values[i].I64Value? == n.signed;
      if Canonical(n, payload) {
        assert back.values == payload.values;
      }
    }
  }

  /** A number a codec holds: 16 or 32 bits, unsigned or signed. */
  predicate Holds(codec: Codec, x: int) {
    match codec
    case U16Codec => 0 <= x <= 65_535
    case I16Codec => -32_768 <= x <= 32_767
    case U32Be | U32Le => 0 <= x <= 4_294_967_295
    case I32Be | I32Le => -2_147_483_648 <= x <= 2_147_483_647
    case _ => false
  }

  predicate NumberHeld(codec: Codec, payload: PayloadValue) {
    match payload
    case I64Value(x) => Holds(codec, x)
    case U64Value(x) => Holds(codec, x)
    case _ => false
  }

  /** The numbers of a value, whatever its width. */
  function NumbersOf(value: ModbusValue): seq<int> {
    match value
    case U16(words) => words
    case I16(shorts) => shorts
    case U32(values) => values
    case I32(values) => values
    case _ => []
  }

  predicate Numeric16Or32(codec: Codec) {
    codec.U16Codec? || codec.I16Codec? || codec.U32Be? || codec.U32Le? || codec.I32Be? || codec.I32Le?
  }

  lemma HeldFits(codec: Codec, payload: PayloadValue)
    requires Numeric16Or32(codec)
    ensures NumericOf(codec).Some? && (NumberHeld(codec, payload) <==> Fits(NumericOf(codec).value, payload))
  {
  }

  /** Decoding a numeric payload succeeds exactly for one number in range or a list of them. */
  lemma NumericAccepted(codec: Codec, payload: PayloadValue)
    requires Numeric16Or32(codec)
    ensures FromPayload(codec, payload).Ok?
            <==> if payload.ListValue? then forall v <- payload.values :: NumberHeld(codec, v)
                 else NumberHeld(codec, payload)
  {
    HeldFits(codec, payload);
    var n := NumericOf(codec).value;
    assert FromPayload(codec, payload).Ok? <==> DecodeNumericList(n, payload).Ok?;
    if payload.ListValue? {
      forall v <- payload.values {
        HeldFits(codec, v);
      }
      assert forall i | 0 <= i < |payload.values| :: payload.values[i] in payload.values;
      assert DecodeNumericList(n, payload).Ok? <==> forall v <- payload.values :: Fits(n, v);
    }
  }

  /** What it decodes to is those numbers, in order, in the codec's kind. */
  lemma NumericDecoded(codec: Codec, payload: PayloadValue)
    requires Numeric16Or32(codec) && FromPayload(codec, payload).Ok?
    ensures var value := FromPayload(codec, payload).value;
            && Matches(codec, value)
            && (payload.I64Value? ==> NumbersOf(value) == [payload.signed])
            && (payload.U64Value? ==> NumbersOf(value) == [payload.unsigned])
            && (payload.ListValue? ==>
                  && |NumbersOf(value)| == |payload.values|
                  && forall i | 0 <= i < |payload.values| :: Number(payload.values[i]) == Some(NumbersOf(value)[i]))
  {
  }

  /** Payloads of the other codecs decode exactly when they have their one form. */
  lemma PlainAccepted(codec: Codec, payload: PayloadValue)
    requires !Numeric16Or32(codec)
    ensures FromPayload(codec, payload).Ok? <==>
              match codec
              case BoolCodec => payload.BoolValue?
              case BitsCodec => payload.ListValue? && forall v <- payload.values :: v.BoolValue?
              case BytesCodec => payload.BytesValue?
              case _ => payload.StringValue?
    ensures FromPayload(codec, payload).Ok? ==> Matches(codec, FromPayload(codec, payload).value)
  {
    if payload.ListValue? {
      assert forall i | 0 <= i < |payload.values| :: payload.values[i] in payload.values;
    }
  }

  // Register words

  /** The bytes of a 32-bit pattern, most significant first. */
  function BigEndianBytes(x: uint32): (r: seq<byte>)
    ensures |r| == 4
  {
    var high, low := x / 0x1_0000, x % 0x1_0000;
    [high / 0x100, high % 0x100, low / 0x100, low % 0x100]
  }

  function LittleEndianBytes(x: uint32): (r: seq<byte>)
    ensures |r| == 4
  {
    var b := BigEndianBytes(x);
    [b[3], b[2], b[1], b[0]]
  }

  /** The two's complement bit pattern. */
  function Pattern(x: int32): uint32 {
    if x < 0 then x + 0x1_0000_0000 else x
  }

  datatype Order = Big | Little

  /** The two register words of a pattern, in the order they are written. */
  function Words(order: Order, x: uint32): (uint16, uint16) {
    match order
    case Big => var b := BigEndianBytes(x); (FromBigEndian(b[0], b[1]), FromBigEndian(b[2], b[3]))
    case Little => var b := LittleEndianBytes(x); (FromBigEndian(b[2], b[3]), FromBigEndian(b[0], b[1]))
  }

  function Flat(pairs: seq<(uint16, uint16)>): seq<uint16> {
    if pairs == [] then [] else [pairs[0].0, pairs[0].1] + Flat(pairs[1..])
  }

  function Pack(order: Order, patterns: seq<uint32>): seq<uint16> {
    Flat(Map(x => Words(order, x), patterns))
  }

  function WordsFromPayload(codec: Codec, value: ModbusValue): Result<seq<uint16>, string> {
    match codec
    case U32Be => if value.U32? then Ok(Pack(Big, value.unsigned32)) else Err("u32 payload must be numeric")
    case I32Be =>
      if value.I32? then Ok(Pack(Big, Map(Pattern, value.signed32))) else Err("i32 payload must be numeric")
    case U32Le => if value.U32? then Ok(Pack(Little, value.unsigned32)) else Err("u32 payload must be numeric")
    case I32Le =>
      if value.I32? then Ok(Pack(Little, Map(Pattern, value.signed32))) else Err("i32 payload must be numeric")
    case _ => Err("word conversion requires 32-bit codec")
  }

  /** The word with its two bytes exchanged. */
  function Swapped(w: uint16): uint16 {
    FromBigEndian(w % 0x100, w / 0x100)
  }

  function Recomposed(high: uint16, low: uint16): uint32 {
    high * 0x1_0000 + low
  }

  lemma WordsRecompose(x: uint32)
    ensures Recomposed(Words(Big, x).0, Words(Big, x).1) == x
  {
    var high, low := x / 0x1_0000, x % 0x1_0000;
    assert FromBigEndian(high / 0x100, high % 0x100) == high;
    assert FromBigEndian(low / 0x100, low % 0x100) == low;
  }

  lemma WordSwapped(high: byte, low: byte)
    ensures Swapped(FromBigEndian(high, low)) == FromBigEndian(low, high)
  {
    assert FromBigEndian(high, low) % 0x100 == low && FromBigEndian(high, low) / 0x100 == high;
  }

  lemma WordsSwapped(x: uint32)
    ensures Words(Little, x) == (Swapped(Words(Big, x).0), Swapped(Words(Big, x).1))
  {
    var b := BigEndianBytes(x);
    WordSwapped(b[0], b[1]);
    WordSwapped(b[2], b[3]);
  }

  lemma SwappedInjective(v: uint16, w: uint16)
    requires Swapped(v) == Swapped(w)
    ensures v == w
  {
    WordSwapped(v % 0x100, v / 0x100);
    WordSwapped(w % 0x100, w / 0x100);
    assert FromBigEndian(v / 0x100, v % 0x100) == v && FromBigEndian(w / 0x100, w % 0x100) == w;
  }

  lemma {:induction false} FlatAt(pairs: seq<(uint16, uint16)>, i: nat)
    requires i < |pairs|
    ensures |Flat(pairs)| == 2 * |pairs|
    ensures (Flat(pairs)[2 * i], Flat(pairs)[2 * i + 1]) == pairs[i]
  {
    if |pairs| > 1 {
      FlatAt(pairs[1..], if i == 0 then 0 else i - 1);
    }
  }

  /** Each big-endian pair recomposes its value; each little-endian word is the big-endian one byte-swapped. */
  lemma PackedWords(patterns: seq<uint32>, i: nat)
    requires i < |patterns|
    ensures |Pack(Big, patterns)| == |Pack(Little, patterns)| == 2 * |patterns|
    ensures Recomposed(Pack(Big, patterns)[2 * i], Pack(Big, patterns)[2 * i + 1]) == patterns[i]
    ensures Pack(Little, patterns)[2 * i] == Swapped(Pack(Big, patterns)[2 * i])
    ensures Pack(Little, patterns)[2 * i + 1] == Swapped(Pack(Big, patterns)[2 * i + 1])
  {
    FlatAt(Map(x => Words(Big, x), patterns), i);
    FlatAt(Map(x => Words(Little, x), patterns), i);
    WordsRecompose(patterns[i]);
    WordsSwapped(patterns[i]);
  }

  lemma PackLength(order: Order, patterns: seq<uint32>)
    ensures |Pack(order, patterns)| == 2 * |patterns|
  {
    if patterns != [] {
      FlatAt(Map(x => Words(order, x), patterns), 0);
    }
  }

  lemma PackInjective(order: Order, xs: seq<uint32>, ys: seq<uint32>)
    requires Pack(order, xs) == Pack(order, ys)
    ensures xs == ys
  {
    PackLength(order, xs);
    PackLength(order, ys);
    forall i | 0 <= i < |xs|
      ensures xs[i] == ys[i]
    {
      PackedWords(xs, i);
      PackedWords(ys, i);
      if order.Little? {
        SwappedInjective(Pack(Big, xs)[2 * i], Pack(Big, ys)[2 * i]);
        SwappedInjective(Pack(Big, xs)[2 * i + 1], Pack(Big, ys)[2 * i + 1]);
      }
    }
  }

  /** The bit pattern of a 32-bit number, read as unsigned. */
  function Bits32(x: int): int {
    if x < 0 then x + 4_294_967_296 else x
  }

  /** The patterns of a 32-bit value. */
  function PatternsOf(value: ModbusValue): seq<uint32>
    requires value.U32? || value.I32?
  {
    if value.U32? then value.unsigned32 else Map(Pattern, value.signed32)
  }

  lemma PatternAt(value: ModbusValue, i: nat)
    requires (value.U32? || value.I32?) && i < |NumbersOf(value)|
    ensures |PatternsOf(value)| == |NumbersOf(value)| && PatternsOf(value)[i] == Bits32(NumbersOf(value)[i])
  {
    if value.I32? {
      assert |Map(Pattern, value.signed32)| == |value.signed32|;
      assert Map(Pattern, value.signed32)[i] == Pattern(value.signed32[i]) == Bits32(value.signed32[i]);
    }
  }

  lemma WordsArePacked(codec: Codec, value: ModbusValue)
    requires WordsFromPayload(codec, value).Ok?
    ensures value.U32? || value.I32?
    ensures WordsFromPayload(codec, value).value
         == Pack(if codec.U32Be? || codec.I32Be? then Big else Little, PatternsOf(value))
  {
  }

  /**
   * A 32-bit codec writes values of its own kind and no others: two words a number, the high one first,
   * that make up its two's complement pattern, and for little-endian codecs each with its bytes exchanged.
   */
  lemma WordsExactly(codec: Codec, value: ModbusValue, i: nat)
    ensures WordsFromPayload(codec, value).Ok? <==>
              ((codec.U32Be? || codec.U32Le?) && value.U32?) || ((codec.I32Be? || codec.I32Le?) && value.I32?)
    ensures WordsFromPayload(codec, value).Ok? && i < |NumbersOf(value)| ==>
              var words, bits := WordsFromPayload(codec, value).value, Bits32(NumbersOf(value)[i]);
              && |words| == 2 * |NumbersOf(value)|
              && if codec.U32Be? || codec.I32Be? then Recomposed(words[2 * i], words[2 * i + 1]) == bits
                 else Recomposed(Swapped(words[2 * i]), Swapped(words[2 * i + 1])) == bits
  {
    if WordsFromPayload(codec, value).Ok? && i < |NumbersOf(value)| {
      WordsArePacked(codec, value);
      PatternAt(value, i);
      var patterns := PatternsOf(value);
      PackedWords(patterns, i);
      SwappedTwice(Pack(Big, patterns)[2 * i]);
      SwappedTwice(Pack(Big, patterns)[2 * i + 1]);
    }
  }

  lemma SwappedTwice(w: uint16)
    ensures Swapped(Swapped(w)) == w
  {
    WordSwapped(w % 0x100, w / 0x100);
    assert FromBigEndian(w / 0x100, w % 0x100) == w;
  }

  /** No two values of a 32-bit codec are written as the same words. */
  lemma WordsLossless(codec: Codec, value: ModbusValue, other: ModbusValue)
    requires WordsFromPayload(codec, value).Ok?
    requires WordsFromPayload(codec, value) == WordsFromPayload(codec, other)
    ensures value == other
  {
    match codec
    case U32Be => PackInjective(Big, value.unsigned32, other.unsigned32);
    case U32Le => PackInjective(Little, value.unsigned32, other.unsigned32);
    case I32Be =>
      PackInjective(Big, Map(Pattern, value.signed32), Map(Pattern, other.signed32));
      PatternsInjective(value.signed32, other.signed32);
    case I32Le =>
      PackInjective(Little, Map(Pattern, value.signed32), Map(Pattern, other.signed32));
      PatternsInjective(value.signed32, other.signed32);
  }

  lemma PatternsInjective(xs: seq<int32>, ys: seq<int32>)
    requires Map(Pattern, xs) == Map(Pattern, ys)
    ensures xs == ys
  {
    assert |Map(Pattern, xs)| == |xs| && |Map(Pattern, ys)| == |ys|;
    forall i | 0 <= i < |xs|
      ensures xs[i] == ys[i]
    {
      assert Map(Pattern, xs)[i] == Pattern(xs[i]) && Map(Pattern, ys)[i] == Pattern(ys[i]);
    }
  }

  /** The register value of a single 16-bit write. */
  function DecodeU16(value: ModbusValue): Result<uint16, string> {
    match value
    case U16(words) =>
      if |words| == 1 then Ok(words[0]) else Err("u16 payload must be a single 16-bit value")
    case I16(shorts) =>
      if |shorts| != 1 then Err("u16 payload must be a single 16-bit value")
      else
        var x: int := shorts[0];
        if x < 0 then Err("i16 payload must fit into unsigned u16") else Ok(x)
    case _ => Err("u16 payload must be a single 16-bit value")
  }

  /** The register value a payload is written as under a 16-bit codec. */
  function SingleRegister(codec: Codec, payload: PayloadValue): Result<uint16, string> {
    var value :- FromPayload(codec, payload);
    DecodeU16(value)
  }

  /** The one integer of a payload that is a number or a list of one number. */
  function OnlyNumber(payload: PayloadValue): Option<int> {
    match payload
    case ListValue(values) => if |values| == 1 then Number(values[0]) else None
    case _ => Number(payload)
  }

  /**
   * A 16-bit write is accepted exactly for one number from 0 up to the codec's greatest: the signed
   * codec reads negative registers but never writes one.
   */
  lemma SingleRegisterExactly(codec: Codec, payload: PayloadValue)
    requires codec.U16Codec? || codec.I16Codec?
    ensures SingleRegister(codec, payload).Ok?
            <==> && OnlyNumber(payload).Some?
                 && 0 <= OnlyNumber(payload).value <= if codec.U16Codec? then 65_535 else 32_767
    ensures SingleRegister(codec, payload).Ok? ==> SingleRegister(codec, payload).value == OnlyNumber(payload).value
  {
    if payload.ListValue? && |payload.values| == 1 {
      assert Fits(NumericOf(codec).value, payload.values[0]) <==> FromPayload(codec, payload).Ok?;
    }
  }

  /** A signed register value that was read can be written back exactly when it is not negative. */
  lemma SignedWriteBack(x: int16)
    ensures FromPayload(I16Codec, ToPayload(I16([x]))) == Ok(I16([x]))
    ensures SingleRegister(I16Codec, ToPayload(I16([x]))) == Ok(x as int) <==> x >= 0
    ensures SingleRegister(I16Codec, ToPayload(I16([x]))).Ok? <==> x >= 0
  {
    PayloadRoundTrip(I16Codec, I16([x]));
  }
}
