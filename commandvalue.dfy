/**
 * The value a driver hands back for one device resource: a typed scalar
 * kept as its big-endian encoding (or, for strings, as the text itself),
 * with the rendering used for readings.
 */
module CommandValues {
  import opened Ints
  import opened Wrappers
  import opened BigEndian
  import opened Text
  import Models

  /** The non-floating-point value types. */
  datatype ValueType = Bool | String | Uint8 | Uint16 | Uint32 | Uint64 | Int8 | Int16 | Int32 | Int64

  datatype CommandValue = CommandValue(
    origin: int64,
    valueType: ValueType,
    numericValue: seq<byte>,
    stringValue: string)

  /** A typed accessor's `(value, error)` pair. */
  datatype Decoded<T> = Decoded(value: T, err: Option<string>)

  /** The zero value of the Go type that a numeric ValueType decodes into. */
  function Zero(t: ValueType): (z: Scalar)
    requires t != String
    ensures Size(z) == Width(t)
  {
    match t
    case Bool => BoolScalar(false)
    case Uint8 => Uint8Scalar(0)
    case Uint16 => Uint16Scalar(0)
    case Uint32 => Uint32Scalar(0)
    case Uint64 => Uint64Scalar(0)
    case Int8 => Int8Scalar(0)
    case Int16 => Int16Scalar(0)
    case Int32 => Int32Scalar(0)
    case Int64 => Int64Scalar(0)
  }

  /** Bytes of the big-endian encoding of a value of type t. */
  function Width(t: ValueType): nat {
    match t
    case String => 0
    case Bool => 1
    case Uint8 => 1
    case Uint16 => 2
    case Uint32 => 4
    case Uint64 => 8
    case Int8 => 1
    case Int16 => 2
    case Int32 => 4
    case Int64 => 8
  }

  /** The encoding holds at least one whole value of the declared type. */
  predicate WellFormed(cv: CommandValue) {
    |cv.numericValue| >= Width(cv.valueType)
  }

  /** `encodeResult`: the numeric payload becomes the big-endian encoding of value. */
  function EncodeResult(cv: CommandValue, value: Scalar): (r: CommandValue)
    ensures r.origin == cv.origin && r.valueType == cv.valueType && r.stringValue == cv.stringValue
    ensures |r.numericValue| == Size(value)
    ensures forall into :: SameKind(value, into) ==> DecodeResult(r.numericValue, into) == Success(value)
  {
    forall into | SameKind(value, into) ensures Read(Write(value), into) == Success(value) {
      ReadWrite(value, into);
    }
    cv.(numericValue := Write(value))
  }

  /** `decodeResult`: one big-endian value of the type of `into`, or the read error. */
  function DecodeResult(bs: seq<byte>, into: Scalar): (r: Result<Scalar, string>)
    ensures r.Success? <==> |bs| >= Size(into)
    ensures r.Success? ==> SameKind(r.value, into)
    ensures r.Failure? ==> r.error == ReadError(bs)
  {
    Read(bs, into)
  }

  function ReadError(bs: seq<byte>): string {
    if bs == [] then "EOF" else "unexpected EOF"
  }

  function NewBoolValue(origin: int64, value: bool): (cv: CommandValue)
    ensures cv.origin == origin && cv.valueType == Bool && |cv.numericValue| == Width(Bool)
    ensures BoolValue(cv) == Decoded(value, None)
    ensures ToString(cv) == FormatBool(value)
  {
    EncodeResult(CommandValue(origin, Bool, [], ""), BoolScalar(value))
  }

  /** A string value carries no numeric payload. */
  function NewStringValue(origin: int64, value: string): (cv: CommandValue)
    ensures cv.origin == origin && cv.valueType == String && cv.numericValue == []
    ensures StringValue(cv) == Decoded(value, None)
    ensures ToString(cv) == value
  {
    CommandValue(origin, String, [], value)
  }

  function NewUint8Value(origin: int64, value: uint8): (cv: CommandValue)
    ensures cv.origin == origin && cv.valueType == Uint8 && |cv.numericValue| == Width(Uint8)
    ensures Uint8Value(cv) == Decoded(value, None)
    ensures ToString(cv) == IntToDecimal(value)
  {
    EncodeResult(CommandValue(origin, Uint8, [], ""), Uint8Scalar(value))
  }

  function NewUint16Value(origin: int64, value: uint16): (cv: CommandValue)
    ensures cv.origin == origin && cv.valueType == Uint16 && |cv.numericValue| == Width(Uint16)
    ensures Uint16Value(cv) == Decoded(value, None)
    ensures ToString(cv) == IntToDecimal(value)
  {
    EncodeResult(CommandValue(origin, Uint16, [], ""), Uint16Scalar(value))
  }

  function NewUint32Value(origin: int64, value: uint32): (cv: CommandValue)
    ensures cv.origin == origin && cv.valueType == Uint32 && |cv.numericValue| == Width(Uint32)
    ensures Uint32Value(cv) == Decoded(value, None)
    ensures ToString(cv) == IntToDecimal(value)
  {
    EncodeResult(CommandValue(origin, Uint32, [], ""), Uint32Scalar(value))
  }

  function NewUint64Value(origin: int64, value: uint64): (cv: CommandValue)
    ensures cv.origin == origin && cv.valueType == Uint64 && |cv.numericValue| == Width(Uint64)
    ensures Uint64Value(cv) == Decoded(value, None)
    ensures ToString(cv) == IntToDecimal(value)
  {
    EncodeResult(CommandValue(origin, Uint64, [], ""), Uint64Scalar(value))
  }

  function NewInt8Value(origin: int64, value: int8): (cv: CommandValue)
    ensures cv.origin == origin && cv.valueType == Int8 && |cv.numericValue| == Width(Int8)
    ensures Int8Value(cv) == Decoded(value, None)
    ensures ToString(cv) == IntToDecimal(value)
  {
    EncodeResult(CommandValue(origin, Int8, [], ""), Int8Scalar(value))
  }

  function NewInt16Value(origin: int64, value: int16): (cv: CommandValue)
    ensures cv.origin == origin && cv.valueType == Int16 && |cv.numericValue| == Width(Int16)
    ensures Int16Value(cv) == Decoded(value, None)
    ensures ToString(cv) == IntToDecimal(value)
  {
    EncodeResult(CommandValue(origin, Int16, [], ""), Int16Scalar(value))
  }

  function NewInt32Value(origin: int64, value: int32): (cv: CommandValue)
    ensures cv.origin == origin && cv.valueType == Int32 && |cv.numericValue| == Width(Int32)
    ensures Int32Value(cv) == Decoded(value, None)
    ensures ToString(cv) == IntToDecimal(value)
  {
    EncodeResult(CommandValue(origin, Int32, [], ""), Int32Scalar(value))
  }

  function NewInt64Value(origin: int64, value: int64): (cv: CommandValue)
    ensures cv.origin == origin && cv.valueType == Int64 && |cv.numericValue| == Width(Int64)
    ensures Int64Value(cv) == Decoded(value, None)
    ensures ToString(cv) == IntToDecimal(value)
  {
    EncodeResult(CommandValue(origin, Int64, [], ""), Int64Scalar(value))
  }

  /** `strconv.FormatBool`, `FormatUint` or `FormatInt` of a decoded scalar. */
  function FormatScalar(s: Scalar): string {
    match s
    case BoolScalar(b) => FormatBool(b)
    case Uint8Scalar(x) => IntToDecimal(x)
    case Uint16Scalar(x) => IntToDecimal(x)
    case Uint32Scalar(x) => IntToDecimal(x)
    case Uint64Scalar(x) => IntToDecimal(x)
    case Int8Scalar(x) => IntToDecimal(x)
    case Int16Scalar(x) => IntToDecimal(x)
    case Int32Scalar(x) => IntToDecimal(x)
    case Int64Scalar(x) => IntToDecimal(x)
  }

  /**
   * `toString` as written: the error text of a failed read is overwritten
   * by the formatting of the zero value, so a short payload renders as
   * "false" or "0".
   */
  function ToString(cv: CommandValue): (s: string)
    ensures cv.valueType == String ==> s == cv.stringValue
    ensures cv.valueType != String && !WellFormed(cv) ==> s == (if cv.valueType == Bool then "false" else "0")
  {
    if cv.valueType == String then cv.stringValue
    else FormatScalar(DecodeResult(cv.numericValue, Zero(cv.valueType)).GetOr(Zero(cv.valueType)))
  }

  /**
   * The rendering with the read error kept: the text of a string value,
   * the formatted value of a whole encoding, else the read error.
   */
  function CorrectedToString(cv: CommandValue): (s: string)
    ensures cv.valueType == String ==> s == cv.stringValue
    ensures cv.valueType != String && !WellFormed(cv) ==> s == ReadError(cv.numericValue)
  {
    if cv.valueType == String then cv.stringValue
    else match DecodeResult(cv.numericValue, Zero(cv.valueType))
      case Success(v) => FormatScalar(v)
      case Failure(e) => e
  }

  /** A value decoded from the payload into its own type formats as `ToString`. */
  lemma ToStringOfRead(cv: CommandValue, s: Scalar)
    requires cv.valueType != String && DecodeResult(cv.numericValue, Zero(cv.valueType)) == Success(s)
    ensures ToString(cv) == FormatScalar(s)
  {
  }

  /** On a whole payload the two renderings agree: only a short read tells them apart. */
  lemma ToStringAgrees(cv: CommandValue)
    requires WellFormed(cv)
    ensures ToString(cv) == CorrectedToString(cv)
  {
  }

  /** A one-byte Uint16 payload exhibits the difference. */
  lemma ToStringHidesShortRead()
    ensures ToString(CommandValue(0, Uint16, [1], "")) == "0"
    ensures CorrectedToString(CommandValue(0, Uint16, [1], "")) == "unexpected EOF"
  {
  }

  function TypeLabel(t: ValueType): string {
    match t
    case Bool => "Bool: "
    case String => "String: "
    case Uint8 => "Uint8: "
    case Uint16 => "Uint16: "
    case Uint32 => "Uint32: "
    case Uint64 => "Uint64: "
    case Int8 => "Int8: "
    case Int16 => "Int16: "
    case Int32 => "Int32: "
    case Int64 => "Int64: "
  }

  /** The type whose label s starts with. */
  function LabelledType(s: string): (t: Option<ValueType>)
    ensures t.Some? ==> TypeLabel(t.value) <= s
  {
    if "Bool: " <= s then Some(Bool)
    else if "String: " <= s then Some(String)
    else if "Uint8: " <= s then Some(Uint8)
    else if "Uint16: " <= s then Some(Uint16)
    else if "Uint32: " <= s then Some(Uint32)
    else if "Uint64: " <= s then Some(Uint64)
    else if "Int8: " <= s then Some(Int8)
    else if "Int16: " <= s then Some(Int16)
    else if "Int32: " <= s then Some(Int32)
    else if "Int64: " <= s then Some(Int64)
    else None
  }

  lemma LabelledTypeOfLabel(t: ValueType, rest: string)
    ensures LabelledType(TypeLabel(t) + rest) == Some(t)
  {
    var s := TypeLabel(t) + rest;
    assert TypeLabel(t) <= s;
    assert s[0] == TypeLabel(t)[0] && s[1] == TypeLabel(t)[1];
    if |TypeLabel(t)| == 8 {
      assert s[4] == TypeLabel(t)[4];
    } else if |TypeLabel(t)| == 7 {
      assert s[4] == TypeLabel(t)[4] && s[5] == TypeLabel(t)[5];
    }
  }

  /** `String()`: the origin on its own line, then the type label and the value. */
  function Describe(cv: CommandValue): (s: string)
  {
    IntToDecimal(cv.origin) + "\n" + TypeLabel(cv.valueType) + ToString(cv)
  }

  /** The origin, the type and the rendered value can all be read back from Describe. */
  lemma StringLayout(cv: CommandValue)
    ensures ParseDecimal(FirstLine(Describe(cv))) == Some(cv.origin)
    ensures var rest := Describe(cv)[|IntToDecimal(cv.origin)| + 1..];
      LabelledType(rest) == Some(cv.valueType) &&
      rest[|TypeLabel(cv.valueType)|..] == ToString(cv)
  {
    var head := IntToDecimal(cv.origin);
    var tail := TypeLabel(cv.valueType) + ToString(cv);
    assert Describe(cv) == head + "\n" + tail;
    IntToDecimalHasNoLineFeed(cv.origin);
    FirstLineOfLine(head, tail);
    IntToDecimalRoundTrip(cv.origin);
    assert Describe(cv)[|head| + 1..] == tail;
    LabelledTypeOfLabel(cv.valueType, ToString(cv));
  }

  /**
   * `Reading`: the value named vdName of device devName, stamped with the
   * value's origin when positive and with the clock reading now otherwise.
   */
  function Reading(cv: CommandValue, devName: string, vdName: string, now: int64): (r: Models.Reading)
    ensures r.name == vdName && r.device == devName && r.value == ToString(cv)
    ensures cv.origin > 0 ==> r.origin == cv.origin
    ensures cv.origin <= 0 ==> r.origin == now
  {
    Models.Reading(vdName, devName, ToString(cv), if cv.origin > 0 then cv.origin else now)
  }

  /** `TransformResult`: no transform is applied yet, and it reports success. */
  function TransformResult(cv: CommandValue, pv: Models.PropertyValue): (ok: bool)
    ensures ok
  {
    true
  }

  function NotOfType(goType: string): string {
    "the data type is not " + goType
  }

  function BoolValue(cv: CommandValue): (r: Decoded<bool>)
    ensures cv.valueType != Bool ==> r == Decoded(false, Some(NotOfType("bool")))
    ensures cv.valueType == Bool ==> (r.err.None? <==> WellFormed(cv))
    ensures cv.valueType == Bool && !WellFormed(cv) ==> r == Decoded(false, Some(ReadError(cv.numericValue)))
    ensures cv.valueType == Bool && WellFormed(cv) ==> FormatBool(r.value) == ToString(cv)
  {
    if cv.valueType != Bool then Decoded(false, Some(NotOfType("bool")))
    else match DecodeResult(cv.numericValue, BoolScalar(false))
      case Success(s) => ToStringOfRead(cv, s); Decoded(s.b, None)
      case Failure(e) => Decoded(false, Some(e))
  }

  /** The text is returned even when the type is not String. */
  function StringValue(cv: CommandValue): (r: Decoded<string>)
    ensures r.value == cv.stringValue
    ensures r.err.None? <==> cv.valueType == String
    ensures r.err.Some? ==> r.err == Some(NotOfType("string"))
  {
    if cv.valueType != String then Decoded(cv.stringValue, Some(NotOfType("string")))
    else Decoded(cv.stringValue, None)
  }

  function Uint8Value(cv: CommandValue): (r: Decoded<uint8>)
    ensures cv.valueType != Uint8 ==> r == Decoded(0, Some(NotOfType("uint8")))
    ensures cv.valueType == Uint8 ==> (r.err.None? <==> WellFormed(cv))
    ensures cv.valueType == Uint8 && !WellFormed(cv) ==> r == Decoded(0, Some(ReadError(cv.numericValue)))
    ensures cv.valueType == Uint8 && WellFormed(cv) ==> IntToDecimal(r.value) == ToString(cv)
  {
    if cv.valueType != Uint8 then Decoded(0, Some(NotOfType("uint8")))
    else match DecodeResult(cv.numericValue, Uint8Scalar(0))
      case Success(s) => ToStringOfRead(cv, s); Decoded(s.u8, None)
      case Failure(e) => Decoded(0, Some(e))
  }

  function Uint16Value(cv: CommandValue): (r: Decoded<uint16>)
    ensures cv.valueType != Uint16 ==> r == Decoded(0, Some(NotOfType("uint16")))
    ensures cv.valueType == Uint16 ==> (r.err.None? <==> WellFormed(cv))
    ensures cv.valueType == Uint16 && !WellFormed(cv) ==> r == Decoded(0, Some(ReadError(cv.numericValue)))
    ensures cv.valueType == Uint16 && WellFormed(cv) ==> IntToDecimal(r.value) == ToString(cv)
  {
    if cv.valueType != Uint16 then Decoded(0, Some(NotOfType("uint16")))
    else match DecodeResult(cv.numericValue, Uint16Scalar(0))
      case Success(s) => ToStringOfRead(cv, s); Decoded(s.u16, None)
      case Failure(e) => Decoded(0, Some(e))
  }

  function Uint32Value(cv: CommandValue): (r: Decoded<uint32>)
    ensures cv.valueType != Uint32 ==> r == Decoded(0, Some(NotOfType("uint32")))
    ensures cv.valueType == Uint32 ==> (r.err.None? <==> WellFormed(cv))
    ensures cv.valueType == Uint32 && !WellFormed(cv) ==> r == Decoded(0, Some(ReadError(cv.numericValue)))
    ensures cv.valueType == Uint32 && WellFormed(cv) ==> IntToDecimal(r.value) == ToString(cv)
  {
    if cv.valueType != Uint32 then Decoded(0, Some(NotOfType("uint32")))
    else match DecodeResult(cv.numericValue, Uint32Scalar(0))
      case Success(s) => ToStringOfRead(cv, s); Decoded(s.u32, None)
      case Failure(e) => Decoded(0, Some(e))
  }

  function Uint64Value(cv: CommandValue): (r: Decoded<uint64>)
    ensures cv.valueType != Uint64 ==> r == Decoded(0, Some(NotOfType("uint64")))
    ensures cv.valueType == Uint64 ==> (r.err.None? <==> WellFormed(cv))
    ensures cv.valueType == Uint64 && !WellFormed(cv) ==> r == Decoded(0, Some(ReadError(cv.numericValue)))
    ensures cv.valueType == Uint64 && WellFormed(cv) ==> IntToDecimal(r.value) == ToString(cv)
  {
    if cv.valueType != Uint64 then Decoded(0, Some(NotOfType("uint64")))
    else match DecodeResult(cv.numericValue, Uint64Scalar(0))
      case Success(s) => ToStringOfRead(cv, s); Decoded(s.u64, None)
      case Failure(e) => Decoded(0, Some(e))
  }

  function Int8Value(cv: CommandValue): (r: Decoded<int8>)
    ensures cv.valueType != Int8 ==> r == Decoded(0, Some(NotOfType("int8")))
    ensures cv.valueType == Int8 ==> (r.err.None? <==> WellFormed(cv))
    ensures cv.valueType == Int8 && !WellFormed(cv) ==> r == Decoded(0, Some(ReadError(cv.numericValue)))
    ensures cv.valueType == Int8 && WellFormed(cv) ==> IntToDecimal(r.value) == ToString(cv)
  {
    if cv.valueType != Int8 then Decoded(0, Some(NotOfType("int8")))
    else match DecodeResult(cv.numericValue, Int8Scalar(0))
      case Success(s) => ToStringOfRead(cv, s); Decoded(s.i8, None)
      case Failure(e) => Decoded(0, Some(e))
  }

  function Int16Value(cv: CommandValue): (r: Decoded<int16>)
    ensures cv.valueType != Int16 ==> r == Decoded(0, Some(NotOfType("int16")))
    ensures cv.valueType == Int16 ==> (r.err.None? <==> WellFormed(cv))
    ensures cv.valueType == Int16 && !WellFormed(cv) ==> r == Decoded(0, Some(ReadError(cv.numericValue)))
    ensures cv.valueType == Int16 && WellFormed(cv) ==> IntToDecimal(r.value) == ToString(cv)
  {
    if cv.valueType != Int16 then Decoded(0, Some(NotOfType("int16")))
    else match DecodeResult(cv.numericValue, Int16Scalar(0))
      case Success(s) => ToStringOfRead(cv, s); Decoded(s.i16, None)
      case Failure(e) => Decoded(0, Some(e))
  }

  function Int32Value(cv: CommandValue): (r: Decoded<int32>)
    ensures cv.valueType != Int32 ==> r == Decoded(0, Some(NotOfType("int32")))
    ensures cv.valueType == Int32 ==> (r.err.None? <==> WellFormed(cv))
    ensures cv.valueType == Int32 && !WellFormed(cv) ==> r == Decoded(0, Some(ReadError(cv.numericValue)))
    ensures cv.valueType == Int32 && WellFormed(cv) ==> IntToDecimal(r.value) == ToString(cv)
  {
    if cv.valueType != Int32 then Decoded(0, Some(NotOfType("int32")))
    else match DecodeResult(cv.numericValue, Int32Scalar(0))
      case Success(s) => ToStringOfRead(cv, s); Decoded(s.i32, None)
      case Failure(e) => Decoded(0, Some(e))
  }

  function Int64Value(cv: CommandValue): (r: Decoded<int64>)
    ensures cv.valueType != Int64 ==> r == Decoded(0, Some(NotOfType("int64")))
    ensures cv.valueType == Int64 ==> (r.err.None? <==> WellFormed(cv))
    ensures cv.valueType == Int64 && !WellFormed(cv) ==> r == Decoded(0, Some(ReadError(cv.numericValue)))
    ensures cv.valueType == Int64 && WellFormed(cv) ==> IntToDecimal(r.value) == ToString(cv)
  {
    if cv.valueType != Int64 then Decoded(0, Some(NotOfType("int64")))
    else match DecodeResult(cv.numericValue, Int64Scalar(0))
      case Success(s) => ToStringOfRead(cv, s); Decoded(s.i64, None)
      case Failure(e) => Decoded(0, Some(e))
  }

  /** Readings of the values built in the package's tests. */
  lemma BoolReadings(now: int64)
    ensures Reading(NewBoolValue(0, false), "FakeDevice", "FakeDeviceObject", now).value == "false"
    ensures Reading(NewBoolValue(0, true), "FakeDevice", "FakeDeviceObject", now).value == "true"
  {
  }

  lemma StringReading(now: int64)
    ensures Reading(NewStringValue(0, "this is a real string"), "FakeDevice", "FakeDeviceObject", now).value
      == "this is a real string"
  {
  }

  lemma UnsignedReadings(now: int64)
    ensures Reading(NewUint8Value(0, 42), "FakeDevice", "FakeDeviceObject", now).value == "42"
    ensures Reading(NewUint16Value(0, 65535), "FakeDevice", "FakeDeviceObject", now).value == "65535"
  {
    assert NatToDecimal(4) == "4"; assert NatToDecimal(42) == "42";
    assert NatToDecimal(6) == "6"; assert NatToDecimal(65) == "65"; assert NatToDecimal(655) == "655"; assert NatToDecimal(6553) == "6553"; assert NatToDecimal(65535) == "65535";
  }

  lemma Uint32Reading(v: uint32, now: int64, hi: nat, lo: nat)
    requires v == 4294967295 && hi == 42949 && lo == 67295
    ensures Reading(NewUint32Value(0, v), "FakeDevice", "FakeDeviceObject", now).value == "4294967295"
  {
    Uint32Groups();
    NatToDecimalOfPair(v, hi, lo);
  }

  lemma Uint32Groups()
    ensures NatToDecimal(42949) == "42949" && NatToDecimal(67295) == "67295"
  {
    assert NatToDecimal(4) == "4"; assert NatToDecimal(42) == "42"; assert NatToDecimal(429) == "429"; assert NatToDecimal(4294) == "4294"; assert NatToDecimal(42949) == "42949";
    assert NatToDecimal(6) == "6"; assert NatToDecimal(67) == "67"; assert NatToDecimal(672) == "672"; assert NatToDecimal(6729) == "6729"; assert NatToDecimal(67295) == "67295";
  }

  lemma Int8Readings(now: int64)
    ensures Reading(NewInt8Value(0, -128), "FakeDevice", "FakeDeviceObject", now).value == "-128"
    ensures Reading(NewInt8Value(0, 127), "FakeDevice", "FakeDeviceObject", now).value == "127"
  {
    assert NatToDecimal(1) == "1"; assert NatToDecimal(12) == "12"; assert NatToDecimal(128) == "128"; assert NatToDecimal(127) == "127";
  }

  lemma Int16MinReading(now: int64)
    ensures Reading(NewInt16Value(0, -32768), "FakeDevice", "FakeDeviceObject", now).value == "-32768"
  {
    assert NatToDecimal(3) == "3"; assert NatToDecimal(32) == "32"; assert NatToDecimal(327) == "327"; assert NatToDecimal(3276) == "3276"; assert NatToDecimal(32768) == "32768";
  }

  lemma Int16MaxReading(now: int64)
    ensures Reading(NewInt16Value(0, 32767), "FakeDevice", "FakeDeviceObject", now).value == "32767"
  {
    assert NatToDecimal(3) == "3"; assert NatToDecimal(32) == "32"; assert NatToDecimal(327) == "327"; assert NatToDecimal(3276) == "3276"; assert NatToDecimal(32767) == "32767";
  }

  lemma Int32MinReading(v: int32, now: int64, hi: nat, lo: nat)
    requires v == -2147483648 && hi == 21474 && lo == 83648
    ensures Reading(NewInt32Value(0, v), "FakeDevice", "FakeDeviceObject", now).value == "-2147483648"
  {
    Int32MinNumeral(v, 2147483648, hi, lo);
  }

  lemma Int32MinNumeral(v: int, m: nat, hi: nat, lo: nat)
    requires v == -2147483648 && m == 2147483648 && hi == 21474 && lo == 83648
    ensures IntToDecimal(v) == "-2147483648"
  {
    Int32Groups();
    NatToDecimalOfPair(m, hi, lo);
    assert IntToDecimal(v) == "-" + NatToDecimal(m);
  }

  lemma Int32MaxReading(v: int32, now: int64, hi: nat, lo: nat)
    requires v == 2147483647 && hi == 21474 && lo == 83647
    ensures Reading(NewInt32Value(0, v), "FakeDevice", "FakeDeviceObject", now).value == "2147483647"
  {
    Int32MaxNumeral(v, hi, lo);
  }

  lemma Int32MaxNumeral(v: int32, hi: nat, lo: nat)
    requires v == 2147483647 && hi == 21474 && lo == 83647
    ensures IntToDecimal(v) == "2147483647"
  {
    Int32Groups();
    NatToDecimalOfPair(v, hi, lo);
  }

  lemma Int32Groups()
    ensures NatToDecimal(21474) == "21474" && NatToDecimal(83648) == "83648" && NatToDecimal(83647) == "83647"
  {
    assert NatToDecimal(2) == "2"; assert NatToDecimal(21) == "21"; assert NatToDecimal(214) == "214"; assert NatToDecimal(2147) == "2147"; assert NatToDecimal(21474) == "21474";
    assert NatToDecimal(8) == "8"; assert NatToDecimal(83) == "83"; assert NatToDecimal(836) == "836"; assert NatToDecimal(8364) == "8364"; assert NatToDecimal(83648) == "83648"; assert NatToDecimal(83647) == "83647";
  }

  /** The 64-bit extremes, built up five digits at a time. */
  lemma Uint64MaxReading(v: uint64, now: int64, b: nat, c: nat)
    requires v == 18446744073709551615 && b == 184467440737095 && c == 51615
    ensures Reading(NewUint64Value(0, v), "FakeDevice", "FakeDeviceObject", now).value == "18446744073709551615"
  {
    Uint64MaxPrefix(b, 1844674407);
    Uint64LowGroups();
    Uint64MaxDigits(v, b, c);
  }

  lemma Uint64MaxDigits(n: nat, b: nat, c: nat)
    requires b > 0 && 10000 <= c < 100000 && n == b * 100000 + c
    requires NatToDecimal(b) == "184467440737095" && NatToDecimal(c) == "51615"
    ensures NatToDecimal(n) == "18446744073709551615"
  {
    NatToDecimalOfPair(n, b, c);
  }

  lemma Uint64MaxPrefix(b: nat, a: nat)
    requires b == 184467440737095 && a == 1844674407
    ensures NatToDecimal(b) == "184467440737095"
  {
    Uint64HighGroups();
    NatToDecimalOfPair(a, 18446, 74407);
    Uint64LowGroups();
    NatToDecimalOfPair(b, a, 37095);
  }

  lemma Uint64HighGroups()
    ensures NatToDecimal(18446) == "18446" && NatToDecimal(74407) == "74407"
  {
    assert NatToDecimal(1) == "1"; assert NatToDecimal(18) == "18"; assert NatToDecimal(184) == "184"; assert NatToDecimal(1844) == "1844"; assert NatToDecimal(18446) == "18446";
    assert NatToDecimal(7) == "7"; assert NatToDecimal(74) == "74"; assert NatToDecimal(744) == "744"; assert NatToDecimal(7440) == "7440"; assert NatToDecimal(74407) == "74407";
  }

  lemma Uint64LowGroups()
    ensures NatToDecimal(37095) == "37095" && NatToDecimal(51615) == "51615"
  {
    assert NatToDecimal(3) == "3"; assert NatToDecimal(37) == "37"; assert NatToDecimal(370) == "370"; assert NatToDecimal(3709) == "3709"; assert NatToDecimal(37095) == "37095";
    assert NatToDecimal(5) == "5"; assert NatToDecimal(51) == "51"; assert NatToDecimal(516) == "516"; assert NatToDecimal(5161) == "5161"; assert NatToDecimal(51615) == "51615";
  }

  lemma Int64MinReading(v: int64, now: int64, b: nat, c: nat)
    requires v == -9223372036854775808 && b == 92233720368547 && c == 75808
    ensures Reading(NewInt64Value(0, v), "FakeDevice", "FakeDeviceObject", now).value == "-9223372036854775808"
  {
    Int64MinPrefix(b, 922337203);
    Int64LowGroups();
    Int64MinDigits(-(v as int), b, c);
    Int64MinNumeral(v as int, -(v as int));
  }

  lemma Int64MinNumeral(v: int, m: nat)
    requires v < 0 && v + m == 0 && NatToDecimal(m) == "9223372036854775808"
    ensures IntToDecimal(v) == "-9223372036854775808"
  {
    assert IntToDecimal(v) == "-" + NatToDecimal(m);
  }

  lemma Int64MinDigits(m: nat, b: nat, c: nat)
    requires b > 0 && 10000 <= c < 100000 && m == b * 100000 + c
    requires NatToDecimal(b) == "92233720368547" && NatToDecimal(c) == "75808"
    ensures NatToDecimal(m) == "9223372036854775808"
  {
    NatToDecimalOfPair(m, b, c);
  }

  lemma Int64MinPrefix(b: nat, a: nat)
    requires b == 92233720368547 && a == 922337203
    ensures NatToDecimal(b) == "92233720368547"
  {
    Int64HighGroups();
    NatToDecimalOfPair(a, 9223, 37203);
    Int64LowGroups();
    NatToDecimalOfPair(b, a, 68547);
  }

  lemma Int64HighGroups()
    ensures NatToDecimal(9223) == "9223" && NatToDecimal(37203) == "37203"
  {
    assert NatToDecimal(9) == "9"; assert NatToDecimal(92) == "92"; assert NatToDecimal(922) == "922"; assert NatToDecimal(9223) == "9223";
    assert NatToDecimal(3) == "3"; assert NatToDecimal(37) == "37"; assert NatToDecimal(372) == "372"; assert NatToDecimal(3720) == "3720"; assert NatToDecimal(37203) == "37203";
  }

  lemma Int64LowGroups()
    ensures NatToDecimal(68547) == "68547" && NatToDecimal(75808) == "75808"
  {
    assert NatToDecimal(6) == "6"; assert NatToDecimal(68) == "68"; assert NatToDecimal(685) == "685"; assert NatToDecimal(6854) == "6854"; assert NatToDecimal(68547) == "68547";
    assert NatToDecimal(7) == "7"; assert NatToDecimal(75) == "75"; assert NatToDecimal(758) == "758"; assert NatToDecimal(7580) == "7580"; assert NatToDecimal(75808) == "75808";
  }

  /** A positive origin given to a factory stamps the reading. */
  lemma Uint64OriginReading(now: int64)
    ensures Reading(NewUint64Value(42, 0), "FakeDevice", "FakeDeviceObject", now).origin == 42
  {
  }
}
