/**
 * The older driver result type: the same typed payload as a command value,
 * together with the resource operation and value descriptor it answers.
 */
module CommandResults {
  import opened Ints
  import opened Wrappers
  import opened BigEndian
  import opened Text
  import opened CommandValues
  import Models

  /** The result type tags are the value type tags, in the same order. */
  type ResultType = ValueType

  datatype CommandResult = CommandResult(
    deviceId: string,
    deviceName: string,
    ro: Option<Models.ResourceOperation>,
    vdr: Option<Models.ValueDescriptor>,
    origin: int64,
    resultType: ResultType,
    numericResult: seq<byte>,
    stringResult: string)

  /** The typed payload of a result, as a command value with the same origin and tag. */
  function Payload(cr: CommandResult): (cv: CommandValue)
    ensures cv.origin == cr.origin && cv.valueType == cr.resultType
    ensures cv.numericValue == cr.numericResult && cv.stringValue == cr.stringResult
  {
    CommandValue(cr.origin, cr.resultType, cr.numericResult, cr.stringResult)
  }

  /** `encodeResult`: the numeric payload becomes the big-endian encoding of value. */
  function EncodeResult(cr: CommandResult, value: Scalar): (r: CommandResult)
    ensures r == cr.(numericResult := r.numericResult)
    ensures |r.numericResult| == Size(value)
    ensures forall into :: SameKind(value, into) ==> DecodeResult(r.numericResult, into) == Success(value)
  {
    forall into | SameKind(value, into) ensures Read(Write(value), into) == Success(value) {
      ReadWrite(value, into);
    }
    cr.(numericResult := Write(value))
  }

  /** A fresh result for ro and vdr with no device recorded. */
  function Blank(ro: Option<Models.ResourceOperation>, vdr: Option<Models.ValueDescriptor>, origin: int64, t: ResultType): CommandResult {
    CommandResult("", "", ro, vdr, origin, t, [], "")
  }

  /** The result records ro, vdr and origin, and no device. */
  predicate Records(cr: CommandResult, ro: Option<Models.ResourceOperation>, vdr: Option<Models.ValueDescriptor>, origin: int64, t: ResultType) {
    cr.deviceId == "" && cr.deviceName == "" && cr.ro == ro && cr.vdr == vdr && cr.origin == origin && cr.resultType == t
  }

  function NewBoolResult(ro: Option<Models.ResourceOperation>, vdr: Option<Models.ValueDescriptor>, origin: int64, value: bool): (cr: CommandResult)
    ensures Records(cr, ro, vdr, origin, Bool) && |cr.numericResult| == Width(Bool)
    ensures BoolValue(cr) == Decoded(value, None)
    ensures ToString(cr) == FormatBool(value)
  {
    EncodeResult(Blank(ro, vdr, origin, Bool), BoolScalar(value))
  }

  function NewStringResult(ro: Option<Models.ResourceOperation>, vdr: Option<Models.ValueDescriptor>, origin: int64, value: string): (cr: CommandResult)
    ensures Records(cr, ro, vdr, origin, String) && cr.numericResult == []
    ensures StringValue(cr) == Decoded(value, None)
    ensures ToString(cr) == value
  {
    Blank(ro, vdr, origin, String).(stringResult := value)
  }

  function NewUint8Result(ro: Option<Models.ResourceOperation>, vdr: Option<Models.ValueDescriptor>, origin: int64, value: uint8): (cr: CommandResult)
    ensures Records(cr, ro, vdr, origin, Uint8) && |cr.numericResult| == Width(Uint8)
    ensures Uint8Value(cr) == Decoded(value, None)
    ensures ToString(cr) == IntToDecimal(value)
  {
    EncodeResult(Blank(ro, vdr, origin, Uint8), Uint8Scalar(value))
  }

  function NewUint16Result(ro: Option<Models.ResourceOperation>, vdr: Option<Models.ValueDescriptor>, origin: int64, value: uint16): (cr: CommandResult)
    ensures Records(cr, ro, vdr, origin, Uint16) && |cr.numericResult| == Width(Uint16)
    ensures Uint16Value(cr) == Decoded(value, None)
    ensures ToString(cr) == IntToDecimal(value)
  {
    EncodeResult(Blank(ro, vdr, origin, Uint16), Uint16Scalar(value))
  }

  function NewUint32Result(ro: Option<Models.ResourceOperation>, vdr: Option<Models.ValueDescriptor>, origin: int64, value: uint32): (cr: CommandResult)
    ensures Records(cr, ro, vdr, origin, Uint32) && |cr.numericResult| == Width(Uint32)
    ensures Uint32Value(cr) == Decoded(value, None)
    ensures ToString(cr) == IntToDecimal(value)
  {
    EncodeResult(Blank(ro, vdr, origin, Uint32), Uint32Scalar(value))
  }

  /** There is no typed accessor for Uint64 results; the encoding is what decodes back. */
  function NewUint64Result(ro: Option<Models.ResourceOperation>, vdr: Option<Models.ValueDescriptor>, origin: int64, value: uint64): (cr: CommandResult)
    ensures Records(cr, ro, vdr, origin, Uint64) && |cr.numericResult| == Width(Uint64)
    ensures DecodeResult(cr.numericResult, Uint64Scalar(0)) == Success(Uint64Scalar(value))
    ensures ToString(cr) == IntToDecimal(value)
  {
    EncodeResult(Blank(ro, vdr, origin, Uint64), Uint64Scalar(value))
  }

  function NewInt8Result(ro: Option<Models.ResourceOperation>, vdr: Option<Models.ValueDescriptor>, origin: int64, value: int8): (cr: CommandResult)
    ensures Records(cr, ro, vdr, origin, Int8) && |cr.numericResult| == Width(Int8)
    ensures Int8Value(cr) == Decoded(value, None)
    ensures ToString(cr) == IntToDecimal(value)
  {
    EncodeResult(Blank(ro, vdr, origin, Int8), Int8Scalar(value))
  }

  function NewInt16Result(ro: Option<Models.ResourceOperation>, vdr: Option<Models.ValueDescriptor>, origin: int64, value: int16): (cr: CommandResult)
    ensures Records(cr, ro, vdr, origin, Int16) && |cr.numericResult| == Width(Int16)
    ensures Int16Value(cr) == Decoded(value, None)
    ensures ToString(cr) == IntToDecimal(value)
  {
    EncodeResult(Blank(ro, vdr, origin, Int16), Int16Scalar(value))
  }

  function NewInt32Result(ro: Option<Models.ResourceOperation>, vdr: Option<Models.ValueDescriptor>, origin: int64, value: int32): (cr: CommandResult)
    ensures Records(cr, ro, vdr, origin, Int32) && |cr.numericResult| == Width(Int32)
    ensures Int32Value(cr) == Decoded(value, None)
    ensures ToString(cr) == IntToDecimal(value)
  {
    EncodeResult(Blank(ro, vdr, origin, Int32), Int32Scalar(value))
  }

  function NewInt64Result(ro: Option<Models.ResourceOperation>, vdr: Option<Models.ValueDescriptor>, origin: int64, value: int64): (cr: CommandResult)
    ensures Records(cr, ro, vdr, origin, Int64) && |cr.numericResult| == Width(Int64)
    ensures Int64Value(cr) == Decoded(value, None)
    ensures ToString(cr) == IntToDecimal(value)
  {
    EncodeResult(Blank(ro, vdr, origin, Int64), Int64Scalar(value))
  }

  /**
   * `toString` as written: like the command value's, a failed read is
   * reported as the zero value.
   */
  function ToString(cr: CommandResult): (s: string)
    ensures cr.resultType == String ==> s == cr.stringResult
    ensures cr.resultType != String && !WellFormed(Payload(cr)) ==> s == (if cr.resultType == Bool then "false" else "0")
  {
    CommandValues.ToString(Payload(cr))
  }

  /** The rendering with the read error kept. */
  function CorrectedToString(cr: CommandResult): (s: string)
    ensures cr.resultType == String ==> s == cr.stringResult
    ensures cr.resultType != String && !WellFormed(Payload(cr)) ==> s == ReadError(cr.numericResult)
  {
    CommandValues.CorrectedToString(Payload(cr))
  }

  /** On a whole payload the two renderings agree. */
  lemma ToStringAgrees(cr: CommandResult)
    requires WellFormed(Payload(cr))
    ensures ToString(cr) == CorrectedToString(cr)
  {
    CommandValues.ToStringAgrees(Payload(cr));
  }

  lemma ToStringHidesShortRead()
    ensures ToString(Blank(None, None, 0, Int32).(numericResult := [0, 0])) == "0"
    ensures CorrectedToString(Blank(None, None, 0, Int32).(numericResult := [0, 0])) == "unexpected EOF"
  {
  }

  /**
   * `String()`: the formatted resource operation and value descriptor
   * (roText, vdrText, whose `%v` formatting is not modelled), each on its
   * own line, then the origin line, the type label and the value.
   */
  function Describe(cr: CommandResult, roText: string, vdrText: string): string {
    roText + "\n" + (vdrText + "\n" + CommandValues.Describe(Payload(cr)))
  }

  /** After the two header lines, String() reads as the payload's own String(). */
  lemma DescribeLayout(cr: CommandResult, roText: string, vdrText: string)
    requires '\n' !in roText && '\n' !in vdrText
    ensures var s := Describe(cr, roText, vdrText);
      FirstLine(s) == roText &&
      FirstLine(s[|roText| + 1..]) == vdrText &&
      s[|roText| + |vdrText| + 2..] == CommandValues.Describe(Payload(cr))
  {
    HeaderLines(roText, vdrText, CommandValues.Describe(Payload(cr)));
  }

  /** Two lines without a line feed, then a body: each line and the body can be read back. */
  lemma HeaderLines(first: string, second: string, body: string)
    requires '\n' !in first && '\n' !in second
    ensures var s := first + "\n" + (second + "\n" + body);
      FirstLine(s) == first &&
      FirstLine(s[|first| + 1..]) == second &&
      s[|first| + |second| + 2..] == body
  {
    var s := first + "\n" + (second + "\n" + body);
    FirstLineOfLine(first, second + "\n" + body);
    assert s[|first| + 1..] == second + "\n" + body;
    FirstLineOfLine(second, body);
    assert s[|first| + |second| + 2..] == body;
  }

  /** `Reading`: as for a command value, named doName and stamped by origin or clock. */
  function Reading(cr: CommandResult, devName: string, doName: string, now: int64): (r: Models.Reading)
    ensures r.name == doName && r.device == devName && r.value == ToString(cr)
    ensures cr.origin > 0 ==> r.origin == cr.origin
    ensures cr.origin <= 0 ==> r.origin == now
  {
    CommandValues.Reading(Payload(cr), devName, doName, now)
  }

  /** `Transform`: no transform is applied and no overflow is reported. */
  function Transform(cr: CommandResult): (err: Option<string>)
    ensures err == None
  {
    None
  }

  /** `TransformResult`: no transform is applied yet, and it reports success. */
  function TransformResult(cr: CommandResult, pv: Models.PropertyValue): (ok: bool)
    ensures ok
  {
    true
  }

  function BoolValue(cr: CommandResult): (r: Decoded<bool>)
    ensures cr.resultType != Bool ==> r == Decoded(false, Some(NotOfType("bool")))
    ensures cr.resultType == Bool ==> (r.err.None? <==> WellFormed(Payload(cr)))
    ensures cr.resultType == Bool && r.err.Some? ==> r == Decoded(false, Some(ReadError(cr.numericResult)))
    ensures cr.resultType == Bool && r.err.None? ==> FormatBool(r.value) == ToString(cr)
  {
    CommandValues.BoolValue(Payload(cr))
  }

  function StringValue(cr: CommandResult): (r: Decoded<string>)
    ensures r.value == cr.stringResult
    ensures r.err.None? <==> cr.resultType == String
    ensures r.err.Some? ==> r.err == Some(NotOfType("string"))
  {
    CommandValues.StringValue(Payload(cr))
  }

  function Uint8Value(cr: CommandResult): (r: Decoded<uint8>)
    ensures cr.resultType != Uint8 ==> r == Decoded(0, Some(NotOfType("uint8")))
    ensures cr.resultType == Uint8 ==> (r.err.None? <==> WellFormed(Payload(cr)))
    ensures cr.resultType == Uint8 && r.err.Some? ==> r == Decoded(0, Some(ReadError(cr.numericResult)))
    ensures cr.resultType == Uint8 && r.err.None? ==> IntToDecimal(r.value) == ToString(cr)
  {
    CommandValues.Uint8Value(Payload(cr))
  }

  function Uint16Value(cr: CommandResult): (r: Decoded<uint16>)
    ensures cr.resultType != Uint16 ==> r == Decoded(0, Some(NotOfType("uint16")))
    ensures cr.resultType == Uint16 ==> (r.err.None? <==> WellFormed(Payload(cr)))
    ensures cr.resultType == Uint16 && r.err.Some? ==> r == Decoded(0, Some(ReadError(cr.numericResult)))
    ensures cr.resultType == Uint16 && r.err.None? ==> IntToDecimal(r.value) == ToString(cr)
  {
    CommandValues.Uint16Value(Payload(cr))
  }

  function Uint32Value(cr: CommandResult): (r: Decoded<uint32>)
    ensures cr.resultType != Uint32 ==> r == Decoded(0, Some(NotOfType("uint32")))
    ensures cr.resultType == Uint32 ==> (r.err.None? <==> WellFormed(Payload(cr)))
    ensures cr.resultType == Uint32 && r.err.Some? ==> r == Decoded(0, Some(ReadError(cr.numericResult)))
    ensures cr.resultType == Uint32 && r.err.None? ==> IntToDecimal(r.value) == ToString(cr)
  {
    CommandValues.Uint32Value(Payload(cr))
  }

  function Int8Value(cr: CommandResult): (r: Decoded<int8>)
    ensures cr.resultType != Int8 ==> r == Decoded(0, Some(NotOfType("int8")))
    ensures cr.resultType == Int8 ==> (r.err.None? <==> WellFormed(Payload(cr)))
    ensures cr.resultType == Int8 && r.err.Some? ==> r == Decoded(0, Some(ReadError(cr.numericResult)))
    ensures cr.resultType == Int8 && r.err.None? ==> IntToDecimal(r.value) == ToString(cr)
  {
    CommandValues.Int8Value(Payload(cr))
  }

  function Int16Value(cr: CommandResult): (r: Decoded<int16>)
    ensures cr.resultType != Int16 ==> r == Decoded(0, Some(NotOfType("int16")))
    ensures cr.resultType == Int16 ==> (r.err.None? <==> WellFormed(Payload(cr)))
    ensures cr.resultType == Int16 && r.err.Some? ==> r == Decoded(0, Some(ReadError(cr.numericResult)))
    ensures cr.resultType == Int16 && r.err.None? ==> IntToDecimal(r.value) == ToString(cr)
  {
    CommandValues.Int16Value(Payload(cr))
  }

  function Int32Value(cr: CommandResult): (r: Decoded<int32>)
    ensures cr.resultType != Int32 ==> r == Decoded(0, Some(NotOfType("int32")))
    ensures cr.resultType == Int32 ==> (r.err.None? <==> WellFormed(Payload(cr)))
    ensures cr.resultType == Int32 && r.err.Some? ==> r == Decoded(0, Some(ReadError(cr.numericResult)))
    ensures cr.resultType == Int32 && r.err.None? ==> IntToDecimal(r.value) == ToString(cr)
  {
    CommandValues.Int32Value(Payload(cr))
  }

  function Int64Value(cr: CommandResult): (r: Decoded<int64>)
    ensures cr.resultType != Int64 ==> r == Decoded(0, Some(NotOfType("int64")))
    ensures cr.resultType == Int64 ==> (r.err.None? <==> WellFormed(Payload(cr)))
    ensures cr.resultType == Int64 && r.err.Some? ==> r == Decoded(0, Some(ReadError(cr.numericResult)))
    ensures cr.resultType == Int64 && r.err.None? ==> IntToDecimal(r.value) == ToString(cr)
  {
    CommandValues.Int64Value(Payload(cr))
  }
}
