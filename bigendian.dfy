/**
 * Go's `encoding/binary` with `binary.BigEndian`, as the value codec uses it:
 * `binary.Write` of a fixed-size scalar and `binary.Read` of one back, whose
 * short reads fail the way `io.ReadFull` does.
 */
module BigEndian {
  import opened Ints
  import opened Wrappers

  /** 256 to the power n: the number of values an n-byte buffer can hold. */
  function Pow256(n: nat): (p: nat)
    ensures p >= 1
  {
    if n == 0 then 1 else 256 * Pow256(n - 1)
  }

  lemma PowValues()
    ensures Pow256(1) == TWO_TO_THE_8 && Pow256(2) == TWO_TO_THE_16
    ensures Pow256(4) == TWO_TO_THE_32 && Pow256(8) == TWO_TO_THE_64
  {
  }

  /** A buffer of at least one byte holds an even number of values. */
  lemma PowEven(width: nat)
    requires 0 < width
    ensures Pow256(width) == 2 * (Pow256(width) / 2)
  {
    assert Pow256(width) == 2 * (128 * Pow256(width - 1));
  }

  lemma DivBound(x: nat, width: nat)
    requires 0 < width && x < Pow256(width)
    ensures x / 256 < Pow256(width - 1)
  {
  }

  lemma MulBound(hi: nat, lo: nat, width: nat)
    requires hi < Pow256(width) && lo < 256
    ensures hi * 256 + lo < Pow256(width + 1)
  {
  }

  /** The `width`-byte big-endian encoding of x, most significant byte first. */
  function EncodeUnsigned(x: nat, width: nat): (bs: seq<byte>)
    requires x < Pow256(width)
    ensures |bs| == width
  {
    if width == 0 then []
    else
      DivBound(x, width);
      EncodeUnsigned(x / 256, width - 1) + [x % 256]
  }

  /** The number a big-endian byte sequence denotes. */
  function DecodeUnsigned(bs: seq<byte>): (x: nat)
    ensures x < Pow256(|bs|)
  {
    if bs == [] then 0
    else
      var hi := DecodeUnsigned(bs[..|bs| - 1]);
      MulBound(hi, bs[|bs| - 1], |bs| - 1);
      hi * 256 + bs[|bs| - 1]
  }

  lemma {:induction false} DecodeEncode(x: nat, width: nat)
    requires x < Pow256(width)
    ensures DecodeUnsigned(EncodeUnsigned(x, width)) == x
  {
    if width > 0 {
      DivBound(x, width);
      var bs := EncodeUnsigned(x, width);
      assert bs[..width - 1] == EncodeUnsigned(x / 256, width - 1);
      DecodeEncode(x / 256, width - 1);
    }
  }

  lemma {:induction false} EncodeDecode(bs: seq<byte>)
    ensures EncodeUnsigned(DecodeUnsigned(bs), |bs|) == bs
  {
    if bs != [] {
      var n := |bs|;
      var hi := DecodeUnsigned(bs[..n - 1]);
      EncodeDecode(bs[..n - 1]);
      var x := DecodeUnsigned(bs);
      assert x == hi * 256 + bs[n - 1];
      DivModByte(hi, bs[n - 1]);
      assert EncodeUnsigned(x, n) == EncodeUnsigned(hi, n - 1) + [bs[n - 1]];
      assert bs == bs[..n - 1] + [bs[n - 1]];
    }
  }

  lemma DivModByte(hi: nat, lo: nat)
    requires lo < 256
    ensures (hi * 256 + lo) / 256 == hi && (hi * 256 + lo) % 256 == lo
  {
  }

  /** Two's complement: the unsigned number that stands for v in `width` bytes. */
  function ToUnsigned(v: int, width: nat): (u: nat)
    requires 0 < width && -(Pow256(width) / 2) <= v < Pow256(width) / 2
    ensures u < Pow256(width)
    ensures v >= 0 ==> u == v
    ensures v < 0 ==> u == v + Pow256(width)
  {
    if v < 0 then v + Pow256(width) else v
  }

  /** Two's complement: the signed number that `width` bytes holding u stand for. */
  function FromUnsigned(u: nat, width: nat): (v: int)
    requires 0 < width && u < Pow256(width)
    ensures -(Pow256(width) / 2) <= v < Pow256(width) / 2
    ensures ToUnsigned(v, width) == u
  {
    PowEven(width);
    if u >= Pow256(width) / 2 then u - Pow256(width) else u
  }

  lemma FromToUnsigned(v: int, width: nat)
    requires 0 < width && -(Pow256(width) / 2) <= v < Pow256(width) / 2
    ensures FromUnsigned(ToUnsigned(v, width), width) == v
  {
    PowEven(width);
  }

  /** A fixed-size value handed to `binary.Write` (the `interface{}` argument). */
  datatype Scalar =
    | BoolScalar(b: bool)
    | Uint8Scalar(u8: uint8)
    | Uint16Scalar(u16: uint16)
    | Uint32Scalar(u32: uint32)
    | Uint64Scalar(u64: uint64)
    | Int8Scalar(i8: int8)
    | Int16Scalar(i16: int16)
    | Int32Scalar(i32: int32)
    | Int64Scalar(i64: int64)

  /** `binary.Size`: the number of bytes the scalar's Go type occupies. */
  function Size(s: Scalar): nat {
    match s
    case BoolScalar(_) => 1
    case Uint8Scalar(_) => 1
    case Uint16Scalar(_) => 2
    case Uint32Scalar(_) => 4
    case Uint64Scalar(_) => 8
    case Int8Scalar(_) => 1
    case Int16Scalar(_) => 2
    case Int32Scalar(_) => 4
    case Int64Scalar(_) => 8
  }

  /** `binary.Write(buf, binary.BigEndian, s)`: the bytes written to an empty buffer. */
  function Write(s: Scalar): (bs: seq<byte>)
    ensures |bs| == Size(s)
  {
    PowValues();
    match s
    case BoolScalar(b) => [if b then 1 else 0]
    case Uint8Scalar(x) => EncodeUnsigned(x, 1)
    case Uint16Scalar(x) => EncodeUnsigned(x, 2)
    case Uint32Scalar(x) => EncodeUnsigned(x, 4)
    case Uint64Scalar(x) => EncodeUnsigned(x, 8)
    case Int8Scalar(x) => EncodeUnsigned(ToUnsigned(x, 1), 1)
    case Int16Scalar(x) => EncodeUnsigned(ToUnsigned(x, 2), 2)
    case Int32Scalar(x) => EncodeUnsigned(ToUnsigned(x, 4), 4)
    case Int64Scalar(x) => EncodeUnsigned(ToUnsigned(x, 8), 8)
  }

  /**
   * `io.ReadFull` of `width` bytes from a reader over bs: all of them, or
   * `EOF` when bs is empty, or `unexpected EOF` when it is merely short.
   */
  function ReadFull(bs: seq<byte>, width: nat): (r: Result<seq<byte>, string>)
    requires 0 < width
  {
    if |bs| >= width then Success(bs[..width])
    else if |bs| == 0 then Failure("EOF")
    else Failure("unexpected EOF")
  }

  /** `binary.Read` into an unsigned integer of `width` bytes. */
  function ReadUnsigned(bs: seq<byte>, width: nat): (r: Result<nat, string>)
    requires 0 < width
    ensures r.Success? <==> |bs| >= width
    ensures r.Success? ==> r.value < Pow256(width) && r.value == DecodeUnsigned(bs[..width])
  {
    match ReadFull(bs, width)
    case Success(b) => Success(DecodeUnsigned(b))
    case Failure(e) => Failure(e)
  }

  /** `binary.Read` into a signed integer of `width` bytes. */
  function ReadSigned(bs: seq<byte>, width: nat): (r: Result<int, string>)
    requires 0 < width
    ensures r.Success? <==> |bs| >= width
    ensures r.Success? ==> -(Pow256(width) / 2) <= r.value < Pow256(width) / 2
  {
    match ReadUnsigned(bs, width)
    case Success(u) => Success(FromUnsigned(u, width))
    case Failure(e) => Failure(e)
  }

  /** `binary.Read` into a bool: one byte, true when it is not zero. */
  function ReadBool(bs: seq<byte>): (r: Result<bool, string>)
    ensures r.Success? <==> |bs| >= 1
  {
    match ReadFull(bs, 1)
    case Success(b) => Success(b[0] != 0)
    case Failure(e) => Failure(e)
  }

  /** Reading back what `EncodeUnsigned` wrote yields the number, whatever follows it. */
  lemma ReadUnsignedOfEncoding(x: nat, width: nat, rest: seq<byte>)
    requires 0 < width && x < Pow256(width)
    ensures ReadUnsigned(EncodeUnsigned(x, width) + rest, width) == Success(x)
  {
    var bs := EncodeUnsigned(x, width);
    assert (bs + rest)[..width] == bs;
    DecodeEncode(x, width);
  }

  lemma ReadSignedOfEncoding(v: int, width: nat, rest: seq<byte>)
    requires 0 < width && -(Pow256(width) / 2) <= v < Pow256(width) / 2
    ensures ReadSigned(EncodeUnsigned(ToUnsigned(v, width), width) + rest, width) == Success(v)
  {
    ReadUnsignedOfEncoding(ToUnsigned(v, width), width, rest);
    FromToUnsigned(v, width);
  }

  lemma ReadBoolOfWrite(b: bool)
    ensures ReadBool(Write(BoolScalar(b))) == Success(b)
  {
  }

  /** A short buffer is reported as `EOF` when empty and `unexpected EOF` otherwise. */
  lemma ReadUnsignedShort(bs: seq<byte>, width: nat)
    requires 0 < width && |bs| < width
    ensures ReadUnsigned(bs, width) == Failure(if bs == [] then "EOF" else "unexpected EOF")
  {
  }

  /** The two scalars have the same Go type. */
  predicate SameKind(a: Scalar, b: Scalar) {
    match (a, b)
    case (BoolScalar(_), BoolScalar(_)) => true
    case (Uint8Scalar(_), Uint8Scalar(_)) => true
    case (Uint16Scalar(_), Uint16Scalar(_)) => true
    case (Uint32Scalar(_), Uint32Scalar(_)) => true
    case (Uint64Scalar(_), Uint64Scalar(_)) => true
    case (Int8Scalar(_), Int8Scalar(_)) => true
    case (Int16Scalar(_), Int16Scalar(_)) => true
    case (Int32Scalar(_), Int32Scalar(_)) => true
    case (Int64Scalar(_), Int64Scalar(_)) => true
    case _ => false
  }

  /**
   * `binary.Read(reader, binary.BigEndian, &v)` where v has the Go type of
   * `into`: the value read, or the error of a short buffer.
   */
  function Read(bs: seq<byte>, into: Scalar): (r: Result<Scalar, string>)
    ensures r.Success? <==> |bs| >= Size(into)
    ensures r.Success? ==> SameKind(r.value, into)
    ensures r.Failure? ==> r.error == (if bs == [] then "EOF" else "unexpected EOF")
  {
    PowValues();
    match into
    case BoolScalar(_) => (match ReadBool(bs) case Success(b) => Success(BoolScalar(b)) case Failure(e) => Failure(e))
    case Uint8Scalar(_) => (match ReadUnsigned(bs, 1) case Success(x) => Success(Uint8Scalar(x)) case Failure(e) => Failure(e))
    case Uint16Scalar(_) => (match ReadUnsigned(bs, 2) case Success(x) => Success(Uint16Scalar(x)) case Failure(e) => Failure(e))
    case Uint32Scalar(_) => (match ReadUnsigned(bs, 4) case Success(x) => Success(Uint32Scalar(x)) case Failure(e) => Failure(e))
    case Uint64Scalar(_) => (match ReadUnsigned(bs, 8) case Success(x) => Success(Uint64Scalar(x)) case Failure(e) => Failure(e))
    case Int8Scalar(_) => (match ReadSigned(bs, 1) case Success(x) => Success(Int8Scalar(x)) case Failure(e) => Failure(e))
    case Int16Scalar(_) => (match ReadSigned(bs, 2) case Success(x) => Success(Int16Scalar(x)) case Failure(e) => Failure(e))
    case Int32Scalar(_) => (match ReadSigned(bs, 4) case Success(x) => Success(Int32Scalar(x)) case Failure(e) => Failure(e))
    case Int64Scalar(_) => (match ReadSigned(bs, 8) case Success(x) => Success(Int64Scalar(x)) case Failure(e) => Failure(e))
  }

  /** Reading into the written value's own type yields the written value. */
  lemma ReadWrite(s: Scalar, into: Scalar)
    requires SameKind(s, into)
    ensures Read(Write(s), into) == Success(s)
  {
    PowValues();
    match s
    case BoolScalar(b) =>
    case Uint8Scalar(x) => ReadUnsignedOfEncoding(x, 1, []); assert Write(s) + [] == Write(s);
    case Uint16Scalar(x) => ReadUnsignedOfEncoding(x, 2, []); assert Write(s) + [] == Write(s);
    case Uint32Scalar(x) => ReadUnsignedOfEncoding(x, 4, []); assert Write(s) + [] == Write(s);
    case Uint64Scalar(x) => ReadUnsignedOfEncoding(x, 8, []); assert Write(s) + [] == Write(s);
    case Int8Scalar(x) => ReadSignedOfEncoding(x, 1, []); assert Write(s) + [] == Write(s);
    case Int16Scalar(x) => ReadSignedOfEncoding(x, 2, []); assert Write(s) + [] == Write(s);
    case Int32Scalar(x) => ReadSignedOfEncoding(x, 4, []); assert Write(s) + [] == Write(s);
    case Int64Scalar(x) => ReadSignedOfEncoding(x, 8, []); assert Write(s) + [] == Write(s);
  }
}
