/**
 * Decoding of the payload of a Tuya data point: a datatype tag and a byte
 * sequence become a typed value (drivers/radar_sensor_2/device.js:20-59).
 *
 * The numeric conversion follows JavaScript: `value << 8` first wraps its
 * operand to a signed 32-bit integer and wraps the shifted result again,
 * while the following `value += byte` is an ordinary (unwrapped) addition.
 */
module TuyaPayload {

  /** One byte of a payload, as the cluster delivers it. */
  type byte = x: int | 0 <= x < 256

  // The datatype tags of a data point (the `dataTypes` table).
  const RawType: int := 0     // the bytes themselves
  const BoolType: int := 1    // one byte, 0 or 1
  const ValueType: int := 2   // a 4-byte number
  const StringType: int := 3  // one character per byte
  const EnumType: int := 4    // one byte, 0-255
  const BitmapType: int := 5  // 1, 2 or 4 bytes read as bits

  /** What `getDataValue` can return; `Undefined` is JavaScript's `undefined`. */
  datatype DataValue =
    | Bytes(bytes: seq<byte>)
    | Boolean(b: bool)
    | Number(n: int)
    | Text(s: string)
    | Undefined

  const Int32Modulus: int := 0x1_0000_0000

  predicate IsInt32(x: int) {
    -0x8000_0000 <= x < 0x8000_0000
  }

  /** ECMAScript's ToInt32 on an integral number: the signed 32-bit value congruent to `x`. */
  function ToInt32(x: int): (r: int)
    ensures IsInt32(r)
    ensures (x - r) % Int32Modulus == 0
  {
    var m := x % Int32Modulus;
    if m < 0x8000_0000 then m else m - Int32Modulus
  }

  /**
   * JavaScript's `x << 8` on an integral number: a signed 32-bit multiple of
   * 256 that is congruent to `x * 256`.
   */
  function ShiftLeft8(x: int): (r: int)
    ensures IsInt32(r) && r % 256 == 0 && r <= 0x7FFF_FF00
    ensures (r - x * 256) % Int32Modulus == 0
  {
    var y := ToInt32(x);
    ShiftFacts(x, y, ToInt32(y * 256));
    ToInt32(y * 256)
  }

  /**
   * The number `convertMultiByteNumberPayloadToSingleDecimalNumber` computes:
   * 0 for no bytes, and each further byte shifts the value so far left by 8
   * (with 32-bit wrap-around) and adds the byte.
   */
  function MultiByteValue(chunks: seq<byte>): (r: int)
    ensures IsInt32(r)
    decreases |chunks|
  {
    if chunks == [] then 0
    else ShiftLeft8(MultiByteValue(chunks[..|chunks| - 1])) + chunks[|chunks| - 1]
  }

  /** The unbounded unsigned big-endian number the bytes spell: the reference definition. */
  function BigEndian(chunks: seq<byte>): (r: nat)
    ensures r < Pow256(|chunks|)
    decreases |chunks|
  {
    if chunks == [] then 0
    else BigEndian(chunks[..|chunks| - 1]) * 256 + chunks[|chunks| - 1]
  }

  /** 256 to the power `n`. */
  function Pow256(n: nat): nat {
    if n == 0 then 1 else 256 * Pow256(n - 1)
  }

  /**
   * The string that concatenates `String.fromCharCode` of every byte, in
   * order: one character per byte, whose code is that byte.
   */
  function FromCharCodes(data: seq<byte>): (r: string)
    ensures |r| == |data|
    ensures forall i :: 0 <= i < |data| ==> r[i] as int == data[i]
    decreases |data|
  {
    if data == [] then ""
    else FromCharCodes(data[..|data| - 1]) + [data[|data| - 1] as char]
  }

  /**
   * What `getDataValue` returns for a datatype tag and a payload; it is
   * `undefined` exactly for a tag outside the table, or for `enum` with no byte.
   */
  function DataValueOf(tag: int, data: seq<byte>): (r: DataValue)
    ensures r == Undefined <==> (tag < RawType || tag > BitmapType || (tag == EnumType && |data| == 0))
  {
    if tag == RawType then Bytes(data)
    // `data[0] === 1`: an empty payload reads `undefined`, which is not 1
    else if tag == BoolType then Boolean(|data| > 0 && data[0] == 1)
    else if tag == ValueType then Number(MultiByteValue(data))
    else if tag == StringType then Text(FromCharCodes(data))
    // `data[0]` of an empty payload is `undefined`
    else if tag == EnumType then (if |data| > 0 then Number(data[0]) else Undefined)
    else if tag == BitmapType then Number(MultiByteValue(data))
    else Undefined
  }

  // ---------------------------------------------------------------------------
  // The two loops of the source, proved against the functions above

  /** `convertMultiByteNumberPayloadToSingleDecimalNumber`: the shift-and-add loop. */
  method ConvertMultiBytePayload(chunks: seq<byte>) returns (value: int)
    ensures value == MultiByteValue(chunks)
    ensures value == ToInt32(BigEndian(chunks))
  {
    value := 0;
    for i := 0 to |chunks|
      invariant value == MultiByteValue(chunks[..i])
    {
      assert chunks[..i + 1][..i] == chunks[..i];
      value := ShiftLeft8(value);
      value := value + chunks[i];
    }
    assert chunks[..|chunks|] == chunks;
    MultiByteValueIsWrappedBigEndian(chunks);
  }

  /** The `string` branch of `getDataValue`: one character per byte, appended in order. */
  method CharCodesToString(data: seq<byte>) returns (dataString: string)
    ensures dataString == FromCharCodes(data)
    ensures |dataString| == |data|
    ensures forall i :: 0 <= i < |data| ==> dataString[i] as int == data[i]
  {
    dataString := "";
    for i := 0 to |data|
      invariant dataString == FromCharCodes(data[..i])
    {
      assert data[..i + 1][..i] == data[..i];
      dataString := dataString + [data[i] as char];
    }
    assert data[..|data|] == data;
  }

  /** `getDataValue`: dispatch on the datatype tag. */
  method GetDataValue(tag: int, data: seq<byte>) returns (v: DataValue)
    ensures v == DataValueOf(tag, data)
  {
    if tag == RawType {
      v := Bytes(data);
    } else if tag == BoolType {
      v := Boolean(|data| > 0 && data[0] == 1);
    } else if tag == ValueType {
      var n := ConvertMultiBytePayload(data);
      v := Number(n);
    } else if tag == StringType {
      var s := CharCodesToString(data);
      v := Text(s);
    } else if tag == EnumType {
      v := if |data| > 0 then Number(data[0]) else Undefined;
    } else if tag == BitmapType {
      var n := ConvertMultiBytePayload(data);
      v := Number(n);
    } else {
      v := Undefined;
    }
  }

  // ---------------------------------------------------------------------------
  // Arithmetic of the 32-bit wrap-around

  /** A signed 32-bit number congruent to `x` is ToInt32(x). */
  lemma ToInt32Unique(x: int, y: int)
    requires IsInt32(y) && (x - y) % Int32Modulus == 0
    ensures ToInt32(x) == y
  {
    var k := (x - y) / Int32Modulus;
    assert x == y + k * Int32Modulus;
  }

  /** Multiplying two congruent numbers by 256 keeps them congruent. */
  lemma CongruentTimes256(a: int, b: int)
    requires (a - b) % Int32Modulus == 0
    ensures (a * 256 - b * 256) % Int32Modulus == 0
  {
    var k := (a - b) / Int32Modulus;
    assert a - b == k * Int32Modulus;
    assert a * 256 - b * 256 == (k * 256) * Int32Modulus;
  }

  /** The arithmetic behind `x << 8`: `r`, the wrap of `ToInt32(x) * 256`, is a multiple of 256 congruent to `x * 256`. */
  lemma ShiftFacts(x: int, y: int, r: int)
    requires y == ToInt32(x) && r == ToInt32(y * 256)
    ensures r % 256 == 0 && r <= 0x7FFF_FF00
    ensures (r - x * 256) % Int32Modulus == 0
  {
    CongruentTimes256(x, y);
    var k := (y * 256) / Int32Modulus;
    var m := (y * 256) % Int32Modulus;
    assert y * 256 == k * Int32Modulus + m;
    assert m % 256 == 0 by {
      assert m == 256 * (y - k * 0x100_0000);
    }
    Congruent3(r, y * 256, x * 256);
    var q := r / 256;
    assert r == 256 * q;
  }

  // ---------------------------------------------------------------------------
  // What the numeric decoding computes

  /**
   * The defining equations of `MultiByteValue` in append form, for use by
   * callers: no bytes decode to 0, and appending a byte `b` to a payload that
   * decodes to `v` decodes to `(v << 8) + b`.
   */
  lemma MultiByteValueAppend(chunks: seq<byte>, b: byte)
    ensures MultiByteValue([]) == 0
    ensures MultiByteValue(chunks + [b]) == ShiftLeft8(MultiByteValue(chunks)) + b
  {
    assert (chunks + [b])[..|chunks|] == chunks;
  }

  /**
   * For every length, the decoded number is the big-endian value of the
   * bytes wrapped to a signed 32-bit integer.
   */
  lemma {:induction false} MultiByteValueIsWrappedBigEndian(chunks: seq<byte>)
    ensures MultiByteValue(chunks) == ToInt32(BigEndian(chunks))
    decreases |chunks|
  {
    if chunks == [] {
      ToInt32Unique(0, 0);
    } else {
      var init := chunks[..|chunks| - 1];
      MultiByteValueIsWrappedBigEndian(init);
      ShiftAddStep(MultiByteValue(init), BigEndian(init), chunks[|chunks| - 1]);
    }
  }

  /** One step of the loop: shifting and adding keeps the value congruent to the big-endian one. */
  lemma ShiftAddStep(v: int, be: int, b: byte)
    requires (be - v) % Int32Modulus == 0
    ensures IsInt32(ShiftLeft8(v) + b)
    ensures ShiftLeft8(v) + b == ToInt32(be * 256 + b)
  {
    var s := ShiftLeft8(v);
    CongruentTimes256(be, v);
    assert (s - v * 256) % Int32Modulus == 0;
    assert (be * 256 - v * 256) % Int32Modulus == 0;
    Congruent3(be * 256 + b, v * 256 + b, s + b);
    ToInt32Unique(be * 256 + b, s + b);
  }

  /** Congruence modulo 2^32 is transitive. */
  lemma Congruent3(a: int, b: int, c: int)
    requires (a - b) % Int32Modulus == 0 && (c - b) % Int32Modulus == 0
    ensures (a - c) % Int32Modulus == 0
  {
    var k := (a - b) / Int32Modulus;
    var l := (c - b) / Int32Modulus;
    assert a - c == (k - l) * Int32Modulus;
  }

  /** Payloads of up to three bytes decode to their exact unsigned big-endian value. */
  lemma ShortPayloadExact(chunks: seq<byte>)
    requires |chunks| <= 3
    ensures MultiByteValue(chunks) == BigEndian(chunks)
  {
    assert Pow256(|chunks|) <= Pow256(3);
    MultiByteValueIsWrappedBigEndian(chunks);
    ToInt32Unique(BigEndian(chunks), BigEndian(chunks));
  }

  /**
   * A four-byte payload decodes to its unsigned big-endian value when the
   * first byte is below 0x80, and to that value minus 2^32 (the signed
   * two's-complement reading) otherwise.
   */
  lemma FourBytePayloadSigned(chunks: seq<byte>)
    requires |chunks| == 4
    ensures chunks[0] < 0x80 ==> MultiByteValue(chunks) == BigEndian(chunks)
    ensures chunks[0] >= 0x80 ==> MultiByteValue(chunks) == BigEndian(chunks) - Int32Modulus
  {
    var be := BigEndian(chunks);
    BigEndianOfFourBytes(chunks);
    MultiByteValueIsWrappedBigEndian(chunks);
    if chunks[0] < 0x80 {
      ToInt32Unique(be, be);
    } else {
      ToInt32Unique(be, be - Int32Modulus);
    }
  }

  /** Four 0xFF bytes decode to -1, as in JavaScript, not to 2^32 - 1. */
  lemma AllOnesPayloadIsMinusOne()
    ensures MultiByteValue([0xFF, 0xFF, 0xFF, 0xFF]) == -1
  {
    var ones: seq<byte> := [0xFF, 0xFF, 0xFF, 0xFF];
    BigEndianOfFourBytes(ones);
    FourBytePayloadSigned(ones);
  }

  /** The bytes 0x80 0 0 0 decode to -2^31, the smallest signed 32-bit integer. */
  lemma TopBitPayloadIsMinInt32()
    ensures MultiByteValue([0x80, 0, 0, 0]) == -0x8000_0000
  {
    var top: seq<byte> := [0x80, 0, 0, 0];
    BigEndianOfFourBytes(top);
    FourBytePayloadSigned(top);
  }

  /** The bytes 1 0 0 0 0 decode to 0: the leading 1 is shifted out of the 32 bits. */
  lemma FifthBytePayloadShiftsOut()
    ensures MultiByteValue([1, 0, 0, 0, 0]) == 0
  {
    var four: seq<byte> := [1, 0, 0, 0];
    BigEndianOfFourBytes(four);
    FourBytePayloadSigned(four);
    MultiByteValueAppend(four, 0);
    assert four + [0] == [1, 0, 0, 0, 0];
    assert ToInt32(0x100_0000) == 0x100_0000;
  }

  /** The big-endian value of four bytes, written out. */
  lemma BigEndianOfFourBytes(c: seq<byte>)
    requires |c| == 4
    ensures BigEndian(c) == (c[0] as int) * 0x100_0000 + (c[1] as int) * 0x1_0000 + (c[2] as int) * 0x100 + c[3]
  {
    assert c[..3][..2] == c[..2] && c[..2][..1] == c[..1] && c[..1][..0] == [];
    assert BigEndian(c[..1]) == c[0];
    assert BigEndian(c[..2]) == (c[0] as int) * 0x100 + c[1];
    assert BigEndian(c[..3]) == (c[0] as int) * 0x1_0000 + (c[1] as int) * 0x100 + c[2];
  }

  // ---------------------------------------------------------------------------
  // What each datatype tag decodes to

  /** The `raw` tag hands the payload back unchanged. */
  lemma RawDecoding(data: seq<byte>)
    ensures DataValueOf(RawType, data) == Bytes(data)
  {
  }

  /** The `bool` tag decodes to true exactly when the first byte is 1; anything else, or no byte, is false. */
  lemma BoolDecoding(data: seq<byte>)
    ensures DataValueOf(BoolType, data).Boolean?
    ensures DataValueOf(BoolType, data).b <==> |data| > 0 && data[0] == 1
  {
  }

  /** The `string` tag gives one character per byte, whose code is that byte. */
  lemma StringDecoding(data: seq<byte>)
    ensures DataValueOf(StringType, data).Text?
    ensures |DataValueOf(StringType, data).s| == |data|
    ensures forall i :: 0 <= i < |data| ==> DataValueOf(StringType, data).s[i] as int == data[i]
  {
  }

  /** The `enum` tag gives the first byte, a number in 0..255, and `undefined` for an empty payload. */
  lemma EnumDecoding(data: seq<byte>)
    ensures |data| > 0 ==> DataValueOf(EnumType, data) == Number(data[0])
    ensures |data| > 0 ==> 0 <= DataValueOf(EnumType, data).n <= 255
    ensures |data| == 0 ==> DataValueOf(EnumType, data) == Undefined
  {
  }

  /**
   * The `value` and `bitmap` tags decode alike, to the big-endian value of the
   * payload wrapped to a signed 32-bit integer.
   */
  lemma ValueAndBitmapAgree(data: seq<byte>)
    ensures DataValueOf(ValueType, data) == DataValueOf(BitmapType, data)
    ensures DataValueOf(ValueType, data) == Number(ToInt32(BigEndian(data)))
  {
    MultiByteValueIsWrappedBigEndian(data);
  }
}
