/**
 * What travels over the data channel and how the receiving side views it.
 * A binary message is an ArrayBuffer, modelled as its bytes in memory
 * order (little-endian, the same on both ends). `send` has no overload for
 * a number: the number is converted to its string form and arrives as a
 * text message, so `event.data` is then a string, never a number. An Int16Array view reads the bytes in pairs and a Float32Array
 * view in groups of four. A 32-bit float is kept as its four bytes
 * (`Coord`): the face path copies floats without doing arithmetic on them.
 */
module TypedBuffers {
  import opened Wrappers
  import opened JsNumbers

  /** One face-mesh coordinate: the four bytes of a Float32Array element. */
  datatype Coord = Coord(b0: byte, b1: byte, b2: byte, b3: byte)

  /** `event.data` of a data-channel message: the bytes of an ArrayBuffer,
      or the text `String(n)` of a number `n` given to `send`. The string
      form itself is not modelled; what matters is that reading it back as
      a number (`ToNumber`) gives `n`. */
  datatype Payload = Bytes(data: seq<byte>) | NumberText(n: Num)

  /** What `send(0)`, the "no face this cycle" marker, delivers: the string "0". */
  const Zero: Payload := NumberText(Finite(0.0))

  function LowByte(x: int16): byte
  {
    ((x as int % 0x10000) % 0x100) as byte
  }

  function HighByte(x: int16): byte
  {
    ((x as int % 0x10000) / 0x100) as byte
  }

  /** The int16 that two bytes of an Int16Array hold, low byte first. */
  function FromBytes(lo: byte, hi: byte): int16
  {
    Wrap16(lo as int + 0x100 * hi as int)
  }

  lemma BytesRoundTrip(x: int16)
    ensures FromBytes(LowByte(x), HighByte(x)) == x
  {
  }

  lemma BytesRoundTripBack(lo: byte, hi: byte)
    ensures LowByte(FromBytes(lo, hi)) == lo && HighByte(FromBytes(lo, hi)) == hi
  {
    var t := lo as int + 0x100 * hi as int;
    assert 0 <= t < 0x10000;
    assert FromBytes(lo, hi) as int % 0x10000 == t;
    assert t % 0x100 == lo as int && t / 0x100 == hi as int;
  }

  /** `a.buffer` of an Int16Array `a`. */
  function Int16Buffer(s: seq<int16>): (b: seq<byte>)
    ensures |b| == 2 * |s|
  {
    seq(2 * |s|, k requires 0 <= k < 2 * |s| =>
      if k % 2 == 0 then LowByte(s[k / 2]) else HighByte(s[k / 2]))
  }

  /** `a.buffer` of a Float32Array `a`. */
  function Float32Buffer(cs: seq<Coord>): (b: seq<byte>)
    ensures |b| == 4 * |cs|
  {
    seq(4 * |cs|, k requires 0 <= k < 4 * |cs| => CoordByte(cs[k / 4], k % 4))
  }

  function CoordByte(c: Coord, j: nat): byte
    requires j < 4
  {
    if j == 0 then c.b0 else if j == 1 then c.b1 else if j == 2 then c.b2 else c.b3
  }

  /** `new Int16Array(p)`: over a buffer, its bytes in pairs (a RangeError when
      the length is odd); over a string, which is not an object, the number
      it spells is taken as a length, and the array holds that many zeros. */
  function Int16View(p: Payload): Result<seq<int16>, JsError>
  {
    match p
    case Bytes(b) =>
      if |b| % 2 != 0 then Err(RangeError)
      else Ok(seq(|b| / 2, i requires 0 <= i < |b| / 2 => FromBytes(b[2 * i], b[2 * i + 1])))
    case NumberText(n) =>
      match ToIndex(n)
      case Ok(len) => Ok(seq(len, i => 0 as int16))
      case Err(e) => Err(e)
  }

  /** `new Float32Array(p)`: over a buffer, its bytes in groups of four (a
      RangeError when the length is not a multiple of four); over a string,
      as many zero floats as the number it spells. */
  function Float32View(p: Payload): Result<seq<Coord>, JsError>
  {
    match p
    case Bytes(b) =>
      if |b| % 4 != 0 then Err(RangeError)
      else Ok(seq(|b| / 4, i requires 0 <= i < |b| / 4 =>
        Coord(b[4 * i], b[4 * i + 1], b[4 * i + 2], b[4 * i + 3])))
    case NumberText(n) =>
      match ToIndex(n)
      case Ok(len) => Ok(seq(len, i => Coord(0, 0, 0, 0)))
      case Err(e) => Err(e)
  }

  /** When `new Int16Array(p)` throws and what it yields otherwise. */
  lemma Int16ViewShape(p: Payload)
    ensures var r := Int16View(p);
            && (p.Bytes? ==> (r.Ok? <==> |p.data| % 2 == 0))
            && (p.Bytes? && r.Ok? ==>
                  && |r.value| == |p.data| / 2
                  && forall i :: 0 <= i < |r.value| ==> r.value[i] == FromBytes(p.data[2 * i], p.data[2 * i + 1]))
            && (p.NumberText? ==> (r.Ok? <==> ToIndex(p.n).Ok?))
            && (p.NumberText? && r.Ok? ==>
                  && |r.value| == ToIndex(p.n).value
                  && forall i :: 0 <= i < |r.value| ==> r.value[i] == 0)
  {
  }

  /** When `new Float32Array(p)` throws and what it yields otherwise. */
  lemma Float32ViewShape(p: Payload)
    ensures var r := Float32View(p);
            && (p.Bytes? ==> (r.Ok? <==> |p.data| % 4 == 0))
            && (p.Bytes? && r.Ok? ==>
                  && |r.value| == |p.data| / 4
                  && forall i :: 0 <= i < |r.value| ==>
                       r.value[i] == Coord(p.data[4 * i], p.data[4 * i + 1], p.data[4 * i + 2], p.data[4 * i + 3]))
            && (p.NumberText? ==> (r.Ok? <==> ToIndex(p.n).Ok?))
            && (p.NumberText? && r.Ok? ==>
                  && |r.value| == ToIndex(p.n).value
                  && forall i :: 0 <= i < |r.value| ==> r.value[i] == Coord(0, 0, 0, 0))
  {
  }

  /** Viewing the buffer of an Int16Array as an Int16Array gives the same elements. */
  lemma Int16ViewOfBuffer(s: seq<int16>)
    ensures Int16View(Bytes(Int16Buffer(s))) == Ok(s)
  {
    var b := Int16Buffer(s);
    var v := Int16View(Bytes(b)).value;
    forall i | 0 <= i < |s|
      ensures v[i] == s[i]
    {
      assert (2 * i) / 2 == i && (2 * i + 1) / 2 == i && (2 * i + 1) % 2 == 1;
      BytesRoundTrip(s[i]);
    }
    assert v == s;
  }

  /** An even-length buffer is the buffer of its own Int16Array view. */
  lemma BufferOfInt16View(b: seq<byte>)
    requires |b| % 2 == 0
    ensures Int16Buffer(Int16View(Bytes(b)).value) == b
  {
    var v := Int16View(Bytes(b)).value;
    forall k | 0 <= k < |b|
      ensures Int16Buffer(v)[k] == b[k]
    {
      var i := k / 2;
      assert k == 2 * i + k % 2;
      BytesRoundTripBack(b[2 * i], b[2 * i + 1]);
    }
  }

  /** Viewing the buffer of a Float32Array as a Float32Array gives the same elements. */
  lemma Float32ViewOfBuffer(cs: seq<Coord>)
    ensures Float32View(Bytes(Float32Buffer(cs))) == Ok(cs)
  {
    var b := Float32Buffer(cs);
    var v := Float32View(Bytes(b)).value;
    forall i | 0 <= i < |cs|
      ensures v[i] == cs[i]
    {
      assert (4 * i) / 4 == i && (4 * i + 1) / 4 == i && (4 * i + 2) / 4 == i && (4 * i + 3) / 4 == i;
      assert (4 * i) % 4 == 0 && (4 * i + 1) % 4 == 1 && (4 * i + 2) % 4 == 2 && (4 * i + 3) % 4 == 3;
    }
    assert v == cs;
  }

  /** A buffer whose length is a multiple of four is the buffer of its own Float32Array view. */
  lemma BufferOfFloat32View(b: seq<byte>)
    requires |b| % 4 == 0
    ensures Float32Buffer(Float32View(Bytes(b)).value) == b
  {
    var v := Float32View(Bytes(b)).value;
    forall k | 0 <= k < |b|
      ensures Float32Buffer(v)[k] == b[k]
    {
      var i := k / 4;
      assert k == 4 * i + k % 4;
    }
  }
}
