/**
 * Raw binary serialisation of the C++ libraries (binary_io.h) as encode/decode over a byte
 * sequence. A scalar of sizeof(T) == width bytes is its little-endian byte image; a vector or an
 * array is a 64-bit length followed by the images of its elements. A stream being written is the
 * sequence of bytes written so far; a stream being read is the whole input and a read position.
 */
module BinaryIo {
  import opened Wrappers

  type Byte = x: int | 0 <= x < 256

  /** Width of the std::uint64_t length prefix. */
  const LENGTH_WIDTH := 8

  /** Number of distinct values of a width-byte scalar. */
  function Pow256(width: nat): (p: nat)
    ensures p >= 1
    ensures width > 0 ==> p == 2 * (p / 2)
  {
    if width == 0 then 1 else 256 * Pow256(width - 1)
  }

  /** The little-endian image of an unsigned value of width bytes. */
  function EncodeUnsigned(v: nat, width: nat): (bs: seq<Byte>)
    requires v < Pow256(width)
    ensures |bs| == width
  {
    if width == 0 then [] else [v % 256] + EncodeUnsigned(v / 256, width - 1)
  }

  /** The unsigned value of a little-endian image. */
  function DecodeUnsigned(bs: seq<Byte>): (v: nat)
    ensures v < Pow256(|bs|)
  {
    if bs == [] then 0 else bs[0] + 256 * DecodeUnsigned(bs[1..])
  }

  lemma {:induction false} DecodeEncodeUnsigned(v: nat, width: nat)
    requires v < Pow256(width)
    ensures DecodeUnsigned(EncodeUnsigned(v, width)) == v
  {
    if width > 0 {
      var bs := EncodeUnsigned(v, width);
      assert bs[1..] == EncodeUnsigned(v / 256, width - 1);
      DecodeEncodeUnsigned(v / 256, width - 1);
    }
  }

  /** Every byte image is the image of exactly one value: encoding is a bijection. */
  lemma {:induction false} EncodeDecodeUnsigned(bs: seq<Byte>)
    ensures EncodeUnsigned(DecodeUnsigned(bs), |bs|) == bs
  {
    if bs != [] {
      EncodeDecodeUnsigned(bs[1..]);
      var v := DecodeUnsigned(bs);
      assert v % 256 == bs[0] && v / 256 == DecodeUnsigned(bs[1..]);
    }
  }

  /** Half the range of a width-byte scalar: signed values lie in [-Half, Half). */
  function Half(width: nat): int
  {
    Pow256(width) / 2
  }

  /** The two's-complement image of a signed value of width bytes. */
  function EncodeSigned(v: int, width: nat): (bs: seq<Byte>)
    requires -Half(width) <= v < Half(width)
    ensures |bs| == width
  {
    EncodeUnsigned(if v < 0 then v + Pow256(width) else v, width)
  }

  /** The signed value of a two's-complement image. */
  function DecodeSigned(bs: seq<Byte>): (v: int)
    ensures bs == [] ==> v == 0
    ensures bs != [] ==> -Half(|bs|) <= v < Half(|bs|)
  {
    var u := DecodeUnsigned(bs);
    if bs != [] && u >= Half(|bs|) then u - Pow256(|bs|) else u
  }

  /** A signed value in the range of its width survives the round trip. */
  lemma DecodeEncodeSigned(v: int, width: nat)
    requires -Half(width) <= v < Half(width)
    ensures DecodeSigned(EncodeSigned(v, width)) == v
  {
    DecodeEncodeUnsigned(if v < 0 then v + Pow256(width) else v, width);
  }

  /** binary_write of a scalar: the stream grows by the scalar's width bytes. */
  function WriteScalar(stream: seq<Byte>, v: nat, width: nat): (out: seq<Byte>)
    requires v < Pow256(width)
    ensures |out| == |stream| + width && out[..|stream|] == stream
  {
    stream + EncodeUnsigned(v, width)
  }

  /** binary_read of a scalar at position pos: the value and the next position, or an error on a short stream. */
  function ReadScalar(input: seq<Byte>, pos: nat, width: nat): (r: Result<(nat, nat)>)
    ensures r.Ok? <==> pos + width <= |input|
    ensures r.Ok? ==> r.value.0 < Pow256(width) && r.value.1 == pos + width
  {
    if pos + width > |input| then Err("short read")
    else Ok((DecodeUnsigned(input[pos..pos + width]), pos + width))
  }

  /** Reading back what was written gives the value, whatever precedes or follows it. */
  lemma ScalarRoundTrip(stream: seq<Byte>, v: nat, width: nat, rest: seq<Byte>)
    requires v < Pow256(width)
    ensures ReadScalar(WriteScalar(stream, v, width) + rest, |stream|, width) == Ok((v, |stream| + width))
  {
    var input := WriteScalar(stream, v, width) + rest;
    assert input[|stream|..|stream| + width] == EncodeUnsigned(v, width);
    DecodeEncodeUnsigned(v, width);
  }

  /** The elements' images, one after another. */
  function EncodeElements(xs: seq<nat>, width: nat): (bs: seq<Byte>)
    requires forall i :: 0 <= i < |xs| ==> xs[i] < Pow256(width)
    ensures |bs| == |xs| * width
  {
    if xs == [] then [] else EncodeUnsigned(xs[0], width) + EncodeElements(xs[1..], width)
  }

  /** count elements of width bytes each, read from the front of bs. */
  function DecodeElements(bs: seq<Byte>, count: nat, width: nat): (xs: seq<nat>)
    requires |bs| == count * width
    ensures |xs| == count
    ensures forall i :: 0 <= i < count ==> xs[i] < Pow256(width)
  {
    if count == 0 then []
    else [DecodeUnsigned(bs[..width])] + DecodeElements(bs[width..], count - 1, width)
  }

  lemma {:induction false} DecodeEncodeElements(xs: seq<nat>, width: nat)
    requires forall i :: 0 <= i < |xs| ==> xs[i] < Pow256(width)
    ensures DecodeElements(EncodeElements(xs, width), |xs|, width) == xs
  {
    if xs != [] {
      var bs := EncodeElements(xs, width);
      assert bs[..width] == EncodeUnsigned(xs[0], width);
      assert bs[width..] == EncodeElements(xs[1..], width);
      DecodeEncodeUnsigned(xs[0], width);
      DecodeEncodeElements(xs[1..], width);
    }
  }

  /** binary_write of a vector or an array: the 64-bit length, then the elements. */
  function WriteSequence(stream: seq<Byte>, xs: seq<nat>, width: nat): (out: seq<Byte>)
    requires |xs| < Pow256(LENGTH_WIDTH)
    requires forall i :: 0 <= i < |xs| ==> xs[i] < Pow256(width)
    ensures |out| == |stream| + LENGTH_WIDTH + |xs| * width && out[..|stream|] == stream
  {
    WriteScalar(stream, |xs|, LENGTH_WIDTH) + EncodeElements(xs, width)
  }

  /** size elements of width bytes each, read from position start, or an error on a short stream. */
  function ReadElements(input: seq<Byte>, start: nat, size: nat, width: nat): (r: Result<(seq<nat>, nat)>)
    ensures r.Ok? <==> start + size * width <= |input|
    ensures r.Ok? ==> |r.value.0| == size && r.value.1 == start + size * width
  {
    var end := start + size * width;
    if end > |input| then Err("short read")
    else Ok((DecodeElements(input[start..end], size, width), end))
  }

  /**
   * binary_read of a vector: the 64-bit length, then that many elements (the vector is resized
   * to the length read), or an error on a short stream.
   */
  function ReadVector(input: seq<Byte>, pos: nat, width: nat): (r: Result<(seq<nat>, nat)>)
    ensures r.Ok? ==> ReadScalar(input, pos, LENGTH_WIDTH) == Ok((|r.value.0|, pos + LENGTH_WIDTH))
    ensures r.Ok? ==> r.value.1 == pos + LENGTH_WIDTH + |r.value.0| * width <= |input|
  {
    match ReadScalar(input, pos, LENGTH_WIDTH)
    case Err(e) => Err(e)
    case Ok((size, start)) => ReadElements(input, start, size, width)
  }

  /**
   * binary_read of a std::array of n elements: as a vector, except that the length read must be
   * n (an assert in the C++ reader, an error here).
   */
  function ReadArray(input: seq<Byte>, pos: nat, width: nat, n: nat): (r: Result<(seq<nat>, nat)>)
    ensures r.Ok? ==> |r.value.0| == n
    ensures r.Ok? <==> ReadVector(input, pos, width).Ok? && |ReadVector(input, pos, width).value.0| == n
  {
    var v := ReadVector(input, pos, width);
    if v.Err? then v
    else if |v.value.0| != n then Err("length mismatch")
    else v
  }

  /** A written vector is read back element for element, whatever precedes or follows it. */
  lemma VectorRoundTrip(stream: seq<Byte>, xs: seq<nat>, width: nat, rest: seq<Byte>)
    requires |xs| < Pow256(LENGTH_WIDTH)
    requires forall i :: 0 <= i < |xs| ==> xs[i] < Pow256(width)
    ensures ReadVector(WriteSequence(stream, xs, width) + rest, |stream|, width)
      == Ok((xs, |stream| + LENGTH_WIDTH + |xs| * width))
  {
    var elements := EncodeElements(xs, width);
    var input := WriteSequence(stream, xs, width) + rest;
    WriteSequenceSplit(stream, xs, width, rest);
    ScalarRoundTrip(stream, |xs|, LENGTH_WIDTH, elements + rest);
    var start := |stream| + LENGTH_WIDTH;
    var end := start + |elements|;
    assert input[start..end] == elements;
    DecodeEncodeElements(xs, width);
    ReadVectorOk(input, |stream|, width, |xs|, end);
  }

  /** A written sequence followed by more bytes is its length image, its elements, and those bytes. */
  lemma WriteSequenceSplit(stream: seq<Byte>, xs: seq<nat>, width: nat, rest: seq<Byte>)
    requires |xs| < Pow256(LENGTH_WIDTH)
    requires forall i :: 0 <= i < |xs| ==> xs[i] < Pow256(width)
    ensures WriteSequence(stream, xs, width) + rest
      == WriteScalar(stream, |xs|, LENGTH_WIDTH) + (EncodeElements(xs, width) + rest)
  {
  }

  /** ReadVector once the length is read and the elements fit. */
  lemma ReadVectorOk(input: seq<Byte>, pos: nat, width: nat, size: nat, end: nat)
    requires ReadScalar(input, pos, LENGTH_WIDTH) == Ok((size, pos + LENGTH_WIDTH))
    requires end == pos + LENGTH_WIDTH + size * width <= |input|
    ensures ReadVector(input, pos, width) == Ok((DecodeElements(input[pos + LENGTH_WIDTH..end], size, width), end))
  {
  }

  /** A written array is read back when the reader expects its length. */
  lemma ArrayRoundTrip(stream: seq<Byte>, xs: seq<nat>, width: nat, rest: seq<Byte>)
    requires |xs| < Pow256(LENGTH_WIDTH)
    requires forall i :: 0 <= i < |xs| ==> xs[i] < Pow256(width)
    ensures ReadArray(WriteSequence(stream, xs, width) + rest, |stream|, width, |xs|)
      == Ok((xs, |stream| + LENGTH_WIDTH + |xs| * width))
  {
    VectorRoundTrip(stream, xs, width, rest);
  }

  /** An array read with the wrong length fails, as the C++ reader's assert does. */
  lemma ArrayLengthMismatch(stream: seq<Byte>, xs: seq<nat>, width: nat, n: nat)
    requires |xs| < Pow256(LENGTH_WIDTH) && n != |xs|
    requires forall i :: 0 <= i < |xs| ==> xs[i] < Pow256(width)
    ensures ReadArray(WriteSequence(stream, xs, width), |stream|, width, n).Err?
  {
    VectorRoundTrip(stream, xs, width, []);
    assert WriteSequence(stream, xs, width) + [] == WriteSequence(stream, xs, width);
  }

  /** Two scalars written one after the other are read back in the same order. */
  lemma ScalarsInSequence(stream: seq<Byte>, a: nat, wa: nat, b: nat, wb: nat)
    requires a < Pow256(wa) && b < Pow256(wb)
    ensures var out := WriteScalar(WriteScalar(stream, a, wa), b, wb);
      ReadScalar(out, |stream|, wa) == Ok((a, |stream| + wa))
      && ReadScalar(out, |stream| + wa, wb) == Ok((b, |stream| + wa + wb))
  {
    var first := WriteScalar(stream, a, wa);
    ScalarRoundTrip(stream, a, wa, EncodeUnsigned(b, wb));
    assert WriteScalar(first, b, wb) == first + EncodeUnsigned(b, wb);
    ScalarRoundTrip(first, b, wb, []);
    assert WriteScalar(first, b, wb) + [] == WriteScalar(first, b, wb);
  }
}
