/** Bytes, and the little-endian 32-bit integer layout used whenever an
    `Int32Array` is viewed as a `Uint8Array` (the stride arrays handed to the
    Transform kernel) or a byte range is viewed as an `Int32Array` (reading an
    int32 tensor back). */
module ByteEncoding {
  import opened JsSemantics

  newtype byte = x: int | 0 <= x < 256

  /** The four little-endian bytes of `ToInt32(x)`. */
  function Int32ToBytes(x: int): (b: seq<byte>)
    ensures |b| == 4
  {
    var u := x % TwoTo32;
    [(u % 256) as byte, ((u / 256) % 256) as byte,
     ((u / 65536) % 256) as byte, (u / 16777216) as byte]
  }

  /** The signed 32-bit integer whose little-endian bytes are `b`. */
  function BytesToInt32(b: seq<byte>): (x: int)
    requires |b| == 4
    ensures -TwoTo31 <= x < TwoTo31
  {
    var u := b[0] as int + 256 * b[1] as int + 65536 * b[2] as int + 16777216 * b[3] as int;
    if u >= TwoTo31 then u - TwoTo32 else u
  }

  /** Splitting a number below 2^32 into base-256 digits and joining them
      gives the number back. */
  lemma DigitsRecompose(u: int)
    requires 0 <= u < TwoTo32
    ensures (u % 256) + 256 * ((u / 256) % 256) + 65536 * ((u / 65536) % 256)
            + 16777216 * (u / 16777216) == u
  {
    var u1 := u / 256;
    var u2 := u1 / 256;
    assert u == 256 * u1 + u % 256;
    assert u1 == 256 * u2 + u1 % 256;
    assert u / 65536 == u2;
    assert u2 == 256 * (u2 / 256) + u2 % 256;
    assert u / 16777216 == u2 / 256;
  }

  /** Decoding the encoding of `x` yields `x` wrapped to 32 bits. */
  lemma Int32RoundTrip(x: int)
    ensures BytesToInt32(Int32ToBytes(x)) == ToInt32(x)
  {
    DigitsRecompose(x % TwoTo32);
  }

  /** The bytes of an `Int32Array` holding `xs`. */
  function Int32sToBytes(xs: seq<int>): (b: seq<byte>)
    ensures |b| == 4 * |xs|
  {
    if xs == [] then [] else Int32ToBytes(xs[0]) + Int32sToBytes(xs[1..])
  }

  /** The elements of an `Int32Array` viewing the bytes `b`. */
  function BytesToInt32s(b: seq<byte>): (xs: seq<int>)
    requires |b| % 4 == 0
    ensures |xs| == |b| / 4
    ensures forall i :: 0 <= i < |xs| ==> -TwoTo31 <= xs[i] < TwoTo31
  {
    if b == [] then [] else [BytesToInt32(b[..4])] + BytesToInt32s(b[4..])
  }

  /** Storing integers into an `Int32Array` and reading them back yields each
      value wrapped to 32 bits. */
  lemma {:induction false} Int32sRoundTrip(xs: seq<int>)
    ensures |BytesToInt32s(Int32sToBytes(xs))| == |xs|
    ensures forall i :: 0 <= i < |xs| ==> BytesToInt32s(Int32sToBytes(xs))[i] == ToInt32(xs[i])
  {
    if xs != [] {
      var b := Int32sToBytes(xs);
      assert b[..4] == Int32ToBytes(xs[0]);
      assert b[4..] == Int32sToBytes(xs[1..]);
      Int32RoundTrip(xs[0]);
      Int32sRoundTrip(xs[1..]);
    }
  }

  /** For values already in the 32-bit range the round trip is exact. */
  lemma Int32sRoundTripExact(xs: seq<int>)
    requires forall i :: 0 <= i < |xs| ==> -TwoTo31 <= xs[i] < TwoTo31
    ensures BytesToInt32s(Int32sToBytes(xs)) == xs
  {
    Int32sRoundTrip(xs);
    forall i | 0 <= i < |xs| ensures BytesToInt32s(Int32sToBytes(xs))[i] == xs[i] {
      ToInt32Identity(xs[i]);
    }
  }

  /** Viewing four bytes as an int32 and storing it back reproduces them. */
  lemma BytesInt32RoundTrip(b: seq<byte>)
    requires |b| == 4
    ensures Int32ToBytes(BytesToInt32(b)) == b
  {
    var b0, b1, b2, b3 := b[0] as int, b[1] as int, b[2] as int, b[3] as int;
    var k2 := b2 + 256 * b3;
    var k1 := b1 + 256 * k2;
    var u := b0 + 256 * k1;
    assert u == b0 + 256 * b1 + 65536 * b2 + 16777216 * b3;
    assert 0 <= u < TwoTo32;
    assert BytesToInt32(b) % TwoTo32 == u;
    assert u % 256 == b0 && u / 256 == k1;
    assert k1 % 256 == b1 && k1 / 256 == k2;
    assert u / 65536 == k2 by {
      assert u == 65536 * k2 + (b0 + 256 * b1);
    }
    assert k2 % 256 == b2 && k2 / 256 == b3;
    assert u / 16777216 == b3 by {
      assert u == 16777216 * b3 + (b0 + 256 * b1 + 65536 * b2);
    }
    var r := Int32ToBytes(BytesToInt32(b));
    assert r[0] == b[0] && r[1] == b[1] && r[2] == b[2] && r[3] == b[3];
  }

  /** Viewing bytes as an `Int32Array` and storing the elements back
      reproduces the bytes. */
  lemma {:induction false} Int32sBytesRoundTrip(b: seq<byte>)
    requires |b| % 4 == 0
    ensures Int32sToBytes(BytesToInt32s(b)) == b
  {
    if b != [] {
      BytesInt32RoundTrip(b[..4]);
      Int32sBytesRoundTrip(b[4..]);
      assert b == b[..4] + b[4..];
    }
  }
}
