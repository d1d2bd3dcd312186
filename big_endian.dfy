/**
 * Fixed-width big-endian integer fields of a FreeD datagram, with the
 * semantics of Python's `int.from_bytes(b, byteorder='big', signed=...)`
 * and of Python's slicing `data[lo:hi]`, which never fails but is cut
 * short at the end of the buffer.
 */
module BigEndian {

  /** One octet of a datagram, as Python's `bytes` indexing yields it. */
  type byte = b: int | 0 <= b < 0x100

  /** 256 to the power n: one more than the largest n-byte unsigned value. */
  function Pow256(n: nat): (p: nat)
    ensures p >= 1
  {
    if n == 0 then 1 else 0x100 * Pow256(n - 1)
  }

  /** `int.from_bytes(s, 'big', signed=False)`; the empty buffer gives 0. */
  function Unsigned(s: seq<byte>): (v: nat)
    ensures v < Pow256(|s|)
  {
    if s == [] then 0
    else
      var p := Pow256(|s| - 1);
      ScaleBelow(s[0], 0xFF, p);
      (s[0] as int) * p + Unsigned(s[1..])
  }

  /**
   * `int.from_bytes(s, 'big', signed=True)`: two's complement, so the value
   * is the unsigned one less 256^|s| exactly when the top bit of the first
   * byte is set.
   */
  function Signed(s: seq<byte>): (v: int)
    ensures s == [] ==> v == 0
    ensures s != [] ==> -(Pow256(|s|) / 2) <= v < Pow256(|s|) / 2
    ensures v < 0 <==> s != [] && s[0] >= 0x80
  {
    if s == [] then 0
    else
      TopBit(s);
      if s[0] >= 0x80 then Unsigned(s) - Pow256(|s|) else Unsigned(s)
  }

  /** Scaling a smaller factor by the same non-negative amount gives no more. */
  lemma ScaleBelow(a: int, b: int, p: nat)
    requires a <= b
    ensures a * p <= b * p
  {
  }

  /** The first byte alone decides whether the unsigned value reaches half the range. */
  lemma TopBit(s: seq<byte>)
    requires s != []
    ensures Pow256(|s|) / 2 == 0x80 * Pow256(|s| - 1)
    ensures s[0] >= 0x80 <==> Unsigned(s) >= Pow256(|s|) / 2
  {
    var p := Pow256(|s| - 1);
    assert Pow256(|s|) == 0x100 * p;
    assert Unsigned(s) == (s[0] as int) * p + Unsigned(s[1..]);
    if s[0] >= 0x80 {
      ScaleBelow(0x80, s[0], p);
    } else {
      ScaleBelow(s[0], 0x7F, p);
    }
  }

  /** A signed 24-bit value: at least -2^23 and below 2^23. */
  predicate Int24(v: int)
  {
    -0x800000 <= v < 0x800000
  }

  /** FreeD angle units to degrees, `raw / 32768.0 * scale`, as both angle layouts scale them. */
  function Degrees(raw: int, scale: real): (d: real)
    ensures scale > 0.0 ==> (d < 0.0 <==> raw < 0) && (d == 0.0 <==> raw == 0)
    ensures scale > 0.0 && Int24(raw) ==> -256.0 * scale <= d < 256.0 * scale
  {
    var q := raw as real / 32768.0;
    if scale > 0.0 then
      ScaledSign(q, scale);
      q * scale
    else
      q * scale
  }

  /** Scaling by a positive factor keeps the sign and the bounds, both scaled. */
  lemma ScaledSign(q: real, scale: real)
    requires scale > 0.0
    ensures q * scale < 0.0 <==> q < 0.0
    ensures q * scale == 0.0 <==> q == 0.0
    ensures -256.0 <= q < 256.0 ==> -256.0 * scale <= q * scale < 256.0 * scale
  {
    assert (256.0 - q) * scale == 256.0 * scale - q * scale;
    assert (q + 256.0) * scale == q * scale + 256.0 * scale;
  }

  /** Python's `s[lo:hi]` for 0 <= lo <= hi: the bounds are cut back to the length. */
  function Slice(s: seq<byte>, lo: nat, hi: nat): (r: seq<byte>)
    requires lo <= hi
    ensures hi <= |s| ==> r == s[lo..hi]
    ensures |r| == if hi <= |s| then hi - lo else if lo <= |s| then |s| - lo else 0
    ensures forall i :: 0 <= i < |r| ==> r[i] == s[lo + i]
  {
    var a := if lo <= |s| then lo else |s|;
    var b := if hi <= |s| then hi else |s|;
    s[a..b]
  }

  /** The value of a three-byte field, written out by place value. */
  lemma Unsigned24(s: seq<byte>)
    requires |s| == 3
    ensures Unsigned(s) == (s[0] as int) * 0x10000 + (s[1] as int) * 0x100 + s[2]
  {
    assert s[1..][1..] == [s[2]];
    assert Unsigned([s[2]]) == s[2];
  }

  /** A signed 24-bit field is its unsigned value, less 2^24 when bit 23 is set. */
  lemma Signed24(s: seq<byte>)
    requires |s| == 3
    ensures Signed(s) == if Unsigned(s) >= 0x800000 then Unsigned(s) - 0x1000000 else Unsigned(s)
    ensures Int24(Signed(s))
  {
  }

  /** The three big-endian bytes of an unsigned 24-bit value: the inverse of `Unsigned`. */
  function Encode24(v: nat): (s: seq<byte>)
    requires v < 0x1000000
    ensures |s| == 3
  {
    [v / 0x10000, (v / 0x100) % 0x100, v % 0x100]
  }

  /** The three bytes of a signed 24-bit value in two's complement: the inverse of `Signed`. */
  function EncodeSigned24(v: int): (s: seq<byte>)
    requires Int24(v)
    ensures |s| == 3
  {
    Encode24(if v < 0 then v + 0x1000000 else v)
  }

  /** Decoding an encoded unsigned field gives the value back. */
  lemma UnsignedEncode24(v: nat)
    requires v < 0x1000000
    ensures Unsigned(Encode24(v)) == v
  {
    var s := Encode24(v);
    Unsigned24(s);
    var high := v / 0x100;
    DivMod256(high, high / 0x100, high % 0x100);
    DivMod65536(v, high / 0x100, (high % 0x100) * 0x100 + v % 0x100);
  }

  /** Quotient and remainder by 256 are determined by the division equation. */
  lemma DivMod256(v: int, q: int, r: int)
    requires 0 <= r < 0x100 && v == q * 0x100 + r
    ensures v / 0x100 == q && v % 0x100 == r
  {
  }

  /** Quotient and remainder by 65536 are determined by the division equation. */
  lemma DivMod65536(v: int, q: int, r: int)
    requires 0 <= r < 0x10000 && v == q * 0x10000 + r
    ensures v / 0x10000 == q && v % 0x10000 == r
  {
  }

  /** Encoding a decoded three-byte field gives the bytes back. */
  lemma EncodeUnsigned24(s: seq<byte>)
    requires |s| == 3
    ensures Encode24(Unsigned(s)) == s
  {
    Unsigned24(s);
    var v := Unsigned(s);
    var high := (s[0] as int) * 0x100 + s[1];
    DivMod65536(v, s[0], (s[1] as int) * 0x100 + s[2]);
    DivMod256(v, high, s[2]);
    DivMod256(high, s[0], s[1]);
  }

  /** Decoding an encoded signed field gives the value back. */
  lemma SignedEncode24(v: int)
    requires Int24(v)
    ensures Signed(EncodeSigned24(v)) == v
  {
    var u := if v < 0 then v + 0x1000000 else v;
    UnsignedEncode24(u);
    Signed24(EncodeSigned24(v));
  }

  /** Encoding a decoded signed three-byte field gives the bytes back. */
  lemma EncodeSigned24Inverse(s: seq<byte>)
    requires |s| == 3
    ensures Int24(Signed(s))
    ensures EncodeSigned24(Signed(s)) == s
  {
    Signed24(s);
    EncodeUnsigned24(s);
  }
}
