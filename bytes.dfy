/**
 * The byte-level decoders the store file handle applies to metadata values:
 * Java's 64-bit `long`, and the big-endian codecs of HBase's `Bytes` utility.
 *
 * The code of `Bytes.toLong` and `Bytes.toBoolean` is not part of this model. They are
 * modelled under the stated assumption that `toLong` reads the first eight bytes as a
 * two's-complement big-endian number and rejects shorter arrays, and that `toBoolean`
 * rejects any array that is not exactly one byte long and otherwise reads "not zero".
 */
module Bytes {
  import opened Wrappers

  /** One byte, as its unsigned bit pattern. */
  type Byte = b: int | 0 <= b < 256

  const LONG_MIN: int := -0x8000_0000_0000_0000
  const LONG_MAX: int := 0x7fff_ffff_ffff_ffff
  const TWO_TO_64: int := 0x1_0000_0000_0000_0000

  /** Java's `long`. */
  type Long = x: int | -0x8000_0000_0000_0000 <= x <= 0x7fff_ffff_ffff_ffff

  /** `x += 1` on a Java `long`: two's-complement addition, which wraps at the top. */
  function Inc(x: Long): (r: Long)
    ensures (r - x - 1) % TWO_TO_64 == 0
    ensures x < LONG_MAX ==> r > x
  {
    if x == LONG_MAX then LONG_MIN else x + 1
  }

  function Pow256(k: nat): (r: nat)
    ensures r > 0
  {
    if k == 0 then 1 else 256 * Pow256(k - 1)
  }

  lemma Pow256Of8()
    ensures Pow256(8) == TWO_TO_64
  {
    assert Pow256(4) == 0x1_0000_0000;
  }

  /** The unsigned value of a byte string read most significant byte first. */
  function BigEndian(b: seq<Byte>): (r: nat)
    ensures r < Pow256(|b|)
  {
    if |b| == 0 then 0 else BigEndian(b[..|b| - 1]) * 256 + b[|b| - 1]
  }

  /** The `k` low-order bytes of `n`, most significant first. */
  function ToBigEndian(n: nat, k: nat): (r: seq<Byte>)
    ensures |r| == k
  {
    if k == 0 then [] else ToBigEndian(n / 256, k - 1) + [n % 256]
  }

  /** Writing `n` on `k` bytes and reading it back gives `n` whenever it fits. */
  lemma {:induction false} BigEndianRoundTrip(n: nat, k: nat)
    requires n < Pow256(k)
    ensures BigEndian(ToBigEndian(n, k)) == n
  {
    if k > 0 {
      var init := ToBigEndian(n / 256, k - 1);
      var b := init + [n % 256];
      assert b[..|b| - 1] == init;
      BigEndianRoundTrip(n / 256, k - 1);
    }
  }

  /** `Bytes.toLong(byte[])`: None stands for the IllegalArgumentException on a short array. */
  function ToLong(b: seq<Byte>): (r: Option<Long>)
    ensures r.Some? <==> |b| >= 8
  {
    if |b| < 8 then None
    else
      Pow256Of8();
      var u := BigEndian(b[..8]);
      Some(if u > LONG_MAX then u - TWO_TO_64 else u)
  }

  /** `Bytes.toBytes(long)`: eight bytes, most significant first. */
  function FromLong(x: Long): (r: seq<Byte>)
    ensures |r| == 8
  {
    ToBigEndian(if x < 0 then x + TWO_TO_64 else x, 8)
  }

  /** Every long survives encoding and decoding unchanged. */
  lemma LongRoundTrip(x: Long)
    ensures ToLong(FromLong(x)) == Some(x)
  {
    Pow256Of8();
    var u := if x < 0 then x + TWO_TO_64 else x;
    BigEndianRoundTrip(u, 8);
    assert FromLong(x)[..8] == FromLong(x);
  }

  /** `Bytes.toBoolean(byte[])`: None stands for the IllegalArgumentException on a wrong size. */
  function ToBoolean(b: seq<Byte>): (r: Option<bool>)
    ensures r.Some? <==> |b| == 1
    ensures r == Some(true) <==> |b| == 1 && b[0] != 0
  {
    if |b| != 1 then None else Some(b[0] != 0)
  }

  /** `Bytes.toBytes(boolean)`: one byte, all ones for true. */
  function FromBoolean(v: bool): (r: seq<Byte>)
    ensures |r| == 1
  {
    [if v then 255 else 0]
  }

  lemma BooleanRoundTrip(v: bool)
    ensures ToBoolean(FromBoolean(v)) == Some(v)
  {
  }
}
