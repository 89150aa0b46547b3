/** Byte buffers as Node's `Buffer` treats them: unsigned big-endian integers
    (`readUIntBE`, `writeUIntBE`) and `slice` with its index rules. */
module Bytes {

  type Byte = x: int | 0 <= x < 256

  function Pow256(k: nat): (r: nat)
    ensures r >= 1
  {
    if k == 0 then 1 else 256 * Pow256(k - 1)
  }

  /** The unsigned big-endian value of a byte sequence. */
  function BigEndian(bs: seq<Byte>): nat {
    if bs == [] then 0 else BigEndian(bs[..|bs| - 1]) * 256 + bs[|bs| - 1]
  }

  /** The `width`-byte big-endian encoding of `n`. */
  function ToBigEndian(n: nat, width: nat): (r: seq<Byte>)
    requires n < Pow256(width)
    ensures |r| == width
    decreases width
  {
    if width == 0 then [] else ToBigEndian(n / 256, width - 1) + [n % 256]
  }

  /** A big-endian value of `k` bytes is below 256^k. */
  lemma {:induction false} BigEndianBound(bs: seq<Byte>)
    ensures BigEndian(bs) < Pow256(|bs|)
    decreases |bs|
  {
    if bs != [] {
      BigEndianBound(bs[..|bs| - 1]);
    }
  }

  /** Decoding an encoding gives the number back. */
  lemma {:induction false} BigEndianRoundTrip(n: nat, width: nat)
    requires n < Pow256(width)
    ensures BigEndian(ToBigEndian(n, width)) == n
    decreases width
  {
    if width > 0 {
      BigEndianRoundTrip(n / 256, width - 1);
      var r := ToBigEndian(n, width);
      assert r[..|r| - 1] == ToBigEndian(n / 256, width - 1);
    }
  }

  /** Encoding the value of a byte sequence gives the sequence back. */
  lemma {:induction false} ToBigEndianRoundTrip(bs: seq<Byte>)
    ensures BigEndian(bs) < Pow256(|bs|)
    ensures ToBigEndian(BigEndian(bs), |bs|) == bs
    decreases |bs|
  {
    BigEndianBound(bs);
    if bs != [] {
      var init := bs[..|bs| - 1];
      ToBigEndianRoundTrip(init);
      assert init + [bs[|bs| - 1]] == bs;
    }
  }

  /** Where `slice` starts or ends for index `i` in a buffer of `len` bytes:
      a negative index counts back from the end, and either kind is clamped
      to `[0, len]`. */
  function SliceIndex(i: int, len: nat): (r: nat)
    ensures r <= len
  {
    if i < 0 then (if len + i < 0 then 0 else len + i)
    else if i > len then len else i
  }

  /** `buf.slice(start, end)`: empty when the end falls before the start. */
  function Slice(buf: seq<Byte>, start: int, end: int): (r: seq<Byte>)
    ensures |r| <= |buf|
  {
    var a, b := SliceIndex(start, |buf|), SliceIndex(end, |buf|);
    if a <= b then buf[a..b] else []
  }
}
