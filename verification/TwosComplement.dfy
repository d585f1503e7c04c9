/** The 128-bit two's-complement byte loops, and the 48-byte bid preimage built on them
    (packages/tlock/src/commitment.ts). */
module TwosComplement {
  import opened Base

  const VALUE_BYTES := 16
  const NONCE_BYTES := 32
  const PREIMAGE_BYTES := VALUE_BYTES + NONCE_BYTES

  // ---- Unsigned big-endian numbers of any width ----

  function Pow256(n: nat): (p: nat)
    ensures p > 0
  {
    if n == 0 then 1 else 256 * Pow256(n - 1)
  }

  /** The n low-order base-256 digits of u, most significant first. */
  function BigEndian(u: nat, n: nat): (b: Bytes)
    ensures |b| == n
  {
    if n == 0 then [] else BigEndian(u / 256, n - 1) + [u % 256]
  }

  /** The number a big-endian byte string denotes. */
  function Number(b: Bytes): (u: nat)
    ensures u < Pow256(|b|)
  {
    if b == [] then 0 else 256 * Number(b[..|b| - 1]) + b[|b| - 1]
  }

  lemma {:induction false} NumberOfBigEndian(u: nat, n: nat)
    requires u < Pow256(n)
    ensures Number(BigEndian(u, n)) == u
  {
    if n > 0 {
      NumberOfBigEndian(u / 256, n - 1);
      assert BigEndian(u, n)[..n - 1] == BigEndian(u / 256, n - 1);
    }
  }

  lemma {:induction false} BigEndianOfNumber(b: Bytes)
    ensures BigEndian(Number(b), |b|) == b
  {
    if b != [] {
      var front := b[..|b| - 1];
      BigEndianOfNumber(front);
      assert Number(b) / 256 == Number(front) && Number(b) % 256 == b[|b| - 1];
      assert b == front + [b[|b| - 1]];
    }
  }

  lemma {:induction false} BigEndianOfZero(n: nat)
    ensures BigEndian(0, n) == seq(n, _ => 0)
  {
    if n > 0 {
      BigEndianOfZero(n - 1);
    }
  }

  lemma Widths()
    ensures Pow256(4) == 0x1_0000_0000
    ensures Pow256(16) == TWO_128
  {
    assert Pow256(8) == 256 * 256 * 256 * 256 * Pow256(4);
    assert Pow256(12) == 256 * 256 * 256 * 256 * Pow256(8);
    assert Pow256(16) == 256 * 256 * 256 * 256 * Pow256(12);
  }

  // ---- Signed 128-bit values ----

  predicate InI128(v: int) {
    -TWO_127 <= v < TWO_127
  }

  /** Two's complement: reading a signed value modulo 2^128 ... */
  function Wrap(v: int): (u: nat)
    ensures u < TWO_128
  {
    v % TWO_128
  }

  /** ... and back. */
  function Unwrap(u: nat): int {
    if u >= TWO_127 then u - TWO_128 else u
  }

  function EncodeI128(v: int): (b: Bytes)
    ensures |b| == VALUE_BYTES
  {
    BigEndian(Wrap(v), VALUE_BYTES)
  }

  function DecodeI128(b: Bytes): (v: int)
    requires |b| == VALUE_BYTES
    ensures InI128(v)
  {
    Widths();
    Unwrap(Number(b))
  }

  lemma DecodeOfEncode(v: int)
    requires InI128(v)
    ensures DecodeI128(EncodeI128(v)) == v
  {
    Widths();
    NumberOfBigEndian(Wrap(v), VALUE_BYTES);
    assert Wrap(v) == if v < 0 then v + TWO_128 else v;
  }

  lemma EncodeOfDecode(b: Bytes)
    requires |b| == VALUE_BYTES
    ensures EncodeI128(DecodeI128(b)) == b
  {
    Widths();
    BigEndianOfNumber(b);
    WrapOfUnwrap(Number(b));
  }

  lemma WrapOfUnwrap(u: nat)
    requires u < TWO_128
    ensures Wrap(Unwrap(u)) == u
  {
  }

  /** The shifting encoder: sixteen rounds of "take the low byte, shift right by eight". */
  method I128ToBeBytes(value: int) returns (r: Result<Bytes, ()>)
    ensures r == if InI128(value) then Ok(EncodeI128(value)) else Err(())
  {
    if value < -TWO_127 || value > TWO_127 - 1 {
      return Err(());
    }
    var u: nat := value % TWO_128;
    var out := new byte[VALUE_BYTES](_ => 0);
    var i := VALUE_BYTES - 1;
    while i >= 0
      invariant -1 <= i < VALUE_BYTES
      invariant EncodeI128(value) == BigEndian(u, i + 1) + out[i + 1..]
    {
      ghost var rest := out[i + 1..];
      out[i] := u % 256;
      assert out[i..] == [u % 256] + rest;
      u := u / 256;
      i := i - 1;
    }
    assert BigEndian(u, 0) + out[0..] == out[..];
    r := Ok(out[..]);
  }

  /** The folding decoder: "shift left by eight, or in the next byte", then the sign fix. */
  method BeBytesToI128(bytes: Bytes) returns (r: Result<int, ()>)
    ensures r == if |bytes| == VALUE_BYTES then Ok(DecodeI128(bytes)) else Err(())
  {
    if |bytes| != VALUE_BYTES {
      return Err(());
    }
    var u: nat := 0;
    for k := 0 to |bytes|
      invariant u == Number(bytes[..k])
    {
      assert bytes[..k + 1][..k] == bytes[..k];
      u := u * 256 + bytes[k];
    }
    assert bytes[..|bytes|] == bytes;
    r := Ok(if u >= TWO_127 then u - TWO_128 else u);
  }

  // ---- The bid preimage be16(value) || nonce ----

  function Preimage(value: int, nonce: Bytes): Bytes {
    EncodeI128(value) + nonce
  }

  /** `decodeBidPreimage`: the two slices, or an error for any other length. */
  function DecodePreimage(preimage: Bytes): Result<(int, Bytes), ()> {
    if |preimage| != PREIMAGE_BYTES then Err(())
    else Ok((DecodeI128(preimage[..VALUE_BYTES]), preimage[VALUE_BYTES..]))
  }

  /** `encodeBidPreimage` writes both parts into one zeroed buffer. */
  method EncodeBidPreimage(value: int, nonce: Bytes) returns (r: Result<Bytes, ()>)
    ensures r == if |nonce| == NONCE_BYTES && InI128(value) then Ok(Preimage(value, nonce)) else Err(())
  {
    if |nonce| != NONCE_BYTES {
      return Err(());
    }
    var out := new byte[PREIMAGE_BYTES](_ => 0);
    var encoded := I128ToBeBytes(value);
    if encoded.Err? {
      return Err(());
    }
    SetAt(out, encoded.value, 0);
    SetAt(out, nonce, VALUE_BYTES);
    assert out[..] == Preimage(value, nonce);
    r := Ok(out[..]);
  }

  /** `Uint8Array.set`: overwrite a stretch of a buffer in place. */
  method SetAt(out: array<byte>, src: Bytes, offset: nat)
    requires offset + |src| <= out.Length
    modifies out
    ensures out[..] == old(out[..offset]) + src + old(out[offset + |src|..])
  {
    for i := 0 to |src|
      invariant forall k :: 0 <= k < out.Length ==>
          out[k] == if offset <= k < offset + i then src[k - offset] else old(out[k])
    {
      out[offset + i] := src[i];
    }
  }

  lemma PreimageRoundTrip(value: int, nonce: Bytes)
    requires InI128(value) && |nonce| == NONCE_BYTES
    ensures DecodePreimage(Preimage(value, nonce)) == Ok((value, nonce))
  {
    DecodeOfEncode(value);
    var p := Preimage(value, nonce);
    assert p[..VALUE_BYTES] == EncodeI128(value) && p[VALUE_BYTES..] == nonce;
  }

  /** Every 48-byte string is the preimage of exactly one (value, nonce) pair. */
  lemma PreimageIsOnto(preimage: Bytes)
    requires |preimage| == PREIMAGE_BYTES
    ensures var d := DecodePreimage(preimage);
            d.Ok? && InI128(d.value.0) && |d.value.1| == NONCE_BYTES && Preimage(d.value.0, d.value.1) == preimage
  {
    EncodeOfDecode(preimage[..VALUE_BYTES]);
    assert preimage == preimage[..VALUE_BYTES] + preimage[VALUE_BYTES..];
  }
}
