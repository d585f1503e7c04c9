/** Small vocabulary shared by every other module: optional values, results, the
    machine integers of the source, byte strings, and lists without repeats. */
module Base {

  datatype Option<+T> = None | Some(value: T)

  datatype Result<+T, +E> = Ok(value: T) | Err(error: E)

  const U32_MAX := 0xFFFF_FFFF
  const U64_MAX := 0xFFFF_FFFF_FFFF_FFFF
  const TWO_127 := 0x8000_0000_0000_0000_0000_0000_0000_0000
  const TWO_128 := 0x1_0000_0000_0000_0000_0000_0000_0000_0000

  type U32 = n: int | 0 <= n <= U32_MAX
  type U64 = n: int | 0 <= n <= U64_MAX
  type I128 = n: int | -TWO_127 <= n < TWO_127

  type byte = n: int | 0 <= n < 256
  type Bytes = seq<byte>

  /** Rust's `BytesN<32>`. */
  type Digest = b: Bytes | |b| == 32 witness ZeroDigest()

  function ZeroDigest(): (b: Bytes)
    ensures |b| == 32
  {
    seq(32, _ => 0)
  }

  /** Rust's `u64::saturating_add`. */
  function SatAdd(x: U64, y: U64): U64 {
    if x + y > U64_MAX then U64_MAX else x + y
  }

  /** Rust's `u64::saturating_sub`. */
  function SatSub(x: U64, y: U64): U64 {
    if x < y then 0 else x - y
  }

  /** Rust's `u64::saturating_mul`. */
  function SatMul(x: U64, y: U64): (r: U64) {
    assert 0 <= x * y;
    if x * y > U64_MAX then U64_MAX else x * y
  }

  predicate NoRepeats<T(==)>(s: seq<T>) {
    forall i, j :: 0 <= i < j < |s| ==> s[i] != s[j]
  }

  lemma NoRepeatsAppend<T>(s: seq<T>, x: T)
    requires NoRepeats(s) && x !in s
    ensures NoRepeats(s + [x])
  {
  }

  /** In a list without repeats an element is not among its predecessors. */
  lemma NotBefore<T>(s: seq<T>, k: nat)
    requires NoRepeats(s) && k < |s|
    ensures s[k] !in s[..k]
  {
  }
}
