/** The canonical payload envelope: written and parsed in TypeScript
    (packages/tlock/src/payload.ts) and parsed a second time on chain
    (contracts/round/src/payload.rs).

    Layout: magic(4) | version(1) | flags(1) | reserved(2) | amount(16) | nonce(32) |
    payload_len(4) | payload(N), all integers big-endian. */
module Envelope {
  import opened Base
  import opened TwosComplement

  const MAGIC: Bytes := [0x53, 0x52, 0x50, 0x00]
  const VERSION_OFFSET := 4
  const FLAGS_OFFSET := 5
  const RESERVED_OFFSET := 6
  const AMOUNT_OFFSET := 8
  const NONCE_OFFSET := 24
  const LENGTH_OFFSET := 56
  const ENVELOPE_VERSION: byte := 1
  const HEADER_BYTES := 60
  const MAX_PAYLOAD_BYTES := 2048
  const MAX_ENVELOPE_BYTES := HEADER_BYTES + MAX_PAYLOAD_BYTES

  datatype PayloadEnvelope = PayloadEnvelope(amount: Option<int>, nonce: Bytes, payload: Bytes)

  datatype DecodeError =
    | TooShort | BadMagic | BadVersion | BadFlags | BadReserved
    | PayloadTooLong | LengthMismatch | NonZeroAmount

  /** What `assertEnvelopeInput` accepts. */
  predicate Legal(e: PayloadEnvelope) {
    && |e.nonce| == NONCE_BYTES
    && |e.payload| <= MAX_PAYLOAD_BYTES
    && (e.amount.Some? ==> InI128(e.amount.value))
  }

  function Zeros(n: nat): (b: Bytes)
    ensures |b| == n
  {
    seq(n, _ => 0)
  }

  lemma ZerosSplit(m: nat, n: nat)
    ensures Zeros(m + n) == Zeros(m) + Zeros(n)
  {
  }

  /** Magic, version, flags and the two reserved bytes. */
  function Head(hasAmount: bool): (b: Bytes)
    ensures |b| == AMOUNT_OFFSET
  {
    MAGIC + [ENVELOPE_VERSION, if hasAmount then 1 else 0, 0, 0]
  }

  function AmountField(amount: Option<int>): (b: Bytes)
    ensures |b| == VALUE_BYTES
  {
    if amount.Some? then EncodeI128(amount.value) else Zeros(VALUE_BYTES)
  }

  /** The canonical bytes of an envelope, field after field. */
  function Encoded(e: PayloadEnvelope): Bytes {
    Head(e.amount.Some?) + AmountField(e.amount) + e.nonce + BigEndian(|e.payload|, 4) + e.payload
  }

  /** `out.set`, when the buffer reads head, gap, rest. */
  method Place(out: array<byte>, src: Bytes, offset: nat, ghost head: Bytes, ghost gap: Bytes, ghost rest: Bytes)
    requires out[..] == head + gap + rest && offset == |head| && |src| == |gap|
    modifies out
    ensures out[..] == head + src + rest
  {
    ghost var was := out[..];
    SetAt(out, src, offset);
    assert was[..offset] == head && was[offset + |src|..] == rest;
  }

  method PutHead(out: array<byte>, hasAmount: bool)
    requires out.Length >= HEADER_BYTES && out[..] == Zeros(out.Length)
    modifies out
    ensures out[..] == Head(hasAmount) + Zeros(out.Length - AMOUNT_OFFSET)
  {
    ghost var n := out.Length - AMOUNT_OFFSET;
    ZerosSplit(AMOUNT_OFFSET, n);
    ZerosSplit(4, 4);
    Place(out, MAGIC, 0, [], Zeros(4), Zeros(4) + Zeros(n));
    out[VERSION_OFFSET] := ENVELOPE_VERSION;
    out[FLAGS_OFFSET] := if !hasAmount then 0 else 1;
    assert out[..] == MAGIC + [ENVELOPE_VERSION, if hasAmount then 1 else 0, 0, 0] + Zeros(n);
  }

  /** `encodePayloadEnvelope`: one zeroed buffer, filled in place field by field. */
  method EncodePayloadEnvelope(e: PayloadEnvelope) returns (r: Result<Bytes, ()>)
    ensures r == if Legal(e) then Ok(Encoded(e)) else Err(())
  {
    // assertEnvelopeInput
    if |e.nonce| != NONCE_BYTES || |e.payload| > MAX_PAYLOAD_BYTES {
      return Err(());
    }
    if e.amount.Some? {
      var probe := I128ToBeBytes(e.amount.value);
      if probe.Err? {
        return Err(());
      }
    }
    var n := |e.payload|;
    var out := new byte[HEADER_BYTES + n](_ => 0);
    PutHead(out, e.amount.Some?);
    ghost var head := Head(e.amount.Some?);
    ZerosSplit(VALUE_BYTES, NONCE_BYTES + 4 + n);
    if e.amount.Some? {
      var amount := I128ToBeBytes(e.amount.value);
      Place(out, amount.value, AMOUNT_OFFSET, head, Zeros(VALUE_BYTES), Zeros(NONCE_BYTES + 4 + n));
    }
    head := head + AmountField(e.amount);
    ZerosSplit(NONCE_BYTES, 4 + n);
    Place(out, e.nonce, NONCE_OFFSET, head, Zeros(NONCE_BYTES), Zeros(4 + n));
    head := head + e.nonce;
    ZerosSplit(4, n);
    Place(out, BigEndian(n, 4), LENGTH_OFFSET, head, Zeros(4), Zeros(n));
    head := head + BigEndian(n, 4);
    Place(out, e.payload, HEADER_BYTES, head, Zeros(n), []);
    assert out[..] == Encoded(e);
    r := Ok(out[..]);
  }

  /** `decodePayloadEnvelope`: tests and slices, in the order of the source. A flags byte
      has an unsupported bit exactly when it exceeds 1. */
  function Decode(b: Bytes): Result<PayloadEnvelope, DecodeError> {
    if |b| < HEADER_BYTES then Err(TooShort)
    else if b[..4] != MAGIC then Err(BadMagic)
    else if b[VERSION_OFFSET] != ENVELOPE_VERSION then Err(BadVersion)
    else if b[FLAGS_OFFSET] / 2 != 0 then Err(BadFlags)
    else if b[RESERVED_OFFSET] != 0 || b[RESERVED_OFFSET + 1] != 0 then Err(BadReserved)
    else
      var payloadLength := Number(b[LENGTH_OFFSET..HEADER_BYTES]);
      if payloadLength > MAX_PAYLOAD_BYTES then Err(PayloadTooLong)
      else if |b| != HEADER_BYTES + payloadLength then Err(LengthMismatch)
      else
        var amountBytes := b[AMOUNT_OFFSET..NONCE_OFFSET];
        var hasAmount := b[FLAGS_OFFSET] % 2 != 0;
        if !hasAmount && exists k :: 0 <= k < VALUE_BYTES && amountBytes[k] != 0 then Err(NonZeroAmount)
        else Ok(PayloadEnvelope(if hasAmount then Some(DecodeI128(amountBytes)) else None,
                                b[NONCE_OFFSET..LENGTH_OFFSET], b[HEADER_BYTES..]))
  }

  /** Decoding inverts encoding on every legal envelope ... */
  lemma DecodeInvertsEncode(e: PayloadEnvelope)
    requires Legal(e)
    ensures Decode(Encoded(e)) == Ok(e)
  {
    var b := Encoded(e);
    EncodedFields(e);
    Widths();
    NumberOfBigEndian(|e.payload|, 4);
    if e.amount.Some? {
      DecodeOfEncode(e.amount.value);
    }
  }

  lemma EncodedFields(e: PayloadEnvelope)
    requires Legal(e)
    ensures var b := Encoded(e);
            && |b| == HEADER_BYTES + |e.payload|
            && b[..4] == MAGIC && b[VERSION_OFFSET] == ENVELOPE_VERSION
            && b[FLAGS_OFFSET] == (if e.amount.Some? then 1 else 0)
            && b[RESERVED_OFFSET] == 0 && b[RESERVED_OFFSET + 1] == 0
            && b[AMOUNT_OFFSET..NONCE_OFFSET] == AmountField(e.amount)
            && b[NONCE_OFFSET..LENGTH_OFFSET] == e.nonce
            && b[LENGTH_OFFSET..HEADER_BYTES] == BigEndian(|e.payload|, 4)
            && b[HEADER_BYTES..] == e.payload
  {
  }

  /** ... and encoding inverts decoding on every accepted byte string, so an envelope has
      exactly one encoding. */
  lemma EncodeInvertsDecode(b: Bytes)
    requires Decode(b).Ok?
    ensures Legal(Decode(b).value) && Encoded(Decode(b).value) == b
  {
    var e := Decode(b).value;
    var amountBytes, lengthBytes := b[AMOUNT_OFFSET..NONCE_OFFSET], b[LENGTH_OFFSET..HEADER_BYTES];
    FieldsOfDecoded(b);
    BigEndianOfNumber(lengthBytes);
    hide Number, BigEndian, EncodeI128, DecodeI128, Decode, AmountField;
    assert b[..AMOUNT_OFFSET] == MAGIC + [b[4], b[5], b[6], b[7]];
    assert b == b[..AMOUNT_OFFSET] + amountBytes + e.nonce + lengthBytes + e.payload;
  }

  lemma FieldsOfDecoded(b: Bytes)
    requires Decode(b).Ok?
    ensures var e := Decode(b).value;
            && Legal(e) && |b| == HEADER_BYTES + |e.payload|
            && b[..4] == MAGIC && b[4] == ENVELOPE_VERSION && b[5] == (if e.amount.Some? then 1 else 0)
            && b[6] == b[7] == 0
            && b[AMOUNT_OFFSET..NONCE_OFFSET] == AmountField(e.amount)
            && b[NONCE_OFFSET..LENGTH_OFFSET] == e.nonce
            && Number(b[LENGTH_OFFSET..HEADER_BYTES]) == |e.payload|
            && b[HEADER_BYTES..] == e.payload
  {
    hide Number, BigEndian, EncodeI128, DecodeI128;
    var amountBytes := b[AMOUNT_OFFSET..NONCE_OFFSET];
    if b[FLAGS_OFFSET] % 2 != 0 {
      EncodeOfDecode(amountBytes);
    } else {
      assert amountBytes == Zeros(VALUE_BYTES);
    }
  }

  lemma NoTwoEncodings(a: Bytes, b: Bytes)
    requires Decode(a).Ok? && Decode(a) == Decode(b)
    ensures a == b
  {
    EncodeInvertsDecode(a);
    EncodeInvertsDecode(b);
  }

  // ---- The on-chain parser ----

  datatype PayloadError = MalformedPayload | UnsupportedVersion

  /** What the off-chain decoder's verdict becomes on chain: the same byte strings are
      accepted with the same amount; a foreign version is told apart from the other faults
      unless the length bound, which the on-chain parser tests first, already failed. */
  function OnChain(b: Bytes): Result<Option<int>, PayloadError> {
    match Decode(b)
    case Ok(e) => Ok(e.amount)
    case Err(BadVersion) => Err(if |b| > MAX_ENVELOPE_BYTES then MalformedPayload else UnsupportedVersion)
    case Err(_) => Err(MalformedPayload)
  }

  /** A foreign version is reported as such exactly for byte strings of admissible length that
      start with the magic bytes; everything else that is not accepted is malformed. */
  lemma ForeignVersion(b: Bytes)
    ensures OnChain(b) == Err(UnsupportedVersion) <==>
              HEADER_BYTES <= |b| <= MAX_ENVELOPE_BYTES && b[..4] == MAGIC && b[VERSION_OFFSET] != ENVELOPE_VERSION
  {
    hide Number, DecodeI128;
  }

  /** `decode_envelope`, the on-chain parser, agrees with the off-chain decoder on every
      byte string. All lengths and sums stay within u32, as the typed locals require. */
  method DecodeEnvelope(bytes: Bytes) returns (r: Result<Option<int>, PayloadError>)
    requires |bytes| <= U32_MAX
    ensures r == OnChain(bytes)
  {
    if |bytes| < HEADER_BYTES || |bytes| > MAX_ENVELOPE_BYTES {
      return Err(MalformedPayload);
    }
    for i := 0 to 4
      invariant bytes[..i] == MAGIC[..i]
    {
      assert bytes[..i + 1] == bytes[..i] + [bytes[i]] && MAGIC[..i + 1] == MAGIC[..i] + [MAGIC[i]];
      if bytes[i] != MAGIC[i] {
        assert bytes[..4][i] != MAGIC[i];
        return Err(MalformedPayload);
      }
    }
    if bytes[VERSION_OFFSET] != ENVELOPE_VERSION {
      return Err(UnsupportedVersion);
    }
    var flags := bytes[FLAGS_OFFSET];
    if flags / 2 != 0 {
      return Err(MalformedPayload);
    }
    if bytes[RESERVED_OFFSET] != 0 || bytes[RESERVED_OFFSET + 1] != 0 {
      return Err(MalformedPayload);
    }
    Widths();
    var payloadLen: U32 := Number(bytes[LENGTH_OFFSET..HEADER_BYTES]);
    if payloadLen > MAX_PAYLOAD_BYTES {
      return Err(MalformedPayload);
    }
    var declared: U32 := HEADER_BYTES + payloadLen;
    if |bytes| != declared {
      return Err(MalformedPayload);
    }
    var hasAmount := flags % 2 != 0;
    var amountBytes := new byte[VALUE_BYTES](_ => 0);
    for i := 0 to VALUE_BYTES
      invariant amountBytes[..i] == bytes[AMOUNT_OFFSET..AMOUNT_OFFSET + i]
    {
      amountBytes[i] := bytes[AMOUNT_OFFSET + i];
    }
    assert amountBytes[..] == bytes[AMOUNT_OFFSET..NONCE_OFFSET];
    var anyNonZero := false;
    for i := 0 to VALUE_BYTES
      invariant anyNonZero <==> exists k :: 0 <= k < i && bytes[AMOUNT_OFFSET..NONCE_OFFSET][k] != 0
    {
      if amountBytes[i] != 0 {
        assert bytes[AMOUNT_OFFSET..NONCE_OFFSET][i] != 0;
        anyNonZero := true;
      }
    }
    if !hasAmount && anyNonZero {
      return Err(MalformedPayload);
    }
    r := Ok(if hasAmount then Some(DecodeI128(amountBytes[..])) else None);
  }

  /** Every envelope the encoder produces is accepted on chain, with the encoded amount. */
  lemma EncodedIsAcceptedOnChain(e: PayloadEnvelope)
    requires Legal(e)
    ensures OnChain(Encoded(e)) == Ok(e.amount)
  {
    DecodeInvertsEncode(e);
  }

  /** Everything accepted on chain is the encoding of a legal envelope with that amount. */
  lemma AcceptedOnChainIsEncoded(b: Bytes)
    requires OnChain(b).Ok?
    ensures exists e :: Legal(e) && Encoded(e) == b && OnChain(b) == Ok(e.amount)
  {
    EncodeInvertsDecode(b);
  }
}
