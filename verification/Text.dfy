/** The text forms used in receipts: decimal integers (`BigInt.toString` and `decimal` of
    packages/sdk/src/receipt-v2.ts) and hex byte strings (`toHex` and `fromHex` of
    packages/tlock/src/commitment.ts, `isHex` of the verifier). */
module Text {
  import opened Base

  // ---- Decimal integers ----

  const DIGITS := "0123456789"

  predicate IsDigit(c: char) {
    '0' <= c <= '9'
  }

  function DigitValue(c: char): (d: nat)
    requires IsDigit(c)
    ensures d < 10 && DIGITS[d] == c
  {
    match c
    case '0' => 0 case '1' => 1 case '2' => 2 case '3' => 3 case '4' => 4
    case '5' => 5 case '6' => 6 case '7' => 7 case '8' => 8 case _ => 9
  }

  function NatText(n: nat): (s: string)
    ensures s != "" && forall k :: 0 <= k < |s| ==> IsDigit(s[k])
  {
    if n < 10 then [DIGITS[n]] else NatText(n / 10) + [DIGITS[n % 10]]
  }

  /** `BigInt.toString`. */
  function IntText(n: int): string {
    if n < 0 then "-" + NatText(-n) else NatText(n)
  }

  function NatValue(s: string): nat
    requires forall k :: 0 <= k < |s| ==> IsDigit(s[k])
  {
    if s == "" then 0 else 10 * NatValue(s[..|s| - 1]) + DigitValue(s[|s| - 1])
  }

  predicate AllDigits(s: string) {
    s != "" && forall k :: 0 <= k < |s| ==> IsDigit(s[k])
  }

  /** `decimal`: an optional minus sign and at least one digit, read as an integer. */
  function Decimal(s: string): Option<int> {
    if s != "" && s[0] == '-' then
      var magnitude: int := if AllDigits(s[1..]) then NatValue(s[1..]) else 0;
      if AllDigits(s[1..]) then Some(-magnitude) else None
    else if AllDigits(s) then Some(NatValue(s))
    else None
  }

  lemma {:induction false} NatRoundTrip(n: nat)
    ensures NatValue(NatText(n)) == n
  {
    if n < 10 {
      assert NatText(n)[..0] == "";
      DigitsAreDistinct();
    } else {
      NatRoundTrip(n / 10);
      assert NatText(n)[..|NatText(n)| - 1] == NatText(n / 10);
      DigitsAreDistinct();
    }
  }

  lemma DigitsAreDistinct()
    ensures forall d :: 0 <= d < 10 ==> IsDigit(DIGITS[d]) && DigitValue(DIGITS[d]) == d
  {
  }

  /** Every integer survives being written and read back. */
  lemma DecimalRoundTrip(n: int)
    ensures Decimal(IntText(n)) == Some(n)
  {
    hide NatText, NatValue;
    var digits := NatText(if n < 0 then -n else n);
    NatRoundTrip(if n < 0 then -n else n);
    assert digits[0] != '-';
    if n < 0 {
      assert ("-" + digits)[1..] == digits;
    }
  }

  /** Exactly the optional minus sign followed by digits is read as a number. */
  lemma DecimalAccepts(s: string)
    ensures Decimal(s).Some? <==> exists digits :: AllDigits(digits) && (s == digits || s == "-" + digits)
    ensures AllDigits(s) ==> Decimal("-" + s).Some? && Decimal(s).Some? && Decimal("-" + s).value == -Decimal(s).value
  {
    hide NatValue;
    assert ("-" + s)[1..] == s;
    if s != "" && s[0] == '-' {
      assert s == "-" + s[1..];
      forall digits | AllDigits(digits) && s == "-" + digits ensures s[1..] == digits {
      }
    }
  }

  /** Leading zeros do not change the value; with the round trip this fixes the value of every
      digit string. */
  lemma {:induction false} LeadingZero(s: string)
    requires forall k :: 0 <= k < |s| ==> IsDigit(s[k])
    ensures NatValue("0" + s) == NatValue(s)
  {
    var t := "0" + s;
    if s == "" {
      assert t[..0] == "";
    } else {
      assert t[..|t| - 1] == "0" + s[..|s| - 1];
      LeadingZero(s[..|s| - 1]);
    }
  }

  // ---- Hex ----

  const HEX := "0123456789abcdef"

  predicate IsHexChar(c: char) {
    '0' <= c <= '9' || 'a' <= c <= 'f' || 'A' <= c <= 'F'
  }

  function HexValue(c: char): (v: nat)
    requires IsHexChar(c)
    ensures v < 16
  {
    if '0' <= c <= '9' then DigitValue(c)
    else if c == 'a' || c == 'A' then 10
    else if c == 'b' || c == 'B' then 11
    else if c == 'c' || c == 'C' then 12
    else if c == 'd' || c == 'D' then 13
    else if c == 'e' || c == 'E' then 14
    else 15
  }

  function HexChar(v: nat): (c: char)
    requires v < 16
    ensures IsHexChar(c) && HexValue(c) == v && c != 'x' && c != 'X'
  {
    HEX[v]
  }

  /** `toHex`: two lower-case characters a byte. */
  function ToHex(b: Bytes): (s: string)
    ensures |s| == 2 * |b|
  {
    seq(2 * |b|, k requires 0 <= k < 2 * |b| => HexAt(b, k))
  }

  function HexAt(b: Bytes, k: nat): char
    requires k < 2 * |b|
  {
    HexChar(if k % 2 == 0 then b[k / 2] / 16 else b[k / 2] % 16)
  }

  predicate IsHex(s: string) {
    |s| % 2 == 0 && forall k :: 0 <= k < |s| ==> IsHexChar(s[k])
  }

  predicate IsHexOf(s: string, bytes: nat) {
    IsHex(s) && |s| == 2 * bytes
  }

  function HexBytes(s: string): (b: Bytes)
    requires IsHex(s)
    ensures |b| == |s| / 2
  {
    seq(|s| / 2, i requires 0 <= i < |s| / 2 => 16 * HexValue(s[2 * i]) + HexValue(s[2 * i + 1]))
  }

  /** An optional 0x prefix is dropped. */
  function Clean(s: string): string {
    if |s| >= 2 && s[0] == '0' && (s[1] == 'x' || s[1] == 'X') then s[2..] else s
  }

  datatype HexError = OddLength | BadCharacter

  method FromHex(hex: string) returns (r: Result<Bytes, HexError>)
    ensures r.Ok? <==> IsHex(Clean(hex))
    ensures r.Ok? ==> r.value == HexBytes(Clean(hex))
    ensures r == Err(OddLength) <==> |Clean(hex)| % 2 != 0
  {
    var clean := Clean(hex);
    if |clean| % 2 != 0 {
      return Err(OddLength);
    }
    for k := 0 to |clean|
      invariant forall j :: 0 <= j < k ==> IsHexChar(clean[j])
    {
      if !IsHexChar(clean[k]) {
        return Err(BadCharacter);
      }
    }
    var out := new byte[|clean| / 2](_ => 0);
    for i := 0 to out.Length
      invariant forall j :: 0 <= j < i ==> out[j] == 16 * HexValue(clean[2 * j]) + HexValue(clean[2 * j + 1])
    {
      out[i] := 16 * HexValue(clean[2 * i]) + HexValue(clean[2 * i + 1]);
    }
    return Ok(out[..]);
  }

  /** Every byte string survives being written and read back. */
  lemma HexRoundTrip(b: Bytes)
    ensures IsHexOf(ToHex(b), |b|) && HexBytes(ToHex(b)) == b && Clean(ToHex(b)) == ToHex(b)
  {
    hide HexChar, HexValue, IsHexChar;
    var s := ToHex(b);
    forall k | 0 <= k < |s| ensures IsHexChar(s[k]) && s[k] != 'x' && s[k] != 'X' {
      assert s[k] == HexAt(b, k);
    }
    forall i | 0 <= i < |b| ensures HexBytes(s)[i] == b[i] {
      assert s[2 * i] == HexAt(b, 2 * i) == HexChar(b[i] / 16);
      assert s[2 * i + 1] == HexAt(b, 2 * i + 1) == HexChar(b[i] % 16);
    }
  }

  /** `toLowerCase` on the characters that matter to hex text. */
  function LowerChar(c: char): char {
    match c
    case 'A' => 'a' case 'B' => 'b' case 'C' => 'c' case 'D' => 'd' case 'E' => 'e' case 'F' => 'f' case _ => c
  }

  function Lower(s: string): (t: string)
    ensures |t| == |s|
  {
    seq(|s|, k requires 0 <= k < |s| => LowerChar(s[k]))
  }

  lemma LowerIsCanonical(c: char)
    requires IsHexChar(c)
    ensures HexChar(HexValue(c)) == LowerChar(c)
  {
  }

  /** Hex text denotes the bytes whose `toHex` it equals, up to the case of letters. */
  lemma HexOfBytes(s: string)
    requires IsHex(s)
    ensures ToHex(HexBytes(s)) == Lower(s)
  {
    hide HexChar, HexValue, IsHexChar, LowerChar;
    var b := HexBytes(s);
    forall k | 0 <= k < |s| ensures ToHex(b)[k] == Lower(s)[k] {
      LowerIsCanonical(s[k]);
      var i := k / 2;
      assert b[i] == 16 * HexValue(s[2 * i]) + HexValue(s[2 * i + 1]);
      assert b[i] / 16 == HexValue(s[2 * i]) && b[i] % 16 == HexValue(s[2 * i + 1]);
      assert k == 2 * i || k == 2 * i + 1;
    }
  }

  lemma LowerOfHex(b: Bytes)
    ensures Lower(ToHex(b)) == ToHex(b)
  {
    HexRoundTrip(b);
    HexOfBytes(ToHex(b));
  }
}
