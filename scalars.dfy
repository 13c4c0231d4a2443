/** Scalar types of the pipeline's inputs and outputs, and the two renderings it
    applies to them: `substreams::Hex(..).to_string()` for transaction hashes and
    `BigInt::to_string()` for ABI integers. */
module Scalars {
  import opened Wrappers

  type Byte = x: int | 0 <= x < 0x100
  type Bytes = seq<Byte>

  /** Fixed-width unsigned integers of the protobuf schema and of the ABI. */
  type U8 = x: nat | x < 0x100
  type U32 = x: nat | x < 0x1_0000_0000
  type U64 = x: nat | x < 0x1_0000_0000_0000_0000

  /** A 20-byte account address and a 32-byte word (`[u8; 32]` in the ABI structs). */
  type Address = b: Bytes | |b| == 20 witness seq(20, _ => 0)
  type Bytes32 = b: Bytes | |b| == 32 witness seq(32, _ => 0)

  // ----- hexadecimal rendering of byte strings (lower case, no prefix) -----

  predicate IsHexChar(c: char) {
    '0' <= c <= '9' || 'a' <= c <= 'f'
  }

  function HexChar(d: nat): (c: char)
    requires d < 16
    ensures IsHexChar(c)
  {
    if d < 10 then ('0' as int + d) as char else ('a' as int + d - 10) as char
  }

  function NibbleOf(c: char): Option<nat> {
    if '0' <= c <= '9' then Some(c as int - '0' as int)
    else if 'a' <= c <= 'f' then Some(c as int - 'a' as int + 10)
    else None
  }

  /** The lower-case hexadecimal text of `b`, two characters per byte, most
      significant nibble first. */
  function Hex(b: Bytes): (s: string)
    ensures |s| == 2 * |b|
    ensures forall i :: 0 <= i < |s| ==> IsHexChar(s[i])
  {
    if b == [] then [] else [HexChar(b[0] / 16), HexChar(b[0] % 16)] + Hex(b[1..])
  }

  /** Reads lower-case hexadecimal text back into bytes; None on odd length or
      a character outside [0-9a-f]. */
  function UnHex(s: string): Option<Bytes>
    decreases |s|
  {
    if s == [] then Some([])
    else if |s| == 1 then None
    else match (NibbleOf(s[0]), NibbleOf(s[1]), UnHex(s[2..]))
      case (Some(hi), Some(lo), Some(rest)) =>
        if hi < 16 && lo < 16 then Some([hi * 16 + lo] + rest) else None
      case _ => None
  }

  /** Hex loses nothing: the transaction hash can be read back from `evt_tx_hash`. */
  lemma {:induction false} HexRoundTrip(b: Bytes)
    ensures UnHex(Hex(b)) == Some(b)
  {
    if b != [] {
      var s := Hex(b);
      assert s[2..] == Hex(b[1..]);
      HexRoundTrip(b[1..]);
      assert b == [b[0] / 16 * 16 + b[0] % 16] + b[1..];
    }
  }

  lemma HexInjective(a: Bytes, b: Bytes)
    requires Hex(a) == Hex(b)
    ensures a == b
  {
    HexRoundTrip(a);
    HexRoundTrip(b);
  }

  // ----- decimal rendering of unsigned integers -----

  predicate IsDigit(c: char) {
    '0' <= c <= '9'
  }

  function DigitChar(d: nat): (c: char)
    requires d < 10
    ensures IsDigit(c)
  {
    ('0' as int + d) as char
  }

  /** The value of a string of decimal digits, most significant first. */
  function DigitsValue(s: string): nat
    requires forall i :: 0 <= i < |s| ==> IsDigit(s[i])
  {
    if s == [] then 0
    else
      var last := s[|s| - 1];
      assert IsDigit(last);
      DigitsValue(s[..|s| - 1]) * 10 + (last as int - '0' as int)
  }

  /** Parses a non-empty string of decimal digits; None otherwise. */
  function ParseDecimal(s: string): Option<nat> {
    if s != [] && forall i :: 0 <= i < |s| ==> IsDigit(s[i]) then Some(DigitsValue(s)) else None
  }

  /** `BigInt::to_string()` of a non-negative integer: its shortest decimal
      text. The result is non-empty, all digits, has no leading zero unless it
      is "0", and parses back to `n`. */
  function Decimal(n: nat): (s: string)
    ensures s != [] && forall i :: 0 <= i < |s| ==> IsDigit(s[i])
    ensures s[0] == '0' <==> n == 0
    ensures n == 0 ==> s == "0"
    ensures ParseDecimal(s) == Some(n)
  {
    if n < 10 then
      var s := [DigitChar(n)];
      assert s[..0] == [];
      assert DigitsValue(s) == n;
      s
    else
      var s := Decimal(n / 10) + [DigitChar(n % 10)];
      assert s[..|s| - 1] == Decimal(n / 10);
      s
  }

  /** Two integers render to the same decimal text only if they are equal. */
  lemma DecimalInjective(m: nat, n: nat)
    requires Decimal(m) == Decimal(n)
    ensures m == n
  {
  }
}
