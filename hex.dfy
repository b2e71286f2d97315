/**
 * Hexadecimal text as the `hex` crate reads and writes it: `Vec::from_hex`
 * turns the bytes of the X-LD-Signature header into the claimed signature,
 * `hex::encode` turns a digest into the text a signer sends.
 */
module Hex {
  import opened Wrappers

  /** An octet. */
  type byte = x: int | 0 <= x < 256

  /** A value that one hexadecimal digit can hold. */
  type nibble = x: int | 0 <= x < 16

  /** An ASCII decimal digit, `0`-`9`. */
  predicate IsDecimal(c: byte) {
    '0' as int <= c <= '9' as int
  }

  /** An ASCII lower-case hexadecimal letter, `a`-`f`. */
  predicate IsLowerLetter(c: byte) {
    'a' as int <= c <= 'f' as int
  }

  /** An ASCII upper-case hexadecimal letter, `A`-`F`. */
  predicate IsUpperLetter(c: byte) {
    'A' as int <= c <= 'F' as int
  }

  /** A digit as `hex::encode` writes it: decimal or lower case. */
  predicate IsLowerHexDigit(c: byte) {
    IsDecimal(c) || IsLowerLetter(c)
  }

  /** A digit `from_hex` accepts: either case. */
  predicate IsHexDigit(c: byte) {
    IsLowerHexDigit(c) || IsUpperLetter(c)
  }

  /** The value of one hexadecimal digit. */
  function DigitValue(c: byte): nibble
    requires IsHexDigit(c)
  {
    if IsDecimal(c) then c - '0' as int
    else if IsLowerLetter(c) then c - 'a' as int + 10
    else c - 'A' as int + 10
  }

  /** The lower-case digit `hex::encode` writes for a nibble; it reads back as that nibble. */
  function LowerDigit(n: nibble): (c: byte)
    ensures IsLowerHexDigit(c) && DigitValue(c) == n
  {
    if n < 10 then '0' as int + n else 'a' as int + n - 10
  }

  /** The only lower-case digit with a given value is the one `LowerDigit` writes. */
  lemma LowerDigitOfValue(c: byte)
    requires IsLowerHexDigit(c)
    ensures LowerDigit(DigitValue(c)) == c
  {
  }

  /** The byte that the digit pair starting at `s[2 * k]` stands for, high nibble first. */
  function PairValue(s: seq<byte>, k: nat): byte
    requires 2 * k + 1 < |s|
    requires IsHexDigit(s[2 * k]) && IsHexDigit(s[2 * k + 1])
  {
    16 * DigitValue(s[2 * k]) + DigitValue(s[2 * k + 1])
  }

  /**
   * `Vec::from_hex`: the text must have even length and consist of hexadecimal
   * digits of either case; each pair of digits is one byte, high nibble first.
   * An odd length or any other character is an error, here `None`.
   */
  function FromHex(s: seq<byte>): (r: Option<seq<byte>>)
    ensures r.Some? <==> |s| % 2 == 0 && forall i :: 0 <= i < |s| ==> IsHexDigit(s[i])
    ensures r.Some? ==> 2 * |r.value| == |s|
    ensures r.Some? ==> forall k :: 0 <= k < |r.value| ==> r.value[k] == PairValue(s, k)
    decreases |s|
  {
    if |s| % 2 != 0 then None
    else if s == [] then Some([])
    else if !IsHexDigit(s[0]) || !IsHexDigit(s[1]) then None
    else
      match FromHex(s[2..])
      case None => None
      case Some(rest) => Some([16 * DigitValue(s[0]) + DigitValue(s[1])] + rest)
  }

  /** `hex::encode`: two lower-case digits per byte, high nibble first. */
  function ToHex(b: seq<byte>): (s: seq<byte>)
    ensures |s| == 2 * |b|
    ensures forall i :: 0 <= i < |s| ==> IsLowerHexDigit(s[i])
    ensures forall k :: 0 <= k < |b| ==> PairValue(s, k) == b[k]
  {
    if b == [] then []
    else [LowerDigit(b[0] / 16), LowerDigit(b[0] % 16)] + ToHex(b[1..])
  }

  /** Decoding what `hex::encode` wrote gives back the bytes. */
  lemma {:induction false} FromHexToHex(b: seq<byte>)
    ensures FromHex(ToHex(b)) == Some(b)
  {
    var s := ToHex(b);
    assert forall i :: 0 <= i < |s| ==> IsHexDigit(s[i]);
    var r := FromHex(s).value;
    assert |r| == |b|;
    forall k | 0 <= k < |b|
      ensures r[k] == b[k]
    {
    }
    assert r == b;
  }

  /**
   * Conversely, lower-case hexadecimal text is exactly what `hex::encode`
   * writes for the bytes it decodes to.
   */
  lemma {:induction false} ToHexFromHex(s: seq<byte>)
    requires FromHex(s).Some?
    requires forall i :: 0 <= i < |s| ==> IsLowerHexDigit(s[i])
    ensures ToHex(FromHex(s).value) == s
    decreases |s|
  {
    if s != [] {
      var b := FromHex(s).value;
      var hi: int, lo: int := DigitValue(s[0]), DigitValue(s[1]);
      var first: byte := 16 * hi + lo;
      assert b == [first] + FromHex(s[2..]).value;
      assert b[0] / 16 == hi && b[0] % 16 == lo;
      LowerDigitOfValue(s[0]);
      LowerDigitOfValue(s[1]);
      ToHexFromHex(s[2..]);
      assert b[1..] == FromHex(s[2..]).value;
      assert s == [s[0], s[1]] + s[2..];
    }
  }
}
