/**
 * The last step of the request-id fingerprint: the MD5 digest of the canonical URL,
 * rendered as hexadecimal text, is parsed as an unbounded integer in radix 16 and cut
 * down to an unsigned 32-bit request id (`UInt32(truncatingIfNeeded:)`).
 */
module Hex {
  import opened Optional

  const TwoTo32: nat := 0x1_0000_0000

  /** Swift's `UInt32`. */
  type UInt32 = n: int | 0 <= n < TwoTo32

  predicate IsHexDigit(c: char)
  {
    ('0' <= c <= '9') || ('a' <= c <= 'f') || ('A' <= c <= 'F')
  }

  predicate IsHexString(s: string)
  {
    forall i | 0 <= i < |s| :: IsHexDigit(s[i])
  }

  /** What the MD5 digest's hexadecimal rendering is: 32 hex digits (128 bits). */
  type Md5Hex = s: string | |s| == 32 && IsHexString(s)
    witness "00000000000000000000000000000000"

  function DigitValue(c: char): (v: nat)
    requires IsHexDigit(c)
    ensures v < 16
    ensures ('0' <= c <= '9') ==> v == c as int - '0' as int
    ensures ('a' <= c <= 'f') ==> v == c as int - 'a' as int + 10
    ensures ('A' <= c <= 'F') ==> v == c as int - 'A' as int + 10
  {
    if c <= '9' then c as int - '0' as int
    else if c <= 'F' then c as int - 'A' as int + 10
    else c as int - 'a' as int + 10
  }

  function Pow16(k: nat): (p: nat)
    ensures p >= 1
  {
    if k == 0 then 1 else 16 * Pow16(k - 1)
  }

  /** The value of a string of hex digits, most significant digit first. */
  function HexValue(s: string): (n: nat)
    requires IsHexString(s)
    ensures n < Pow16(|s|)
  {
    if s == [] then 0 else HexValue(s[..|s| - 1]) * 16 + DigitValue(s[|s| - 1])
  }

  /**
   * Parsing in radix 16, as `BigInt(string, radix: 16)` is applied to the 32-digit MD5
   * digest, where it succeeds. What the big-integer library does with other text is not
   * part of this model; here any text that is not a non-empty run of hex digits gives
   * `None`.
   */
  function ParseHex(s: string): (r: Option<nat>)
    ensures r.Some? <==> |s| > 0 && IsHexString(s)
    ensures r.Some? ==> r.value < Pow16(|s|)
  {
    if |s| > 0 && IsHexString(s) then Some(HexValue(s)) else None
  }

  /** `UInt32(truncatingIfNeeded:)`: the one value in range congruent to `n` modulo 2^32. */
  function TruncatingIfNeeded(n: int): (r: UInt32)
    ensures 0 <= n < TwoTo32 ==> r == n
    ensures (n - r) % TwoTo32 == 0
  {
    n % TwoTo32
  }

  lemma {:induction false} HexValueAppend(p: string, q: string)
    requires IsHexString(p) && IsHexString(q)
    ensures IsHexString(p + q)
    ensures HexValue(p + q) == HexValue(p) * Pow16(|q|) + HexValue(q)
    decreases |q|
  {
    assert IsHexString(p + q) by {
      forall i | 0 <= i < |p + q| ensures IsHexDigit((p + q)[i]) {
        if i < |p| { assert (p + q)[i] == p[i]; } else { assert (p + q)[i] == q[i - |p|]; }
      }
    }
    if q == [] {
      assert p + q == p;
    } else {
      var q' := q[..|q| - 1];
      assert IsHexString(q') by {
        forall i | 0 <= i < |q'| ensures IsHexDigit(q'[i]) { assert q'[i] == q[i]; }
      }
      HexValueAppend(p, q');
      assert (p + q)[..|p + q| - 1] == p + q';
      assert (p + q)[|p + q| - 1] == q[|q| - 1];
      var d := DigitValue(q[|q| - 1]);
      var x, y, k := HexValue(p), HexValue(q'), Pow16(|q'|);
      assert Pow16(|q|) == 16 * k;
      assert HexValue(q) == y * 16 + d;
      assert HexValue(p + q) == HexValue(p + q') * 16 + d;
      Regroup(x, y, k, d);
    }
  }

  lemma Regroup(x: nat, y: nat, k: nat, d: nat)
    ensures (x * k + y) * 16 + d == x * (16 * k) + (y * 16 + d)
  {
  }

  /** Cutting a string of hex digits anywhere leaves two strings of hex digits. */
  lemma HexSplit(s: string, k: nat)
    requires IsHexString(s) && k <= |s|
    ensures IsHexString(s[..k]) && IsHexString(s[k..])
  {
    assert forall i | 0 <= i < k :: s[..k][i] == s[i];
    assert forall i | 0 <= i < |s| - k :: s[k..][i] == s[k + i];
  }

  /** Truncation drops whole multiples of 2^32. */
  lemma TruncateShifted(x: nat, y: nat, k: nat, v: int)
    requires k == TwoTo32 && v == x * k + y && y < TwoTo32
    ensures TruncatingIfNeeded(v) == y
  {
  }

  /** Eight hex digits span exactly the 32 bits of a request id. */
  lemma EightDigitsSpan()
    ensures Pow16(8) == TwoTo32
  {
    assert Pow16(2) == 256;
    assert Pow16(4) == 65536;
    assert Pow16(6) == 16777216;
  }

  /**
   * Truncating the parsed digest keeps exactly its last eight hex digits: the request
   * id is the value of the digest's eight least significant digits.
   */
  lemma LowEightDigits(s: string)
    requires IsHexString(s) && |s| >= 8
    ensures IsHexString(s[|s| - 8..])
    ensures TruncatingIfNeeded(HexValue(s)) == HexValue(s[|s| - 8..])
  {
    var p, q := s[..|s| - 8], s[|s| - 8..];
    HexSplit(s, |s| - 8);
    assert s == p + q;
    HexValueAppend(p, q);
    EightDigitsSpan();
    TruncateShifted(HexValue(p), HexValue(q), Pow16(|q|), HexValue(s));
  }
}
