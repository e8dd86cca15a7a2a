/** The content key shared by both speech caches: an MD5 digest of the UTF-8
    bytes of a string, rendered byte by byte with `ToString("x2")`. MD5 and the
    UTF-8 encoder are platform functions, kept uninterpreted here: a cache is
    given them as function values. */
module Hashing {
  import opened DotNet

  /** An MD5 digest: always sixteen bytes. */
  type Digest = d: seq<byte> | |d| == 16 witness seq(16, _ => 0 as byte)

  /** `MD5.ComputeHash`. */
  type Md5 = seq<byte> -> Digest

  /** `Encoding.UTF8.GetBytes`. */
  type Utf8 = string -> seq<byte>

  predicate IsLowerHex(c: char) {
    '0' <= c <= '9' || 'a' <= c <= 'f'
  }

  predicate AllLowerHex(s: string) {
    forall i :: 0 <= i < |s| ==> IsLowerHex(s[i])
  }

  /** The lowercase hexadecimal digit for `n`. */
  function HexDigit(n: nat): (c: char)
    requires n < 16
    ensures IsLowerHex(c) && HexValue(c) == n
  {
    if n < 10 then ('0' as int + n) as char else ('a' as int + n - 10) as char
  }

  /** The value of a hexadecimal digit (0 for any other character). */
  function HexValue(c: char): (n: nat)
    ensures n < 16
  {
    if '0' <= c <= '9' then (c as int) - ('0' as int)
    else if 'a' <= c <= 'f' then (c as int) - ('a' as int) + 10
    else 0
  }

  /** `b.ToString("x2")`: two lowercase hex digits, high nibble first. */
  function HexByte(b: byte): (r: string)
    ensures |r| == 2 && AllLowerHex(r)
    ensures HexValue(r[0]) * 16 + HexValue(r[1]) == b as int
  {
    [HexDigit(b as int / 16), HexDigit(b as int % 16)]
  }

  /** The digest rendering: each byte appended as `HexByte`, in order. */
  function Hex(bs: seq<byte>): (r: string)
    ensures |r| == 2 * |bs|
    ensures AllLowerHex(r)
  {
    if bs == [] then [] else HexByte(bs[0]) + Hex(bs[1..])
  }

  /** Reads a hex rendering back, two digits per byte. */
  function Unhex(s: string): (bs: seq<byte>)
    ensures |bs| == |s| / 2
  {
    if |s| < 2 then [] else [(HexValue(s[0]) * 16 + HexValue(s[1])) as byte] + Unhex(s[2..])
  }

  /** The rendering loses nothing: the bytes can be read back from it. */
  lemma {:induction false} UnhexHex(bs: seq<byte>)
    ensures Unhex(Hex(bs)) == bs
  {
    if bs != [] {
      var h := Hex(bs);
      assert h[..2] == HexByte(bs[0]) && h[2..] == Hex(bs[1..]);
      UnhexHex(bs[1..]);
    }
  }

  /** Distinct digests give distinct file names. */
  lemma HexInjective(a: seq<byte>, b: seq<byte>)
    requires Hex(a) == Hex(b)
    ensures a == b
  {
    UnhexHex(a);
    UnhexHex(b);
  }

  /** The rendered MD5 of the UTF-8 bytes of `s`. */
  function DigestHex(md5: Md5, utf8: Utf8, s: string): (r: string)
    ensures |r| == 32 && AllLowerHex(r)
  {
    Hex(md5(utf8(s)))
  }
}
