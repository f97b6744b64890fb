/**
 * Octets as they travel over the serial link, and the little-endian
 * integer fields of u-blox UBX payloads.
 */
module Bytes {

  /** An octet; Java's signed `byte` is read here as its unsigned value 0..255. */
  type byte = x: int | 0 <= x < 256

  predicate IsAscii(s: string) {
    forall i :: 0 <= i < |s| ==> s[i] as int < 128
  }

  /** `String.getBytes()` for a string that is pure ASCII: one octet per character. */
  function Ascii(s: string): (r: seq<byte>)
    requires IsAscii(s)
    ensures |r| == |s|
    ensures forall i :: 0 <= i < |s| ==> r[i] == s[i] as int
  {
    seq(|s|, i requires 0 <= i < |s| => s[i] as int)
  }

  /** 16-bit unsigned little-endian field. */
  function LE16(n: nat): (r: seq<byte>)
    requires n < 0x1_0000
    ensures |r| == 2
    ensures DecodeLE16(r) == n
  {
    [n % 256, n / 256]
  }

  function DecodeLE16(s: seq<byte>): (n: nat)
    requires |s| == 2
    ensures n < 0x1_0000
  {
    s[0] as int + 256 * (s[1] as int)
  }

  /** 32-bit unsigned little-endian field. */
  function LE32(n: nat): (r: seq<byte>)
    requires n < 0x1_0000_0000
    ensures |r| == 4
  {
    LE16(n % 0x1_0000) + LE16(n / 0x1_0000)
  }

  function DecodeLE32(s: seq<byte>): (n: nat)
    requires |s| == 4
    ensures n < 0x1_0000_0000
  {
    DecodeLE16(s[..2]) + 0x1_0000 * DecodeLE16(s[2..])
  }

  lemma LE16RoundTrip(s: seq<byte>)
    requires |s| == 2
    ensures LE16(DecodeLE16(s)) == s
  {
  }

  lemma LE32RoundTrip(n: nat)
    requires n < 0x1_0000_0000
    ensures DecodeLE32(LE32(n)) == n
  {
    var r := LE32(n);
    assert r[..2] == LE16(n % 0x1_0000);
    assert r[2..] == LE16(n / 0x1_0000);
  }
}
