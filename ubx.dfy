/**
 * UBX binary framing of the u-blox 7 receiver protocol ("UBX Packet
 * Structure" and "UBX Checksum" in the u-blox 7 Receiver Description):
 *
 *   0xB5 0x62 | class | id | length (16-bit little-endian) | payload | CK_A CK_B
 *
 * CK_A/CK_B is the 8-bit Fletcher checksum over class, id, length and payload.
 */
module Ubx {
  import opened Bytes
  import opened Wrappers

  const SyncChar1: byte := 0xB5
  const SyncChar2: byte := 0x62

  /** Largest payload the 16-bit length field can announce. */
  const MaxPayload: nat := 0xFFFF

  /** A UBX message before framing. */
  datatype Message = Message(cls: byte, id: byte, payload: seq<byte>)

  predicate Fits(m: Message) {
    |m.payload| <= MaxPayload
  }

  /** Addition of two octets with 8-bit wrap-around. */
  function Add8(a: byte, b: byte): byte
  {
    if a + b < 256 then a + b else a + b - 256
  }

  /** 8-bit wrap-around is addition modulo 256. */
  lemma Add8IsMod(a: byte, b: byte)
    ensures Add8(a, b) == (a + b) % 256
  {
  }

  /** One byte of the receiver description's running checksum: CK_A += byte; CK_B += CK_A, in 8-bit arithmetic. */
  function FletcherStep(ck: (byte, byte), x: byte): (byte, byte)
  {
    var a := Add8(ck.0, x);
    (a, Add8(ck.1, a))
  }

  /** (CK_A, CK_B) after the first n bytes of s, starting from (0, 0). */
  function ChecksumUpTo(s: seq<byte>, n: nat): (byte, byte)
    requires n <= |s|
  {
    if n == 0 then (0, 0) else FletcherStep(ChecksumUpTo(s, n - 1), s[n - 1])
  }

  /** One more byte of s continues the running checksum by one Fletcher step. */
  lemma ChecksumNext(s: seq<byte>, n: nat, ck: (byte, byte), x: byte)
    requires n < |s| && ChecksumUpTo(s, n) == ck && s[n] == x
    ensures ChecksumUpTo(s, n + 1) == FletcherStep(ck, x)
  {
  }

  /**
   * CK_A/CK_B over all of s, in closed form: the byte sum and the sum of the
   * bytes weighted by their distance from the end, each reduced modulo 256.
   */
  function Checksum(s: seq<byte>): (r: (byte, byte))
    ensures r == (Sum(s, |s|) % 256, Weighted(s, |s|) % 256)
  {
    ChecksumUpToClosedForm(s, |s|);
    ChecksumUpTo(s, |s|)
  }

  /** Unbounded sum of the first n bytes. */
  function Sum(s: seq<byte>, n: nat): nat
    requires n <= |s|
  {
    if n == 0 then 0 else Sum(s, n - 1) + s[n - 1]
  }

  /** Unbounded sum over the first n bytes in which byte i is weighted k - i. */
  function WeightedBy(s: seq<byte>, n: nat, k: int): int
    requires n <= |s|
  {
    if n == 0 then 0 else WeightedBy(s, n - 1, k) + (k - (n - 1)) * s[n - 1]
  }

  /** Byte i of the first n counts n - i times: once in every running sum from position i on. */
  function Weighted(s: seq<byte>, n: nat): int
    requires n <= |s|
  {
    WeightedBy(s, n, n)
  }

  lemma {:induction false} WeightedByShift(s: seq<byte>, n: nat, k: int)
    requires n <= |s|
    ensures WeightedBy(s, n, k + 1) == WeightedBy(s, n, k) + Sum(s, n)
  {
    if n > 0 {
      WeightedByShift(s, n - 1, k);
      assert (k + 1 - (n - 1)) * s[n - 1] == (k - (n - 1)) * s[n - 1] + s[n - 1];
    }
  }

  lemma ModShift(m: int, y: int)
    ensures (256 * m + y) % 256 == y % 256
  {
    var q, r := y / 256, y % 256;
    assert y == 256 * q + r;
    assert 256 * m + y == 256 * (m + q) + r;
  }

  lemma ModAddLeft(x: int, y: int)
    ensures (x % 256 + y) % 256 == (x + y) % 256
  {
    ModShift(x / 256, x % 256 + y);
  }

  /** One more byte adds the new byte sum to the weighted sum. */
  lemma WeightedStep(s: seq<byte>, n: nat)
    requires 0 < n <= |s|
    ensures Weighted(s, n) == Weighted(s, n - 1) + Sum(s, n)
  {
    WeightedByShift(s, n - 1, n - 1);
    assert (n - (n - 1)) * s[n - 1] == s[n - 1];
  }

  /**
   * The 8-bit running sums equal unbounded sums reduced modulo 256 at the end:
   * CK_A is the byte sum and CK_B the sum of bytes weighted by n - i.
   */
  lemma {:induction false} ChecksumUpToClosedForm(s: seq<byte>, n: nat)
    requires n <= |s|
    ensures ChecksumUpTo(s, n) == (Sum(s, n) % 256, Weighted(s, n) % 256)
  {
    if n > 0 {
      ChecksumUpToClosedForm(s, n - 1);
      var ck := ChecksumUpTo(s, n - 1);
      var x := s[n - 1];
      var a := Add8(ck.0, x);
      assert a == Sum(s, n) % 256 by {
        Add8IsMod(ck.0, x);
        ModAddLeft(Sum(s, n - 1), x);
      }
      assert Add8(ck.1, a) == Weighted(s, n) % 256 by {
        Add8IsMod(ck.1, a);
        WeightedStep(s, n);
        ModAddLeft(Weighted(s, n - 1), a);
        ModAddLeft(Sum(s, n), Weighted(s, n - 1));
      }
    }
  }

  /** class, id, length and payload: the bytes the checksum covers. */
  function Body(m: Message): (r: seq<byte>)
    requires Fits(m)
    ensures |r| == 4 + |m.payload|
  {
    [m.cls, m.id] + LE16(|m.payload|) + m.payload
  }

  /** The framed message as it goes on the wire. */
  function Frame(m: Message): (f: seq<byte>)
    requires Fits(m)
    ensures |f| == 8 + |m.payload|
    ensures f[0] == SyncChar1 && f[1] == SyncChar2
    ensures f[2] == m.cls && f[3] == m.id
    ensures DecodeLE16(f[4..6]) == |m.payload|
    ensures f[6..|f| - 2] == m.payload
    ensures (f[|f| - 2], f[|f| - 1]) == Checksum(f[2..|f| - 2])
  {
    var body := Body(m);
    var ck := Checksum(body);
    var f := [SyncChar1, SyncChar2] + body + [ck.0, ck.1];
    assert f[2..|f| - 2] == body;
    assert f[4..6] == LE16(|m.payload|);
    assert f[6..|f| - 2] == body[4..];
    f
  }

  /** Accepts exactly the byte strings that are a well-formed UBX frame. */
  function Parse(f: seq<byte>): (r: Option<Message>)
    ensures r.Some? ==> Fits(r.value) && |f| == 8 + |r.value.payload|
  {
    if |f| < 8 || f[0] != SyncChar1 || f[1] != SyncChar2 then None
    else if DecodeLE16(f[4..6]) != |f| - 8 then None
    else if Checksum(f[2..|f| - 2]) != (f[|f| - 2], f[|f| - 1]) then None
    else Some(Message(f[2], f[3], f[6..|f| - 2]))
  }

  /** Framing then parsing gives the message back. */
  lemma ParseFrame(m: Message)
    requires Fits(m)
    ensures Parse(Frame(m)) == Some(m)
  {
  }

  /** A byte string the parser accepts is exactly the framing of what it returns. */
  lemma FrameParse(f: seq<byte>)
    requires Parse(f).Some?
    ensures Frame(Parse(f).value) == f
  {
    var m := Parse(f).value;
    var g := Frame(m);
    LE16RoundTrip(f[4..6]);
    assert g[4..6] == f[4..6];
    assert g[..2] == f[..2];
    assert g[2..4] == f[2..4];
    assert g[6..|g| - 2] == f[6..|f| - 2];
    assert g[2..|g| - 2] == g[2..4] + g[4..6] + g[6..|g| - 2];
    assert f[2..|f| - 2] == f[2..4] + f[4..6] + f[6..|f| - 2];
    assert g == g[..2] + g[2..|g| - 2] + [g[|g| - 2], g[|g| - 1]];
    assert f == f[..2] + f[2..|f| - 2] + [f[|f| - 2], f[|f| - 1]];
  }
}
