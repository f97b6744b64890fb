/**
 * The byte-stream transport the configurator talks through: the RFCOMM socket
 * to the RN-42 and its input and output streams. The Bluetooth stack itself is
 * not modelled; its behaviour is reduced to what the configurator observes.
 */
module Transport {
  import opened Bytes

  /** `readStream` reads into a 256-byte buffer. */
  const ReadBufferSize: nat := 256

  function Min(a: nat, b: nat): nat {
    if a <= b then a else b
  }

  function Flatten(cs: seq<seq<byte>>): seq<byte>
  {
    if cs == [] then [] else cs[0] + Flatten(cs[1..])
  }

  lemma {:induction false} FlattenAppend(a: seq<seq<byte>>, b: seq<seq<byte>>)
    ensures Flatten(a + b) == Flatten(a) + Flatten(b)
  {
    if a != [] {
      assert (a + b)[1..] == a[1..] + b;
      FlattenAppend(a[1..], b);
    } else {
      assert a + b == b;
    }
  }

  /**
   * The successive reads that empty `s` when each read returns every pending
   * byte up to `max`: every read returns between 1 and `max` bytes, and only
   * the last may be short.
   */
  function Chunks(s: seq<byte>, max: nat): (r: seq<seq<byte>>)
    requires max > 0
    ensures forall i :: 0 <= i < |r| ==> 0 < |r[i]| <= max
    ensures forall i :: 0 <= i < |r| - 1 ==> |r[i]| == max
    decreases |s|
  {
    if s == [] then []
    else
      var k := Min(max, |s|);
      var rest := Chunks(s[k..], max);
      assert |s| <= max ==> rest == [];
      [s[..k]] + rest
  }

  /** Together the reads are `s`, in order. */
  lemma {:induction false} ChunksFlatten(s: seq<byte>, max: nat)
    requires max > 0
    ensures Flatten(Chunks(s, max)) == s
    decreases |s|
  {
    if s != [] {
      var k := Min(max, |s|);
      ChunksFlatten(s[k..], max);
      assert s[..k] + s[k..] == s;
    }
  }

  /** A snapshot of the transport, as the configurator observes it. */
  datatype LinkState = LinkState(
    inbound: seq<byte>,          // received, not yet read
    written: seq<seq<byte>>,     // every packet written successfully, in order
    writeFails: bool,            // OutputStream.write throws IOException
    readFails: bool,             // InputStream.available/read throw IOException
    streamsFail: bool,           // getInputStream/getOutputStream throw IOException
    streamsOpen: bool,           // the input and output streams are set up and not closed
    closes: nat)                 // how many times the streams were closed

  /** The connected socket and its streams. */
  class Link {
    var inbound: seq<byte>
    var written: seq<seq<byte>>
    var writeFails: bool
    var readFails: bool
    var streamsFail: bool
    var streamsOpen: bool
    var closes: nat

    ghost function Value(): LinkState
      reads this
    {
      LinkState(inbound, written, writeFails, readFails, streamsFail, streamsOpen, closes)
    }

    /** A freshly connected socket whose peer has sent `inbound` so far; no stream set up yet. */
    constructor(inbound: seq<byte>, writeFails: bool, readFails: bool, streamsFail: bool)
      ensures Value() == LinkState(inbound, [], writeFails, readFails, streamsFail, false, 0)
    {
      this.inbound := inbound;
      this.written := [];
      this.writeFails := writeFails;
      this.readFails := readFails;
      this.streamsFail := streamsFail;
      this.streamsOpen := false;
      this.closes := 0;
    }

    /** `InputStream.available()`: the number of pending bytes, or an IOException. */
    method Available() returns (ok: bool, n: nat)
      ensures ok == !readFails
      ensures ok ==> n == |inbound|
    {
      ok := !readFails;
      n := if ok then |inbound| else 0;
    }

    /**
     * `InputStream.read(buffer, 0, buffer.Length)` when data is pending: fills the
     * front of `buffer` with up to `buffer.Length` pending bytes and returns how many.
     */
    method ReadInto(buffer: array<byte>) returns (ok: bool, n: nat)
      requires buffer.Length > 0 && |inbound| > 0
      modifies this`inbound, buffer
      ensures ok == !readFails
      ensures ok ==> n == Min(buffer.Length, |old(inbound)|) && n > 0
      ensures ok ==> buffer[..n] == old(inbound)[..n] && buffer[n..] == old(buffer[n..])
      ensures ok ==> inbound == old(inbound)[n..]
      ensures !ok ==> inbound == old(inbound) && buffer[..] == old(buffer[..])
    {
      ok := !readFails;
      n := 0;
      if ok {
        n := Min(buffer.Length, |inbound|);
        forall i | 0 <= i < n {
          buffer[i] := inbound[i];
        }
        inbound := inbound[n..];
      }
    }

    /** `OutputStream.write(packet)`: appends the packet to what the peer receives, or throws. */
    method Write(packet: seq<byte>) returns (ok: bool)
      modifies this`written
      ensures ok == !writeFails
      ensures written == if ok then old(written) + [packet] else old(written)
    {
      ok := !writeFails;
      if ok {
        written := written + [packet];
      }
    }

    /** `getInputStream()` and `getOutputStream()`. */
    method OpenStreams() returns (ok: bool)
      modifies this`streamsOpen
      ensures ok == !streamsFail
      ensures streamsOpen == (ok || old(streamsOpen))
    {
      ok := !streamsFail;
      if ok {
        streamsOpen := true;
      }
    }

    /** `closeSocketsAndStreams`: closes the input and the output stream (not the socket). */
    method CloseStreams()
      modifies this`streamsOpen, this`closes
      ensures !streamsOpen && closes == old(closes) + 1
    {
      streamsOpen := false;
      closes := closes + 1;
    }
  }
}
