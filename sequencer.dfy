/**
 * The configuration sequencer (`configureRunnable`): one tick per handler
 * callback. A tick sets up the streams, or drains the input and writes the
 * next queued packet, or polls; it then asks for the next tick after a delay,
 * or asks for none, which ends the session.
 */
module Sequencer {
  import opened Bytes
  import opened Wrappers
  import opened Catalog
  import opened Transport
  import Ubx

  /** What a tick asks of the handler: no further tick, or one after `ms` milliseconds. */
  datatype Schedule = Idle | After(ms: nat)

  /** The state a tick reads and writes: the activity's fields, its two text views and the transport. */
  datatype Session = Session(
    state: State,
    packets: seq<seq<byte>>,      // `_packets`, front first
    descriptions: seq<string>,    // `_packetDescriptions`, beside `packets`
    configureLog: seq<string>,    // every append to the configure text view
    resultLog: seq<seq<byte>>,    // every append to the result text view (bytes, not decoded)
    link: LinkState)

  /** A tick can run: the two queues are in step, and a sending state has a packet to send. */
  predicate Ready(s: Session) {
    |s.packets| == |s.descriptions| && (IsSending(s.state) ==> |s.packets| > 0)
  }

  /** The session right after a connect: state `Connected`, nothing queued, nothing written. */
  predicate Fresh(s: Session) {
    s.state == Connected && s.packets == [] && s.descriptions == []
    && s.link.written == [] && !s.link.streamsOpen && s.link.closes == 0
  }

  // ---- readStream ----

  /**
   * `readStream` with each read logged as the bytes it returned: every pending
   * byte moves, in order, from the transport to the result log, in reads of
   * 1 to 256 bytes; a failing stream leaves everything as it was.
   */
  function Drain(s: Session): (r: Session)
    ensures r == s.(resultLog := r.resultLog, link := s.link.(inbound := r.link.inbound))
    ensures s.link.readFails ==> r == s
    ensures !s.link.readFails ==> r.link.inbound == []
  {
    if s.link.readFails || s.link.inbound == [] then s
    else s.(resultLog := s.resultLog + Chunks(s.link.inbound, ReadBufferSize), link := s.link.(inbound := []))
  }

  /**
   * Draining loses, duplicates and reorders nothing: the result log followed by
   * what is still pending is unchanged; earlier entries stay; each new entry is
   * one read of 1 to 256 bytes.
   */
  lemma DrainKeepsBytes(s: Session)
    ensures Flatten(Drain(s).resultLog) + Drain(s).link.inbound == Flatten(s.resultLog) + s.link.inbound
    ensures Drain(s).resultLog[..|s.resultLog|] == s.resultLog
    ensures forall i :: |s.resultLog| <= i < |Drain(s).resultLog| ==> 0 < |Drain(s).resultLog[i]| <= ReadBufferSize
  {
    if !s.link.readFails && s.link.inbound != [] {
      var cs := Chunks(s.link.inbound, ReadBufferSize);
      ChunksFlatten(s.link.inbound, ReadBufferSize);
      FlattenAppend(s.resultLog, cs);
      assert Drain(s).resultLog == s.resultLog + cs;
    }
  }

  /** `n` zero bytes; `Zeros(256)` is a fresh `new byte[256]`. */
  function Zeros(n: nat): (r: seq<byte>)
    ensures |r| == n && forall i :: 0 <= i < n ==> r[i] == 0
  {
    if n == 0 then [] else [0] + Zeros(n - 1)
  }

  /**
   * The blocks `readStream` appends as written: after each read it appends the
   * whole 256-byte buffer, so a short read carries the bytes of the previous
   * read, or zeros, behind the fresh ones.
   */
  function PaddedBlocks(s: seq<byte>, buffer: seq<byte>): (r: seq<seq<byte>>)
    requires |buffer| == ReadBufferSize
    ensures |r| == |Chunks(s, ReadBufferSize)|
    ensures forall i :: 0 <= i < |r| ==> |r[i]| == ReadBufferSize
    decreases |s|
  {
    if s == [] then []
    else
      var k := Min(ReadBufferSize, |s|);
      var next := s[..k] + buffer[k..];
      [next] + PaddedBlocks(s[k..], next)
  }

  /** `readStream` as written: like `Drain`, but each read logs the whole buffer. */
  function DrainAsWritten(s: Session): (r: Session)
    ensures r == s.(resultLog := r.resultLog, link := s.link.(inbound := r.link.inbound))
  {
    if s.link.readFails || s.link.inbound == [] then s
    else s.(resultLog := s.resultLog + PaddedBlocks(s.link.inbound, Zeros(ReadBufferSize)), link := s.link.(inbound := []))
  }

  /**
   * The as-written log is exact only when the pending bytes fill whole buffers;
   * otherwise it holds more bytes than arrived.
   */
  lemma {:induction false} PaddedBlocksExactness(s: seq<byte>, buffer: seq<byte>)
    requires |buffer| == ReadBufferSize
    ensures |s| % ReadBufferSize == 0 ==> Flatten(PaddedBlocks(s, buffer)) == s
    ensures |s| % ReadBufferSize != 0 ==> |Flatten(PaddedBlocks(s, buffer))| > |s|
    decreases |s|
  {
    if s != [] {
      var k := Min(ReadBufferSize, |s|);
      var next := s[..k] + buffer[k..];
      var rest := PaddedBlocks(s[k..], next);
      assert PaddedBlocks(s, buffer) == [next] + rest;
      PaddedBlocksExactness(s[k..], next);
      if |s| < ReadBufferSize {
        assert s[k..] == [];
        assert |Flatten(PaddedBlocks(s, buffer))| == ReadBufferSize;
      } else {
        Ubx.ModShift(1, |s[k..]|);
        assert next == s[..k];
        assert s[..k] + s[k..] == s;
      }
    }
  }

  /**
   * One pending byte 'A' is logged as 'A' followed by 255 zero bytes by the
   * source's `readStream`, and as just 'A' by `Drain`.
   */
  lemma ShortReadIsPadded(s: Session)
    requires !s.link.readFails && s.link.inbound == [0x41]
    ensures DrainAsWritten(s).resultLog == s.resultLog + [[0x41] + Zeros(ReadBufferSize)[1..]]
    ensures Drain(s).resultLog == s.resultLog + [[0x41]]
    ensures Flatten(DrainAsWritten(s).resultLog) != Flatten(Drain(s).resultLog)
  {
    var one: seq<byte> := [0x41];
    var z := Zeros(ReadBufferSize);
    var block := one + z[1..];
    assert one[..1] == one && one[1..] == [];
    assert PaddedBlocks(one, z) == [block] + PaddedBlocks([], block) == [block];
    assert Chunks(one, ReadBufferSize) == [one] + Chunks([], ReadBufferSize) == [one];
    FlattenAppend(s.resultLog, [block]);
    FlattenAppend(s.resultLog, [one]);
    assert Flatten([block]) == block + Flatten([]);
    assert Flatten([one]) == one + Flatten([]);
  }

  // ---- closeSocketsAndStreams ----

  /**
   * `closeSocketsAndStreams`: the streams end up closed, one more close is
   * counted, and nothing else of the session or the transport changes.
   */
  function CloseStreams(s: Session): (r: Session)
    ensures !r.link.streamsOpen && r.link.closes == s.link.closes + 1
    ensures r.(link := s.link) == s
    ensures r.link.(streamsOpen := s.link.streamsOpen, closes := s.link.closes) == s.link
  {
    s.(link := s.link.(streamsOpen := false, closes := s.link.closes + 1))
  }

  // ---- configureRunnable ----

  /**
   * The tail of a sending tick once its packet is written and logged. It
   * writes and reads nothing; it stops exactly when the last phase's queue is
   * empty, and then closes the streams and logs "Done!"; otherwise the link
   * and the log are untouched, a sending state stays sending with a packet
   * queued, and the next tick waits at least the 2 s between packets.
   */
  function AfterWrite(w: Session): (r: (Session, Schedule))
    requires |w.packets| == |w.descriptions|
    ensures r.0.link.written == w.link.written && r.0.resultLog == w.resultLog
    ensures |r.0.packets| == |r.0.descriptions|
    ensures r.1.Idle? <==> |w.packets| == 0 && NextPhase(w.state).None?
    ensures r.1.Idle? ==> !r.0.link.streamsOpen && r.0.link.closes == w.link.closes + 1
                          && r.0.configureLog == w.configureLog + [DoneText]
    ensures r.1.After? ==> r.1.ms >= StayDelayMs && r.0.link == w.link && r.0.configureLog == w.configureLog
    ensures r.1.After? && IsSending(w.state) ==> IsSending(r.0.state) && |r.0.packets| > 0
  {
    if |w.packets| > 0 then (w, After(StayDelayMs))
    else
      match NextPhase(w.state)
      case Some(n) =>
        (w.(state := n, packets := w.packets + PacketsFor(n), descriptions := w.descriptions + DescriptionsFor(n)),
         After(EntryDelayMs(n)))
      case None => (CloseStreams(w).(configureLog := w.configureLog + [DoneText]), Idle)
  }

  /**
   * A tick of a sending state: drain, pop the head packet, write it, log its
   * description. The inbound bytes are drained first; the head packet leaves
   * the queue whether or not the write succeeds, and the rest keep their
   * order; a successful write appends exactly the head packet and logs its
   * description; a failed one writes nothing, logs an empty entry, closes the
   * streams and stops.
   */
  function Send(s: Session): (r: (Session, Schedule))
    requires Ready(s) && IsSending(s.state)
    ensures r.0.resultLog == Drain(s).resultLog && r.0.link.inbound == Drain(s).link.inbound
    ensures |r.0.packets| >= |s.packets| - 1 && r.0.packets[..|s.packets| - 1] == s.packets[1..]
    ensures s.link.writeFails ==>
      r.1.Idle? && r.0.state == s.state && r.0.link.written == s.link.written
      && r.0.configureLog == s.configureLog + [""] && r.0.link.closes == s.link.closes + 1
    ensures !s.link.writeFails ==>
      r.0.link.written == s.link.written + [s.packets[0]]
      && |r.0.configureLog| > |s.configureLog| && r.0.configureLog[|s.configureLog|] == s.descriptions[0] + "\n"
  {
    var d := Drain(s);
    var popped := d.(packets := d.packets[1..], descriptions := d.descriptions[1..]);
    if d.link.writeFails then
      // The error text is built by a discarded `String.format`, so an empty entry is logged.
      (CloseStreams(popped.(configureLog := popped.configureLog + [""])), Idle)
    else
      AfterWrite(popped.(link := popped.link.(written := popped.link.written + [d.packets[0]]),
                         configureLog := popped.configureLog + [d.descriptions[0] + "\n"]))
  }

  /**
   * One run of `configureRunnable`. The result keeps the queues in step, keeps a
   * next tick runnable, never enters nor leaves `Done`, writes at most the head
   * packet, and closes the streams at most once and only when it stops.
   */
  function Step(s: Session): (r: (Session, Schedule))
    requires Ready(s)
    ensures |r.0.packets| == |r.0.descriptions|
    ensures r.1.After? ==> Ready(r.0)
    ensures (r.0.state == Done) == (s.state == Done)
    ensures r.0.link.written == s.link.written
         || (IsSending(s.state) && r.0.link.written == s.link.written + [s.packets[0]])
    ensures r.0.link.closes == s.link.closes
         || (r.0.link.closes == s.link.closes + 1 && r.1.Idle? && !r.0.link.streamsOpen)
  {
    match s.state
    case Connected =>
      if s.link.streamsFail then (s.(configureLog := s.configureLog + [""]), Idle)
      else
        (s.(state := Rn42Cmd9600,
            packets := s.packets + PacketsFor(Rn42Cmd9600),
            descriptions := s.descriptions + DescriptionsFor(Rn42Cmd9600),
            configureLog := s.configureLog + [StreamsReadyLine],
            link := s.link.(streamsOpen := true)),
         After(0))
    case Done => (Drain(s), After(DonePollMs))
    case _ => Send(s)
  }

  /**
   * A tick in a sending state whose write succeeds, with more packets queued in
   * the phase: it sends the head packet, logs its description and stays in the
   * phase, asking for the next tick in 2 s.
   */
  lemma SendStays(s: Session)
    requires Ready(s) && IsSending(s.state) && !s.link.writeFails && |s.packets| > 1
    ensures Step(s).1 == After(StayDelayMs)
    ensures Step(s).0 ==
      Drain(s).(packets := s.packets[1..], descriptions := s.descriptions[1..],
                configureLog := s.configureLog + [s.descriptions[0] + "\n"],
                link := Drain(s).link.(written := s.link.written + [s.packets[0]]))
  {
  }

  /**
   * The tick that writes the last packet of a phase logs its description and
   * enters the next phase with that phase's packets, asking for the next tick
   * after the phase's entry delay.
   */
  lemma SendEnters(s: Session)
    requires Ready(s) && IsSending(s.state) && !s.link.writeFails && |s.packets| == 1
    requires NextPhase(s.state).Some?
    ensures Step(s).1 == After(EntryDelayMs(NextPhase(s.state).value))
    ensures Step(s).0 ==
      Drain(s).(state := NextPhase(s.state).value,
                packets := PacketsFor(NextPhase(s.state).value),
                descriptions := DescriptionsFor(NextPhase(s.state).value),
                configureLog := s.configureLog + [s.descriptions[0] + "\n"],
                link := Drain(s).link.(written := s.link.written + [s.packets[0]]))
  {
    var d := Drain(s);
    var n := NextPhase(s.state).value;
    var w := d.(packets := [], descriptions := [],
                link := d.link.(written := s.link.written + [s.packets[0]]),
                configureLog := s.configureLog + [s.descriptions[0] + "\n"]);
    assert d.packets[1..] == [] && d.descriptions[1..] == [];
    assert Step(s) == Send(s) == AfterWrite(w);
    assert [] + PacketsFor(n) == PacketsFor(n) && [] + DescriptionsFor(n) == DescriptionsFor(n);
  }

  /**
   * The tick that writes the last packet of the last phase logs its
   * description, closes the streams, logs "Done!" and asks for no further tick.
   */
  lemma SendFinishes(s: Session)
    requires Ready(s) && IsSending(s.state) && !s.link.writeFails && |s.packets| == 1
    requires NextPhase(s.state).None?
    ensures Step(s).1 == Idle
    ensures Step(s).0 ==
      Drain(s).(packets := [], descriptions := [],
                configureLog := s.configureLog + [s.descriptions[0] + "\n", DoneText],
                link := Drain(s).link.(written := s.link.written + [s.packets[0]],
                                       streamsOpen := false, closes := s.link.closes + 1))
  {
    assert s.packets[1..] == [] && s.descriptions[1..] == [];
  }

  /**
   * A failed write loses the packet: it is already off the queue, nothing is
   * written, an empty entry is logged, the streams are closed and no tick follows.
   */
  lemma WriteFailureStops(s: Session)
    requires Ready(s) && IsSending(s.state) && s.link.writeFails
    ensures Step(s).1 == Idle
    ensures Step(s).0.state == s.state
    ensures Step(s).0.packets == s.packets[1..] && Step(s).0.descriptions == s.descriptions[1..]
    ensures Step(s).0.link.written == s.link.written
    ensures Step(s).0.configureLog == s.configureLog + [""]
    ensures !Step(s).0.link.streamsOpen && Step(s).0.link.closes == s.link.closes + 1
  {
  }

  /**
   * The first tick sets up the streams and appends the first phase's packets to
   * whatever the queues already hold; if the streams cannot be set up it logs an
   * empty entry and stops.
   */
  lemma ConnectedTick(s: Session)
    requires Ready(s) && s.state == Connected
    ensures !s.link.streamsFail ==>
      Step(s).0.state == Rn42Cmd9600 && Step(s).1 == After(0)
      && Step(s).0.packets == s.packets + PacketsFor(Rn42Cmd9600)
      && Step(s).0.configureLog == s.configureLog + [StreamsReadyLine]
      && Step(s).0.link.streamsOpen && Step(s).0.link.written == s.link.written
    ensures s.link.streamsFail ==>
      Step(s) == (s.(configureLog := s.configureLog + [""]), Idle)
  {
  }

  /** No tick loses or reorders a received byte: result log plus pending bytes are unchanged. */
  lemma StepKeepsBytes(s: Session)
    requires Ready(s)
    ensures Flatten(Step(s).0.resultLog) + Step(s).0.link.inbound == Flatten(s.resultLog) + s.link.inbound
  {
    DrainKeepsBytes(s);
  }

  // ---- Runs: a sequence of ticks ----

  /** What happens on the link between two ticks: bytes arrive, and the next write will or will not fail. */
  datatype Env = Env(arrival: seq<byte>, writeFails: bool)

  function Arrive(s: Session, e: Env): Session {
    s.(link := s.link.(inbound := s.link.inbound + e.arrival, writeFails := e.writeFails))
  }

  /** The outcome of a run: the last session, the delays it scheduled, whether it stopped. */
  datatype Trace = Trace(last: Session, delays: seq<nat>, stopped: bool)

  /** Ticks the session once per element of `envs` until a tick schedules nothing. */
  function Run(s: Session, envs: seq<Env>): (t: Trace)
    requires Ready(s)
    ensures |t.delays| <= |envs|
    ensures t.stopped ==> |t.delays| < |envs|
    decreases |envs|
  {
    if envs == [] then Trace(s, [], false)
    else
      var r := Step(Arrive(s, envs[0]));
      if r.1.Idle? then Trace(r.0, [], true)
      else
        var t := Run(r.0, envs[1..]);
        Trace(t.last, [r.1.ms] + t.delays, t.stopped)
  }

  /** The delays of a complete session from its `k`-th scheduled tick on. */
  function DelaysFrom(k: nat): seq<nat>
    decreases ScheduledTicks - k
  {
    if k < ScheduledTicks then [ScheduledDelay(k)] + DelaysFrom(k + 1) else []
  }

  /** Unfolds one tick of `Run`. */
  lemma RunUnfold(s: Session, envs: seq<Env>)
    requires Ready(s) && envs != []
    ensures var r := Step(Arrive(s, envs[0]));
      Run(s, envs) == if r.1.Idle? then Trace(r.0, [], true)
                      else Trace(Run(r.0, envs[1..]).last, [r.1.ms] + Run(r.0, envs[1..]).delays, Run(r.0, envs[1..]).stopped)
  {
  }

  /** No write fails while `envs` is played. */
  predicate WritesSucceed(envs: seq<Env>) {
    forall i :: 0 <= i < |envs| ==> !envs[i].writeFails
  }

  /** Each description as logged: followed by a newline. */
  function Lines(ds: seq<string>): seq<string> {
    seq(|ds|, i requires 0 <= i < |ds| => ds[i] + "\n")
  }

  /**
   * A live session started by `base` is on the script `sc` with descriptions
   * `sd`: the packets written and still queued are the script up to the end of
   * the current phase, the queued descriptions are theirs, and each written
   * packet's description is logged.
   */
  predicate LiveOn(s: Session, base: seq<string>, sc: seq<seq<byte>>, sd: seq<string>) {
    Ready(s)
    && match s.state
       case Connected =>
         s.packets == [] && s.descriptions == [] && s.link.written == []
         && s.configureLog == base && !s.link.streamsOpen && s.link.closes == 0
       case Done => false
       case _ =>
         var i := |s.link.written|;
         PhaseEnd(s.state) <= |sc| == |sd|
         && PhaseStart(s.state) <= i < PhaseEnd(s.state)
         && s.link.written + s.packets == sc[..PhaseEnd(s.state)]
         && s.descriptions == sd[i..PhaseEnd(s.state)]
         && s.configureLog == base + [StreamsReadyLine] + Lines(sd[..i])
         && s.link.streamsOpen && s.link.closes == 0
  }

  /** A live session is on the configurator's own script. */
  predicate Live(s: Session, base: seq<string>) {
    LiveOn(s, base, Script(), ScriptDescriptions())
  }

  /**
   * A stopped session started by `base`: it wrote a prefix of the script, its
   * streams are closed (at most once), and its log ends with an empty error
   * entry, or with "Done!" after the whole script.
   */
  predicate Ended(s: Session, base: seq<string>) {
    var i := |s.link.written|;
    s.state != Done && !s.link.streamsOpen && s.link.closes <= 1
    && i <= |Script()| == |ScriptDescriptions()|
    && s.link.written == Script()[..i]
    && (   (i == 0 && s.configureLog == base + [""])
        || s.configureLog == base + [StreamsReadyLine] + Lines(ScriptDescriptions()[..i]) + [""]
        || (i == |Script()| && s.configureLog == base + [StreamsReadyLine] + Lines(ScriptDescriptions()) + [DoneText]))
  }

  lemma LinesSnoc(ds: seq<string>, i: nat)
    requires i < |ds|
    ensures Lines(ds[..i + 1]) == Lines(ds[..i]) + [ds[i] + "\n"]
  {
    assert ds[..i + 1][..i] == ds[..i];
  }

  lemma SliceSplit<T>(xs: seq<T>, a: nat, b: nat)
    requires a <= b <= |xs|
    ensures xs[..b] == xs[..a] + xs[a..b]
  {
  }

  /** The head of a live sending session's queue is the next packet of the script. */
  lemma LiveHead(s: Session, base: seq<string>, sc: seq<seq<byte>>, sd: seq<string>)
    requires LiveOn(s, base, sc, sd) && IsSending(s.state)
    ensures |s.link.written| < |sc| == |sd|
    ensures s.packets[0] == sc[|s.link.written|]
    ensures s.descriptions[0] == sd[|s.link.written|]
    ensures sc[..|s.link.written| + 1] == s.link.written + [s.packets[0]]
    ensures Lines(sd[..|s.link.written| + 1]) == Lines(sd[..|s.link.written|]) + [s.descriptions[0] + "\n"]
  {
    var i := |s.link.written|;
    assert s.packets[0] == (s.link.written + s.packets)[i] == sc[i];
    assert sc[..i + 1] == (s.link.written + s.packets)[..i + 1];
    LinesSnoc(sd, i);
  }

  /**
   * Writing the head of a live session's queue, with the queues and the log
   * advanced by one, leaves a session that is live again; `t` is described by
   * its fields so that what else the tick did (draining the input) stays out.
   */
  lemma StayIsLive(s: Session, base: seq<string>, t: Session, sc: seq<seq<byte>>, sd: seq<string>)
    requires LiveOn(s, base, sc, sd) && IsSending(s.state) && |s.packets| > 1
    requires t.state == s.state && t.packets == s.packets[1..] && t.descriptions == s.descriptions[1..]
    requires t.link.written == s.link.written + [s.packets[0]]
    requires t.configureLog == s.configureLog + [s.descriptions[0] + "\n"]
    requires t.link.streamsOpen && t.link.closes == 0
    ensures LiveOn(t, base, sc, sd)
  {
    LiveHead(s, base, sc, sd);
    assert t.link.written + t.packets == s.link.written + s.packets;
  }

  /**
   * The same when the written packet was the last of its phase and the next
   * phase, which follows it in the script, is loaded.
   */
  lemma EnterIsLive(s: Session, base: seq<string>, t: Session, sc: seq<seq<byte>>, sd: seq<string>)
    requires LiveOn(s, base, sc, sd) && IsSending(s.state) && |s.packets| == 1
    requires IsSending(t.state) && PhaseStart(t.state) == PhaseEnd(s.state) && PhaseEnd(t.state) <= |sc|
    requires t.packets == sc[PhaseStart(t.state)..PhaseEnd(t.state)]
    requires t.descriptions == sd[PhaseStart(t.state)..PhaseEnd(t.state)]
    requires t.link.written == s.link.written + [s.packets[0]]
    requires t.configureLog == s.configureLog + [s.descriptions[0] + "\n"]
    requires t.link.streamsOpen && t.link.closes == 0
    ensures LiveOn(t, base, sc, sd)
  {
    LiveHead(s, base, sc, sd);
    SliceSplit(sc, PhaseStart(t.state), PhaseEnd(t.state));
  }

  /** A tick that writes a packet and stays in its phase keeps the session live. */
  lemma StayKeepsScript(s: Session, base: seq<string>)
    requires Live(s, base) && IsSending(s.state) && !s.link.writeFails && |s.packets| > 1
    ensures Step(s).1.After? && Live(Step(s).0, base)
  {
    SendStays(s);
    StayIsLive(s, base, Step(s).0, Script(), ScriptDescriptions());
  }

  /** A tick that writes the last packet of a phase and enters the next keeps the session live. */
  lemma EnterKeepsScript(s: Session, base: seq<string>)
    requires Live(s, base) && IsSending(s.state) && !s.link.writeFails && |s.packets| == 1
    requires NextPhase(s.state).Some?
    ensures Step(s).1.After? && Live(Step(s).0, base)
  {
    PhaseInScript(s.state);
    PhaseInScript(NextPhase(s.state).value);
    SendEnters(s);
    EnterIsLive(s, base, Step(s).0, Script(), ScriptDescriptions());
  }

  /** The tick that writes the last packet of the script ends the session with "Done!". */
  lemma FinishEndsScript(s: Session, base: seq<string>)
    requires Live(s, base) && IsSending(s.state) && !s.link.writeFails && |s.packets| == 1
    requires NextPhase(s.state).None?
    ensures Step(s).1.Idle? && Ended(Step(s).0, base)
    ensures Step(s).0.state == Neo7Save && Step(s).0.packets == []
    ensures Step(s).0.link.written == Script() && Step(s).0.link.closes == 1
    ensures Step(s).0.configureLog == base + [StreamsReadyLine] + Lines(ScriptDescriptions()) + [DoneText]
  {
    PhaseInScript(s.state);
    LiveHead(s, base, Script(), ScriptDescriptions());
    SendFinishes(s);
    var i := |s.link.written|;
    assert i + 1 == |Script()|;
    assert ScriptDescriptions()[..i + 1] == ScriptDescriptions();
    assert Script()[..i + 1] == Script();
  }

  /** A failed write ends a live session with its written packets still a prefix of the script. */
  lemma FailureEndsScript(s: Session, base: seq<string>)
    requires Live(s, base) && IsSending(s.state) && s.link.writeFails
    ensures Step(s).1.Idle? && Ended(Step(s).0, base)
  {
    LiveHead(s, base, Script(), ScriptDescriptions());
    var i := |s.link.written|;
    assert Script()[..i] == (s.link.written + s.packets)[..i];
  }

  /** The first tick of a fresh session starts the script, or ends the session if the streams fail. */
  lemma ConnectedStartsScript(s: Session, base: seq<string>)
    requires Live(s, base) && s.state == Connected
    ensures Step(s).1.After? ==> Live(Step(s).0, base)
    ensures Step(s).1.Idle? ==> Ended(Step(s).0, base)
  {
    PhaseInScript(Rn42Cmd9600);
    if !s.link.streamsFail {
      assert Script()[..PhaseEnd(Rn42Cmd9600)] == Script()[PhaseStart(Rn42Cmd9600)..PhaseEnd(Rn42Cmd9600)];
      assert ScriptDescriptions()[0..PhaseEnd(Rn42Cmd9600)] == DescriptionsFor(Rn42Cmd9600);
      assert Lines(ScriptDescriptions()[..0]) == [];
    } else {
      assert Script()[..0] == [];
    }
  }

  /** A tick of a live session leaves it live, or stopped as `Ended` describes. */
  lemma StepKeepsScript(s: Session, base: seq<string>)
    requires Live(s, base)
    ensures Step(s).1.After? ==> Live(Step(s).0, base)
    ensures Step(s).1.Idle? ==> Ended(Step(s).0, base)
  {
    if s.state == Connected {
      ConnectedStartsScript(s, base);
    } else if s.link.writeFails {
      FailureEndsScript(s, base);
    } else if |s.packets| > 1 {
      StayKeepsScript(s, base);
    } else if NextPhase(s.state).Some? {
      EnterKeepsScript(s, base);
    } else {
      FinishEndsScript(s, base);
    }
  }

  /** Between ticks only the inbound bytes and the write outcome change, which `Live` does not constrain. */
  lemma ArriveKeepsLive(s: Session, base: seq<string>, e: Env)
    requires Live(s, base)
    ensures Live(Arrive(s, e), base)
  {
  }

  /**
   * Whatever arrives and whichever writes fail, a run from a live session writes
   * only a prefix of the script, never reaches `Done`, and if it stops it has
   * closed the streams at most once, logging "Done!" only after the whole script.
   */
  lemma {:induction false} RunFollowsScript(s: Session, base: seq<string>, envs: seq<Env>)
    requires Live(s, base)
    ensures Run(s, envs).stopped ==> Ended(Run(s, envs).last, base)
    ensures !Run(s, envs).stopped ==> Live(Run(s, envs).last, base)
    decreases |envs|
  {
    if envs != [] {
      ArriveKeepsLive(s, base, envs[0]);
      StepKeepsScript(Arrive(s, envs[0]), base);
      var r := Step(Arrive(s, envs[0]));
      if r.1.After? {
        RunFollowsScript(r.0, base, envs[1..]);
      }
    }
  }

  /** The same, from the session a connect creates. */
  lemma SessionFollowsScript(s: Session, envs: seq<Env>)
    requires Fresh(s)
    ensures Ready(s)
    ensures var t := Run(s, envs);
      t.last.state != Done
      && |t.last.link.written| <= |Script()|
      && t.last.link.written == Script()[..|t.last.link.written|]
      && t.last.link.closes <= 1
      && (t.stopped ==> !t.last.link.streamsOpen)
      && (t.stopped ==>
            |t.last.configureLog| > 0
            && (t.last.configureLog[|t.last.configureLog| - 1] == DoneText ==> t.last.link.written == Script()))
  {
    var t := Run(s, envs);
    RunFollowsScript(s, s.configureLog, envs);
    PhaseInScript(Rn42Cmd9600);
    if !t.stopped {
      var i := |t.last.link.written|;
      if IsSending(t.last.state) {
        assert t.last.link.written == (t.last.link.written + t.last.packets)[..i];
      }
    } else {
      assert DoneText != "";
    }
  }

  /** How many ticks a live session has run: one per packet written, plus the stream set-up. */
  function Progress(s: Session): nat {
    if s.state == Connected then 0 else |s.link.written| + 1
  }

  /**
   * When nothing fails, a tick of a live session either leaves it live one tick
   * further on, or, on the last packet, ends it having written the whole script.
   */
  lemma StepProgress(s: Session, base: seq<string>)
    requires Live(s, base) && !s.link.streamsFail && !s.link.writeFails
    ensures Progress(s) <= |Script()|
    ensures Progress(s) < |Script()| ==>
      Step(s).1.After?
      && Live(Step(s).0, base) && Progress(Step(s).0) == Progress(s) + 1
      && !Step(s).0.link.streamsFail
    ensures Progress(s) == |Script()| ==>
      Step(s).1 == Idle && Step(s).0.state == Neo7Save && Step(s).0.packets == []
      && Step(s).0.link.written == Script() && Step(s).0.link.closes == 1 && !Step(s).0.link.streamsOpen
      && Step(s).0.configureLog == base + [StreamsReadyLine] + Lines(ScriptDescriptions()) + [DoneText]
  {
    PhaseInScript(Rn42Cmd9600);
    if s.state == Connected {
      ConnectedStartsScript(s, base);
    } else {
      var st := s.state;
      var i := |s.link.written|;
      PhaseInScript(st);
      assert |s.packets| == PhaseEnd(st) - i by {
        assert |s.link.written + s.packets| == PhaseEnd(st);
      }
      if |s.packets| > 1 {
        StayKeepsScript(s, base);
        SendStays(s);
      } else if NextPhase(st).Some? {
        EnterKeepsScript(s, base);
        SendEnters(s);
      } else {
        FinishEndsScript(s, base);
      }
    }
  }

  /** ... and the delay it schedules is the next one of a complete session. */
  lemma StepDelay(s: Session, base: seq<string>)
    requires Live(s, base) && !s.link.streamsFail && !s.link.writeFails
    requires Progress(s) < ScheduledTicks
    ensures Step(s).1 == After(ScheduledDelay(Progress(s)))
  {
    if s.state == Connected {
      PhaseInScript(Rn42Cmd9600);
      ScheduleMatchesPhases(Rn42Cmd9600);
      ConnectedStartsScript(s, base);
    } else {
      SendingDelay(s, base);
    }
  }

  /** A live sending tick sits inside its phase with the rest of the phase still queued. */
  lemma SendingDelay(s: Session, base: seq<string>)
    requires Live(s, base) && IsSending(s.state) && !s.link.writeFails
    requires Progress(s) < ScheduledTicks
    ensures Step(s).1 == After(ScheduledDelay(Progress(s)))
  {
    assert |s.packets| == PhaseEnd(s.state) - |s.link.written| by {
      assert |s.link.written + s.packets| == PhaseEnd(s.state);
    }
    PositionDelay(s);
  }

  /**
   * The delay a sending tick schedules depends only on its position: inside a
   * phase it is the stay delay, on a phase's last packet the next phase's entry
   * delay, and either way it is the script's delay at the next position.
   */
  lemma PositionDelay(s: Session)
    requires Ready(s) && IsSending(s.state) && !s.link.writeFails
    requires PhaseStart(s.state) <= |s.link.written| < PhaseEnd(s.state)
    requires |s.link.written| + 1 < ScheduledTicks
    requires |s.packets| == PhaseEnd(s.state) - |s.link.written|
    ensures Step(s).1 == After(ScheduledDelay(|s.link.written| + 1))
  {
    ScheduleMatchesPhases(s.state);
    if |s.packets| > 1 {
      SendStays(s);
    } else {
      SendEnters(s);
    }
  }

  /**
   * When no write fails and the streams can be set up, a live session runs the
   * rest of the script to the end: it writes all seven packets, logs each
   * description, logs "Done!", closes the streams once and stops.
   */
  lemma {:induction false} CompleteRun(s: Session, base: seq<string>, envs: seq<Env>)
    requires Live(s, base) && !s.link.streamsFail
    requires Progress(s) + |envs| > |Script()|
    requires WritesSucceed(envs)
    ensures var t := Run(s, envs);
      t.stopped
      && t.last.state == Neo7Save && t.last.packets == []
      && t.last.link.written == Script()
      && t.last.configureLog == base + [StreamsReadyLine] + Lines(ScriptDescriptions()) + [DoneText]
      && t.last.link.closes == 1 && !t.last.link.streamsOpen
    decreases |envs|
  {
    var a := Arrive(s, envs[0]);
    ArriveKeepsLive(s, base, envs[0]);
    assert !a.link.writeFails && Progress(a) == Progress(s);
    StepProgress(a, base);
    var r := Step(a);
    if Progress(s) < |Script()| {
      WritesSucceedTail(envs);
      CompleteRun(r.0, base, envs[1..]);
    }
    RunUnfold(s, envs);
  }

  /**
   * One tick of a session that nothing fails, counted against the schedule of a
   * complete session: before the last tick it moves on by one and schedules
   * the next delay of that schedule; the last tick schedules nothing.
   */
  lemma StepAdvances(s: Session, base: seq<string>)
    requires Live(s, base) && !s.link.streamsFail && !s.link.writeFails
    ensures Progress(s) <= ScheduledTicks
    ensures Progress(s) < ScheduledTicks ==>
      Step(s).1 == After(ScheduledDelay(Progress(s)))
      && Live(Step(s).0, base) && Progress(Step(s).0) == Progress(s) + 1 && !Step(s).0.link.streamsFail
    ensures Progress(s) == ScheduledTicks ==> Step(s).1 == Idle
  {
    ScheduleMatchesPhases(Rn42Cmd9600);
    StepProgress(s, base);
    if Progress(s) < ScheduledTicks {
      StepDelay(s, base);
    }
  }

  /** ... and on the way it schedules the rest of 0, 2000, 2000, 5000, 2000, 2000, 5000 ms. */
  lemma {:induction false} RunDelays(s: Session, base: seq<string>, envs: seq<Env>)
    requires Live(s, base) && !s.link.streamsFail
    requires Progress(s) + |envs| > ScheduledTicks
    requires WritesSucceed(envs)
    ensures Run(s, envs).delays == DelaysFrom(Progress(s))
    decreases |envs|
  {
    var a := Arrive(s, envs[0]);
    ArriveKeepsLive(s, base, envs[0]);
    assert !a.link.writeFails && Progress(a) == Progress(s);
    StepAdvances(a, base);
    RunUnfold(s, envs);
    if Progress(s) < ScheduledTicks {
      WritesSucceedTail(envs);
      RunDelays(Step(a).0, base, envs[1..]);
    }
  }

  lemma WritesSucceedTail(envs: seq<Env>)
    requires envs != [] && WritesSucceed(envs)
    ensures WritesSucceed(envs[1..])
  {
    forall i | 0 <= i < |envs| - 1 ensures !envs[1..][i].writeFails {
      assert envs[1..][i] == envs[i + 1];
    }
  }

  /**
   * A whole session with no failures: eight ticks write the script, log
   * "Successfully setup input and output streams." and each description, then
   * "Done!", and schedule 0, 2000, 2000, 5000, 2000, 2000 and 5000 ms.
   */
  lemma HappySession(s: Session, envs: seq<Env>)
    requires Fresh(s) && !s.link.streamsFail && |envs| == 8
    requires WritesSucceed(envs)
    ensures Ready(s)
    ensures var t := Run(s, envs);
      t.stopped && t.delays == [0, 2000, 2000, 5000, 2000, 2000, 5000]
      && t.last.link.written == [CommandMode(), TempBaud9600(), CfgPrtLiteral, CommandMode(),
                                 PermBaud38400(), TempBaud38400(), CfgCfgLiteral]
      && t.last.configureLog == s.configureLog + [StreamsReadyLine] + Lines(ScriptDescriptions()) + [DoneText]
      && t.last.link.closes == 1 && !t.last.link.streamsOpen
  {
    var t := Run(s, envs);
    PhaseInScript(Rn42Cmd9600);
    assert t.delays == DelaysFrom(0) by {
      ScheduleMatchesPhases(Rn42Cmd9600);
      RunDelays(s, s.configureLog, envs);
    }
    CompleteRun(s, s.configureLog, envs);
    DelaysOfASession();
    ScriptContents();
  }

  /** The delays of a complete session, in milliseconds. */
  lemma DelaysOfASession()
    ensures DelaysFrom(0) == [0, 2000, 2000, 5000, 2000, 2000, 5000]
  {
  }

  /**
   * Connecting again does not clear the queues: packets left behind by a failed
   * session are written before the new session's first packet.
   */
  lemma LeftoverPacketsGoFirst(s: Session)
    requires Ready(s) && s.state == Connected && !s.link.streamsFail && !s.link.writeFails
    requires |s.packets| > 0
    ensures Step(s).1 == After(0)
    ensures Step(Step(s).0).0.link.written == s.link.written + [s.packets[0]]
  {
    ConnectedTick(s);
    SendStays(Step(s).0);
  }

  // ---- The activity object ----

  /** The fields of the activity that `configureRunnable` reads and updates. */
  class Configurator {
    var state: State
    var packets: seq<seq<byte>>
    var descriptions: seq<string>
    var configureLog: seq<string>
    var resultLog: seq<seq<byte>>
    const link: Link

    ghost function Model(): Session
      reads this, link
    {
      Session(state, packets, descriptions, configureLog, resultLog, link.Value())
    }

    /** The activity as `connectRunnable` leaves it: connected, with empty queues. */
    constructor(link: Link, configureLog: seq<string>)
      ensures this.link == link
      ensures Model() == Session(Connected, [], [], configureLog, [], link.Value())
    {
      this.state := Connected;
      this.packets := [];
      this.descriptions := [];
      this.configureLog := configureLog;
      this.resultLog := [];
      this.link := link;
    }

    /** `readStream`, logging each read as the bytes it returned. */
    method ReadStream()
      modifies this`resultLog, link`inbound
      ensures Model() == Drain(old(Model()))
    {
      var buffer := new byte[ReadBufferSize];
      ghost var pending := link.inbound;
      var ok, available := link.Available();
      if !ok || available <= 0 {
        return;
      }
      var read;
      ok, read := link.ReadInto(buffer);
      while read > 0
        invariant 0 < read <= buffer.Length == ReadBufferSize
        invariant !link.readFails
        invariant old(resultLog) + Chunks(pending, ReadBufferSize)
               == resultLog + [buffer[..read]] + Chunks(link.inbound, ReadBufferSize)
        decreases |link.inbound|
      {
        resultLog := resultLog + [buffer[..read]];
        ok, available := link.Available();
        if available <= 0 {
          break;
        }
        ok, read := link.ReadInto(buffer);
      }
      assert link.inbound == [];
    }

    /** `closeSocketsAndStreams`. */
    method CloseSocketsAndStreams()
      modifies link`streamsOpen, link`closes
      ensures Model() == CloseStreams(old(Model()))
    {
      link.CloseStreams();
    }

    /** One run of `configureRunnable`; returns the delay it posts itself with, if any. */
    method Tick() returns (next: Schedule)
      requires Ready(Model())
      modifies this, link
      ensures (Model(), next) == Step(old(Model()))
    {
      if state == Connected {
        var ok := link.OpenStreams();
        if !ok {
          configureLog := configureLog + [""];
          return Idle;
        }
        configureLog := configureLog + [StreamsReadyLine];
        packets := packets + PacketsFor(Rn42Cmd9600);
        descriptions := descriptions + DescriptionsFor(Rn42Cmd9600);
        state := Rn42Cmd9600;
        return After(0);
      } else if state == Done {
        ReadStream();
        return After(DonePollMs);
      }
      next := SendHead();
    }

    /** The sending states' branch of a tick: drain, pop the head packet, write it and log it. */
    method SendHead() returns (next: Schedule)
      requires Ready(Model()) && IsSending(state)
      modifies this, link
      ensures (Model(), next) == Send(old(Model()))
    {
      ReadStream();
      var packet := packets[0];
      var description := descriptions[0];
      packets := packets[1..];
      descriptions := descriptions[1..];
      var ok := link.Write(packet);
      if !ok {
        configureLog := configureLog + [""];
        CloseSocketsAndStreams();
        return Idle;
      }
      configureLog := configureLog + [description + "\n"];
      next := LoadNextPhase();
    }

    /** After a write: stay in the phase, load the next phase's packets, or finish. */
    method LoadNextPhase() returns (next: Schedule)
      requires |packets| == |descriptions|
      modifies this, link
      ensures (Model(), next) == AfterWrite(old(Model()))
    {
      if |packets| > 0 {
        return After(StayDelayMs);
      }
      match NextPhase(state)
      case Some(n) =>
        packets := packets + PacketsFor(n);
        descriptions := descriptions + DescriptionsFor(n);
        state := n;
        return After(EntryDelayMs(n));
      case None =>
        CloseSocketsAndStreams();
        configureLog := configureLog + [DoneText];
        return Idle;
    }
  }
}
