# QEDConfigurator sequencer, modelled in Dafny

QEDConfigurator is an Android app that configures a QED GNSS unit. The unit is an
RN-42 serial-to-Bluetooth bridge with a u-blox NEO-7 receiver wired behind it.
Everything the app does lives in one activity, `ConfigureActivity`.

1. It connects to the first paired Bluetooth device, retrying every 5 s.
2. A timed state machine then writes a fixed script of packets to the link:
   - the RN-42 ASCII commands ("$$$" to enter command mode, `U,` for a temporary
     baud rate, `SU,` for a permanent one);
   - two hand-written UBX frames (UBX-CFG-PRT: UART1 to 38400 baud; UBX-CFG-CFG:
     save to battery-backed RAM and Flash).
3. Before each write it drains whatever the bridge has sent back.

The model has six modules besides `Wrappers` (wrappers.dfy, the `Option` type).

- `Bytes` (bytes.dfy): octets, ASCII encoding, and the little-endian fields of
  UBX payloads.
- `Ubx` (ubx.dfy): UBX framing as described in the "UBX Packet Structure" and
  "UBX Checksum" sections of the u-blox 7 Receiver Description. It gives the
  8-bit Fletcher checksum, `Frame` and `Parse` (proved inverse), and a closed
  form of the checksum.
- `Catalog` (catalog.dfy):
  - the states;
  - the delays;
  - the packets each phase queues;
  - the two frame literals exactly as the source spells them, proved to be the
    framing of their decoded payloads with correct checksums;
  - how the phases tile the complete script.
- `Transport` (transport.dfy): the socket's streams as a `Link` object. It has
  pending inbound bytes, the packets written so far, and failure flags.
- `Sequencer` (sequencer.dfy):
  - `readStream`, `closeSocketsAndStreams` and `configureRunnable` as pure
    functions over a `Session` value (`Drain`, `CloseStreams`, `Step`);
  - the same code as methods of a `Configurator` class, whose fields are the
    activity's. Its methods are proved to leave the fields exactly as those
    functions say;
  - runs of ticks, with lemmas about them.
- `Connect` (connect.dfy): `startConfiguration` and `connectRunnable` as pure
  functions. The Bluetooth stack's answers are their inputs.

The main results are these.

- Both frames are self-consistent.
- The queues stay in step.
- Every run from a fresh session (state CONNECTED, empty queues, a new socket)
  writes only a prefix of the script and closes the streams at most once. A run
  that starts with packets left in the queues writes those first
  (`LeftoverPacketsGoFirst`).
- A complete run (8 ticks) from a fresh session in which the streams open and
  no write fails writes exactly the seven packets in order and schedules 0,
  2000, 2000, 5000, 2000, 2000 and 5000 ms.
- `Drain`, the corrected `readStream` that logs only the bytes each read
  returned, moves every received byte to the log exactly once. The source as
  written does not: it logs the whole 256-byte buffer after every read (see
  "## Findings").
- Connecting stops retrying at the first attempt that does not ask for a retry.
  A successful connect runs the sequencer on the new socket, so reconnecting
  after a session that emptied its queues writes the whole script again when
  nothing fails (the streams open and every write succeeds).

Notes on what the code does, which the model follows.

- Error messages are built with `message.format(...)`. `String.format` is
  static and its result is discarded, so every error appends an empty string to
  the configure text: an empty entry in the model's log, adding no text and no
  newline, where a message naming the failed packet was evidently meant.
- The last phase, NEO7_SAVE, closes the streams and logs "Done!" when its queue
  empties. It never enters DONE (the transition is commented out at line 277),
  so DONE's 500 ms poll is modelled but unreachable.
- The queues are never cleared. Packets left by a failed session are sent first
  by the next one (`LeftoverPacketsGoFirst`).
- The CONNECTED tick posts the next tick at once (0 ms), not after a delay.
- Only a failed socket connect clears `_device` and `_socket`. Finding no paired
  device leaves them as they were.

## Model

| member | source | states |
|---|---|---|
| Bytes.Ascii | app/src/main/java/info/n_tuple/qedconfigurator/ConfigureActivity.java:238-240 | `String.getBytes()` of an ASCII command yields one octet per character, each the character's code |
| Bytes.LE16RoundTrip | app/src/main/java/info/n_tuple/qedconfigurator/ConfigureActivity.java:271 | the 16-bit little-endian length field (0x14 0x00 for 20) decodes and re-encodes to the same two bytes |
| Bytes.LE32RoundTrip | app/src/main/java/info/n_tuple/qedconfigurator/ConfigureActivity.java:271-272 | a 32-bit little-endian payload field (the baud rate 0x00 0x96 0x00 0x00 at 38400) decodes back to the number encoded |
| Ubx.ChecksumUpToClosedForm | app/src/main/java/info/n_tuple/qedconfigurator/ConfigureActivity.java:273 | the byte-by-byte 8-bit Fletcher running sums CK_A/CK_B equal the plain byte sum and the position-weighted sum, each reduced modulo 256 once |
| Ubx.Checksum | app/src/main/java/info/n_tuple/qedconfigurator/ConfigureActivity.java:273 | the CK_A/CK_B of a whole body, in closed form: its byte sum and its sum of bytes weighted by their distance from the end, each modulo 256 |
| Ubx.Body | app/src/main/java/info/n_tuple/qedconfigurator/ConfigureActivity.java:271 | the bytes the checksum covers are class, id, the 2-byte length and the payload: 4 + payload length |
| Ubx.Frame | app/src/main/java/info/n_tuple/qedconfigurator/ConfigureActivity.java:270-273 | a frame is 8 + payload length bytes, starts with sync chars 0xB5 0x62, carries class, id and the little-endian payload length, then the payload, and ends with CK_A/CK_B of class..payload |
| Ubx.Parse | app/src/main/java/info/n_tuple/qedconfigurator/ConfigureActivity.java:270-273 | an accepted byte string has a payload of its length minus 8 and a payload that fits the length field |
| Ubx.ParseFrame | app/src/main/java/info/n_tuple/qedconfigurator/ConfigureActivity.java:270-273 | parsing a framed message gives that message back |
| Ubx.FrameParse | app/src/main/java/info/n_tuple/qedconfigurator/ConfigureActivity.java:270-273 | every accepted byte string is exactly the framing of the message parsed from it (the two are inverses) |
| Catalog.CommandMode | app/src/main/java/info/n_tuple/qedconfigurator/ConfigureActivity.java:238 | "$$$" is the three bytes 0x24 0x24 0x24 |
| Catalog.TempBaud9600 | app/src/main/java/info/n_tuple/qedconfigurator/ConfigureActivity.java:240 | "U,9600,N\r" is 9 bytes starting with 'U' and ending with a carriage return |
| Catalog.PermBaud38400 | app/src/main/java/info/n_tuple/qedconfigurator/ConfigureActivity.java:311 | "SU,38400\r" is 9 bytes starting with "SU," and ending with a carriage return |
| Catalog.TempBaud38400 | app/src/main/java/info/n_tuple/qedconfigurator/ConfigureActivity.java:314 | "U,38.4,N\r" is 9 bytes starting with 'U' and ending with a carriage return |
| Catalog.EncodePortConfig | app/src/main/java/info/n_tuple/qedconfigurator/ConfigureActivity.java:271-273 | a UART port configuration encodes to the 20-byte CFG-PRT payload |
| Catalog.DecodePortConfig | app/src/main/java/info/n_tuple/qedconfigurator/ConfigureActivity.java:271-273 | any 20-byte payload decodes to field values that fit their widths |
| Catalog.PortConfigRoundTrip | app/src/main/java/info/n_tuple/qedconfigurator/ConfigureActivity.java:271-273 | decoding an encoded port configuration gives it back |
| Catalog.EncodeSaveRequest | app/src/main/java/info/n_tuple/qedconfigurator/ConfigureActivity.java:349-351 | a save request encodes to the 13-byte CFG-CFG payload (clear, save and load masks, device mask) |
| Catalog.DecodeSaveRequest | app/src/main/java/info/n_tuple/qedconfigurator/ConfigureActivity.java:349-351 | any 13-byte payload decodes to masks that fit 32 bits |
| Catalog.SaveRequestRoundTrip | app/src/main/java/info/n_tuple/qedconfigurator/ConfigureActivity.java:349-351 | decoding an encoded save request gives it back |
| Catalog.CfgPrtLayout | app/src/main/java/info/n_tuple/qedconfigurator/ConfigureActivity.java:270-273 | the CFG-PRT bytes are the header B5 62 06 00 14 00, the encoding of UART1 at 38400 baud 8N1 with UBX+NMEA+RTCM in and UBX+NMEA out, and 93 90 |
| Catalog.CfgPrtChecksumLeg1 | app/src/main/java/info/n_tuple/qedconfigurator/ConfigureActivity.java:271 | over any 24-byte CFG-PRT body starting 06 00 14 00 01 00 00 00 (class, id, length, start of payload), the running checksum after 8 bytes is (0x1B, 0xAC) |
| Catalog.CfgPrtChecksumLeg2 | app/src/main/java/info/n_tuple/qedconfigurator/ConfigureActivity.java:272 | continuing from there over D0 08 00 00 00 96 00 00, the running checksum after 16 bytes is (0x89, 0xFE) |
| Catalog.CfgPrtChecksumLeg3 | app/src/main/java/info/n_tuple/qedconfigurator/ConfigureActivity.java:272-273 | continuing over 07 00 03 00 00 00 00 00, the checksum of the whole body is (0x93, 0x90) |
| Catalog.CfgPrtRunningChecksum | app/src/main/java/info/n_tuple/qedconfigurator/ConfigureActivity.java:270-273 | the checksum over all 24 bytes from class to payload is (0x93, 0x90), the last two bytes of the literal |
| Catalog.CfgPrtLiteralIsFrame | app/src/main/java/info/n_tuple/qedconfigurator/ConfigureActivity.java:270-273 | the CFG-PRT literal starts 0xB5 0x62, has a length field of 20 and 28 bytes in all, is exactly Frame(class 0x06, id 0x00, port configuration), is accepted by the parser, and reads back a baud rate of 38400 |
| Catalog.CfgCfgLayout | app/src/main/java/info/n_tuple/qedconfigurator/ConfigureActivity.java:348-351 | the CFG-CFG bytes are the header B5 62 06 09 0D 00, the encoding of "save all sections to BBR and Flash", and 1D AB |
| Catalog.CfgCfgChecksumLeg1 | app/src/main/java/info/n_tuple/qedconfigurator/ConfigureActivity.java:349 | over any 17-byte CFG-CFG body starting 06 09 0D 00 00 00, the running checksum after 6 bytes is (0x1C, 0x85) |
| Catalog.CfgCfgChecksumLeg2 | app/src/main/java/info/n_tuple/qedconfigurator/ConfigureActivity.java:349-350 | continuing from there over 00 00 FF FF 00 00, the running checksum after 12 bytes is (0x1A, 0x26) |
| Catalog.CfgCfgChecksumLeg3 | app/src/main/java/info/n_tuple/qedconfigurator/ConfigureActivity.java:350 | continuing over 00 00 00 00 03, the checksum of the whole body is (0x1D, 0xAB) |
| Catalog.CfgCfgRunningChecksum | app/src/main/java/info/n_tuple/qedconfigurator/ConfigureActivity.java:348-351 | the checksum over all 17 bytes from class to payload is (0x1D, 0xAB), the last two bytes of the literal |
| Catalog.CfgCfgLiteralIsFrame | app/src/main/java/info/n_tuple/qedconfigurator/ConfigureActivity.java:348-351 | the CFG-CFG literal starts 0xB5 0x62, has a length field of 13 and 21 bytes in all, is exactly Frame(class 0x06, id 0x09, save request), is accepted by the parser, and reads back device mask BBR|Flash |
| Catalog.PacketsFor | app/src/main/java/info/n_tuple/qedconfigurator/ConfigureActivity.java:237-352 | a state queues packets on entry exactly when it is a sending state |
| Catalog.DescriptionsFor | app/src/main/java/info/n_tuple/qedconfigurator/ConfigureActivity.java:237-352 | every queued packet gets exactly one description |
| Catalog.NextPhase | app/src/main/java/info/n_tuple/qedconfigurator/ConfigureActivity.java:269-386 | only sending states advance, always to a sending state; the only sending state with no successor is NEO7_SAVE, which ends the session instead of entering DONE |
| Catalog.EntryDelayMs | app/src/main/java/info/n_tuple/qedconfigurator/ConfigureActivity.java:278 | the wait before a phase's first tick is positive exactly for the phases entered from another phase (2000 ms for NEO7_BAUD, 5000 ms at lines 319 and 355), never shorter than the 2000 ms between packets; the first phase starts at once |
| Catalog.ScriptContents | app/src/main/java/info/n_tuple/qedconfigurator/ConfigureActivity.java:237-352 | the whole script is "$$$", "U,9600,N\r", CFG-PRT, "$$$", "SU,38400\r", "U,38.4,N\r", CFG-CFG |
| Catalog.PhaseInScript | app/src/main/java/info/n_tuple/qedconfigurator/ConfigureActivity.java:237-352 | the four phases tile the script in order: each phase's packets and descriptions sit where the previous phase ends, the first phase at 0 and the last ending the script |
| Catalog.ScheduleMatchesPhases | app/src/main/java/info/n_tuple/qedconfigurator/ConfigureActivity.java:244-388 | a complete session schedules 0 ms after the stream set-up, 2000 ms while staying in a phase, and the entry delay (2000, 5000, 5000 ms) of each phase it enters |
| Transport.Chunks | app/src/main/java/info/n_tuple/qedconfigurator/ConfigureActivity.java:116-130 | the successive reads of `readStream`: every read returns 1 to 256 bytes and only the last may be short |
| Transport.ChunksFlatten | app/src/main/java/info/n_tuple/qedconfigurator/ConfigureActivity.java:116-130 | reads of at most 256 bytes, put back together, are exactly the pending bytes |
| Transport.Link.constructor | app/src/main/java/info/n_tuple/qedconfigurator/ConfigureActivity.java:181-185 | a freshly connected socket: nothing written, streams not set up, never closed |
| Transport.Link.Available | app/src/main/java/info/n_tuple/qedconfigurator/ConfigureActivity.java:113 | `available()` returns the number of pending bytes, or fails |
| Transport.Link.ReadInto | app/src/main/java/info/n_tuple/qedconfigurator/ConfigureActivity.java:116 | `read(buffer, 0, 256)` copies up to 256 pending bytes into the front of the buffer, leaves the rest of the buffer as it was, returns how many, and consumes them |
| Transport.Link.Write | app/src/main/java/info/n_tuple/qedconfigurator/ConfigureActivity.java:257 | a write appends the packet to what the peer has received, or fails and appends nothing |
| Transport.Link.OpenStreams | app/src/main/java/info/n_tuple/qedconfigurator/ConfigureActivity.java:220-222 | getting the streams opens them unless it fails |
| Transport.Link.CloseStreams | app/src/main/java/info/n_tuple/qedconfigurator/ConfigureActivity.java:142-146 | closing the streams leaves them closed and counts one close |
| Sequencer.Drain | app/src/main/java/info/n_tuple/qedconfigurator/ConfigureActivity.java:108-135 | `readStream` with each read logged as the bytes it returned: nothing but the result log and the pending bytes changes, a failing stream changes nothing, otherwise every pending byte is read |
| Sequencer.CloseStreams | app/src/main/java/info/n_tuple/qedconfigurator/ConfigureActivity.java:137-152 | the streams end up closed and one close is counted; nothing else of the session or the transport changes |
| Sequencer.DrainKeepsBytes | app/src/main/java/info/n_tuple/qedconfigurator/ConfigureActivity.java:108-135 | draining loses, duplicates and reorders no byte (result log followed by pending bytes is unchanged), keeps earlier log entries, and logs reads of 1 to 256 bytes |
| Sequencer.Zeros | app/src/main/java/info/n_tuple/qedconfigurator/ConfigureActivity.java:109 | a fresh `new byte[256]` is all zeros |
| Sequencer.PaddedBlocks | app/src/main/java/info/n_tuple/qedconfigurator/ConfigureActivity.java:121-134 | as written, each read appends a whole 256-byte buffer, one per read |
| Sequencer.DrainAsWritten | app/src/main/java/info/n_tuple/qedconfigurator/ConfigureActivity.java:108-135 | `readStream` as written changes only the result log and the pending bytes |
| Sequencer.PaddedBlocksExactness | app/src/main/java/info/n_tuple/qedconfigurator/ConfigureActivity.java:121-134 | as written, the log matches the bytes received only when they fill whole 256-byte buffers, and holds more bytes otherwise |
| Sequencer.ShortReadIsPadded | app/src/main/java/info/n_tuple/qedconfigurator/ConfigureActivity.java:123-124 | one pending byte 0x41 is logged as 0x41 and 255 zero bytes as written, but as 0x41 alone by `Drain` |
| Sequencer.Step | app/src/main/java/info/n_tuple/qedconfigurator/ConfigureActivity.java:216-396 | one tick keeps the two queues in step, leaves a sending state with a packet to send whenever it schedules another tick, never enters or leaves DONE, writes nothing or exactly the head packet, and closes the streams at most once, only when it schedules nothing |
| Sequencer.Send | app/src/main/java/info/n_tuple/qedconfigurator/ConfigureActivity.java:247-267 | a sending tick drains the input first; the head packet leaves the queue whether or not its write succeeds, the rest keep their order; a successful write appends exactly the head packet and logs its description; a failed one writes nothing, logs an empty entry, closes the streams once, keeps the state and stops |
| Sequencer.AfterWrite | app/src/main/java/info/n_tuple/qedconfigurator/ConfigureActivity.java:269-282 | after a write: nothing more is written or read; the session stops exactly when the last phase (NEO7_SAVE) has emptied its queue, closing the streams and logging "Done!"; otherwise the link and log are untouched, the state stays a sending one with a packet queued, and the next tick waits at least 2000 ms |
| Sequencer.SendStays | app/src/main/java/info/n_tuple/qedconfigurator/ConfigureActivity.java:247-283 | a successful write with packets left pops exactly the head of both queues, writes it, logs its description and a newline, keeps the state, and waits 2000 ms |
| Sequencer.SendEnters | app/src/main/java/info/n_tuple/qedconfigurator/ConfigureActivity.java:269-282 | a successful write of a phase's last packet loads the next phase's packets and descriptions, enters that phase, and waits its entry delay |
| Sequencer.SendFinishes | app/src/main/java/info/n_tuple/qedconfigurator/ConfigureActivity.java:383-386 | a successful write of the last packet in NEO7_SAVE closes the streams, logs "Done!", stays in NEO7_SAVE and schedules nothing |
| Sequencer.WriteFailureStops | app/src/main/java/info/n_tuple/qedconfigurator/ConfigureActivity.java:256-266 | a failed write has already dequeued the packet, writes nothing, logs an empty entry (no text) instead of the description, keeps the state, closes the streams once and schedules nothing |
| Sequencer.ConnectedTick | app/src/main/java/info/n_tuple/qedconfigurator/ConfigureActivity.java:217-245 | the CONNECTED tick opens the streams, logs the success line, appends the first phase's packets to whatever is queued, enters RN42_CMD_9600 and posts at once; if the streams fail it logs an empty entry (no text) and stops |
| Sequencer.StepKeepsBytes | app/src/main/java/info/n_tuple/qedconfigurator/ConfigureActivity.java:248 | with the corrected read, no tick loses or reorders a received byte |
| Sequencer.Run | app/src/main/java/info/n_tuple/qedconfigurator/ConfigureActivity.java:216-396 | a run schedules at most one delay per tick and stops before its ticks run out only when a tick schedules nothing |
| Sequencer.LiveHead | app/src/main/java/info/n_tuple/qedconfigurator/ConfigureActivity.java:250-251 | the head of a live session's queues is the next packet of the script and its description |
| Sequencer.StayIsLive | app/src/main/java/info/n_tuple/qedconfigurator/ConfigureActivity.java:250-281 | popping and writing a head packet that is not the last of its phase keeps the session on the script |
| Sequencer.EnterIsLive | app/src/main/java/info/n_tuple/qedconfigurator/ConfigureActivity.java:269-278 | writing the last packet of a phase and loading the next phase keeps the session on the script |
| Sequencer.StayKeepsScript | app/src/main/java/info/n_tuple/qedconfigurator/ConfigureActivity.java:247-283 | a tick that stays in its phase keeps the session on the script |
| Sequencer.EnterKeepsScript | app/src/main/java/info/n_tuple/qedconfigurator/ConfigureActivity.java:269-355 | a tick that enters the next phase keeps the session on the script |
| Sequencer.FinishEndsScript | app/src/main/java/info/n_tuple/qedconfigurator/ConfigureActivity.java:383-386 | the tick that writes the last packet ends the session having written the whole script, logged every description and "Done!", and closed the streams once |
| Sequencer.FailureEndsScript | app/src/main/java/info/n_tuple/qedconfigurator/ConfigureActivity.java:256-266 | a failed write ends the session having written a prefix of the script and logged an empty entry (no text) |
| Sequencer.ConnectedStartsScript | app/src/main/java/info/n_tuple/qedconfigurator/ConfigureActivity.java:217-245 | the first tick of a fresh session starts the script, or ends the session when the streams fail |
| Sequencer.StepKeepsScript | app/src/main/java/info/n_tuple/qedconfigurator/ConfigureActivity.java:216-396 | every tick of a session on the script keeps it on the script or ends it in one of the three ways described by `Ended` |
| Sequencer.ArriveKeepsLive | app/src/main/java/info/n_tuple/qedconfigurator/ConfigureActivity.java:108-135 | bytes arriving and write outcomes changing between ticks do not take a session off the script |
| Sequencer.RunFollowsScript | app/src/main/java/info/n_tuple/qedconfigurator/ConfigureActivity.java:216-396 | whatever arrives and whichever writes fail, a run writes only a prefix of the script, never reaches DONE, closes the streams at most once and only when it stops, and logs "Done!" only after the whole script |
| Sequencer.SessionFollowsScript | app/src/main/java/info/n_tuple/qedconfigurator/ConfigureActivity.java:216-396 | the same for a run that starts from a fresh connection |
| Sequencer.StepProgress | app/src/main/java/info/n_tuple/qedconfigurator/ConfigureActivity.java:247-389 | when nothing fails, each tick advances the session by exactly one packet on the script, and the tick after the last packet ends it having written the whole script |
| Sequencer.StepDelay | app/src/main/java/info/n_tuple/qedconfigurator/ConfigureActivity.java:244-388 | when nothing fails, each tick schedules the delay a complete session schedules at that point |
| Sequencer.SendingDelay | app/src/main/java/info/n_tuple/qedconfigurator/ConfigureActivity.java:269-388 | a live sending tick before the end of the script schedules the delay a complete session schedules at its position |
| Sequencer.PositionDelay | app/src/main/java/info/n_tuple/qedconfigurator/ConfigureActivity.java:269-388 | a successful sending tick that leaves packets of its phase queued asks for 2000 ms; one that writes the phase's last packet asks for the next phase's entry delay; both equal the script's delay at the next position |
| Sequencer.DelaysOfASession | app/src/main/java/info/n_tuple/qedconfigurator/ConfigureActivity.java:244-388 | the delays of a complete session are 0, 2000, 2000, 5000, 2000, 2000 and 5000 ms |
| Sequencer.StepAdvances | app/src/main/java/info/n_tuple/qedconfigurator/ConfigureActivity.java:244-389 | when nothing fails, each tick before the last moves the session on by one tick of the complete schedule and schedules that tick's delay; the last tick schedules nothing |
| Sequencer.CompleteRun | app/src/main/java/info/n_tuple/qedconfigurator/ConfigureActivity.java:216-396 | when nothing fails and enough ticks run, a live session writes the rest of the script, logs every description and "Done!", closes the streams once and stops |
| Sequencer.RunDelays | app/src/main/java/info/n_tuple/qedconfigurator/ConfigureActivity.java:244-388 | on the way it schedules exactly the remaining delays of 0, 2000, 2000, 5000, 2000, 2000, 5000 ms |
| Sequencer.HappySession | app/src/main/java/info/n_tuple/qedconfigurator/ConfigureActivity.java:216-396 | a fresh session with no failures stops after 8 ticks, having written "$$$", "U,9600,N\r", CFG-PRT, "$$$", "SU,38400\r", "U,38.4,N\r", CFG-CFG in that order, logged each description and "Done!", closed the streams once, and scheduled 0, 2000, 2000, 5000, 2000, 2000, 5000 ms |
| Sequencer.LeftoverPacketsGoFirst | app/src/main/java/info/n_tuple/qedconfigurator/ConfigureActivity.java:237-241 | the queues are not cleared on connect: a packet left over from an earlier session is written before the new session's first packet |
| Sequencer.Configurator.constructor | app/src/main/java/info/n_tuple/qedconfigurator/ConfigureActivity.java:187-189 | the activity right after connecting: state CONNECTED, empty queues, empty result log |
| Sequencer.Configurator.ReadStream | app/src/main/java/info/n_tuple/qedconfigurator/ConfigureActivity.java:108-135 | the `readStream` loop over a real 256-byte buffer leaves the activity exactly as `Drain` describes |
| Sequencer.Configurator.CloseSocketsAndStreams | app/src/main/java/info/n_tuple/qedconfigurator/ConfigureActivity.java:137-152 | closes the streams and changes nothing else |
| Sequencer.Configurator.Tick | app/src/main/java/info/n_tuple/qedconfigurator/ConfigureActivity.java:209-398 | one run of `configureRunnable` on the activity's fields leaves them, and returns the schedule, exactly as `Step` describes |
| Sequencer.Configurator.SendHead | app/src/main/java/info/n_tuple/qedconfigurator/ConfigureActivity.java:247-391 | the sending states' branch leaves the fields exactly as `Send` describes |
| Sequencer.Configurator.LoadNextPhase | app/src/main/java/info/n_tuple/qedconfigurator/ConfigureActivity.java:269-389 | the after-write branch (stay, load the next phase, or finish) leaves the fields exactly as `AfterWrite` describes |
| Connect.StartConfiguration | app/src/main/java/info/n_tuple/qedconfigurator/ConfigureActivity.java:71-76 | the button logs "Starting configurator..." and runs the first connect attempt after 100 ms |
| Connect.ConnectStep | app/src/main/java/info/n_tuple/qedconfigurator/ConfigureActivity.java:154-207 | an attempt always logs; it hands over to the sequencer immediately exactly when an enabled adapter has a paired device and the socket connects, and then binds the first paired device; it retries after 5000 ms exactly when the adapter is enabled and there is no paired device or the connect fails; it schedules nothing exactly when the adapter is missing or disabled; only a failed connect clears the device and socket |
| Connect.AttemptsStopAtFirstDecision | app/src/main/java/info/n_tuple/qedconfigurator/ConfigureActivity.java:154-207 | repeated attempts stop at the first one that does not retry: every earlier attempt retried, the session is handed over exactly when the last attempt connects, and then to the first paired device that attempt saw |
| Connect.HandOver | app/src/main/java/info/n_tuple/qedconfigurator/ConfigureActivity.java:181-189 | a successful attempt sets the state to CONNECTED and hands the sequencer the socket it just created (nothing written, no streams, no closes); the queues and the result view are kept as they were, and the configure log is the attempt's, which extends the one before; the session is fresh exactly when the queues were empty |
| Connect.ReconnectStartsOver | app/src/main/java/info/n_tuple/qedconfigurator/ConfigureActivity.java:181-189 | connecting again after a session that emptied its queues, whatever that session wrote or closed, writes the whole script to the new socket when nothing fails |
| Connect.FirstAttemptConnects | app/src/main/java/info/n_tuple/qedconfigurator/ConfigureActivity.java:71-189 | a connection on the first attempt logs the start line, the enabled line and the two empty entries of the discarded messages, 100 ms after the button |

## Left out

- `onCreate`, the widgets and the activity lifecycle are not modelled. The two
  text views are sequences of appended entries: strings for the configure log,
  raw byte blocks for the result log.
- `ReaderThread` (lines 78-106) is not modelled. It is never started, because
  its start is commented out at lines 234-235.
- The Bluetooth stack is not modelled: `BluetoothAdapter`, discovery start and
  cancel, `createRfcommSocketToServiceRecord`, the serial-port UUID and socket
  connection. Each attempt's observations are the input `Probe`.
- `connectRunnable` calls `isEnabled()` twice (lines 160 and 163). The model
  reads it once. If the adapter were disabled between the two calls, the source
  would log and schedule nothing; that race is not modelled.
- `android.os.Handler` timing is not modelled. A tick returns the delay it
  posts with as a `Schedule` value, and a run plays one tick per delay.
- `closeSocketsAndStreams`' IOException branch (lines 147-151) is not modelled:
  closing always succeeds. Its message would also be an empty string.
- When the streams cannot be set up (lines 223-230), the source calls
  `closeSocketsAndStreams` on a stream field that is still null. That raises a
  null-reference exception. The model logs the empty entry and stops without closing
  anything.
- `new String(buffer)` decodes bytes with the platform charset; the model logs
  the bytes themselves. `Sequencer.Drain` and `Sequencer.Configurator.ReadStream`
  log only the bytes each read returned, which is the corrected behaviour from
  "## Findings"; `Sequencer.DrainAsWritten` models the code as written.
- Transport.Link.ReadInto: a read returns all pending bytes up to the buffer
  size. A stream that returns fewer bytes than `available()` announced, or -1,
  is not modelled.
- Sequencer.Drain: a read failure is modelled as a stream that fails from the
  start of the drain. A failure part-way through, which would keep the reads
  logged before it, is not modelled.
- Sequencer.Run and the lemmas about runs: between ticks, only new inbound
  bytes and the next write's outcome can change. The stream set-up outcome and
  read failures are fixed for a session.

## Findings

| source | as written | input that shows it | evidently intended | confidence | as-written member | corrected member |
|---|---|---|---|---|---|---|
| app/src/main/java/info/n_tuple/qedconfigurator/ConfigureActivity.java:123-124 | every read appends `new String(buffer)`, the whole 256-byte buffer, whatever `read` returned | one pending byte 0x41: the result log receives 0x41 followed by 255 zero bytes (and after a full read, a short read carries stale bytes from the previous one) | append only the bytes read, `new String(buffer, 0, read)` | not executed | Sequencer.ShortReadIsPadded | Sequencer.DrainKeepsBytes |
