/**
 * The packet catalog of the configurator: the RN-42 ASCII commands and the two
 * hand-written UBX frames for the NEO-7 receiver, phase by phase, and the
 * settle delays between phases.
 */
module Catalog {
  import opened Bytes
  import opened Ubx
  import opened Wrappers

  /** The phases of the configuration sequencer (the source's `States`). */
  datatype State =
    | Connected       // a socket to the RN-42 is open; streams not yet set up
    | Rn42Cmd9600     // RN-42: enter command mode, temporary 9600 baud
    | Neo7Baud        // NEO-7: UART1 to 38400 baud
    | Rn42Cmd38400    // RN-42: enter command mode, permanent and temporary 38400 baud
    | Neo7Save        // NEO-7: save configuration to BBR and Flash
    | Done

  /** The states whose tick pops and writes one packet. */
  predicate IsSending(st: State) {
    st.Rn42Cmd9600? || st.Neo7Baud? || st.Rn42Cmd38400? || st.Neo7Save?
  }

  // ---- Scheduling delays, in milliseconds ----

  const StartDelayMs: nat := 100          // first connect attempt after the button
  const ConnectRetryMs: nat := 5000       // retry after no paired device or a failed connect
  const StayDelayMs: nat := 2000          // next packet of the same phase
  const EnterNeo7BaudMs: nat := 2000
  const EnterRn42Cmd38400Ms: nat := 5000
  const EnterNeo7SaveMs: nat := 5000
  const DonePollMs: nat := 500

  // ---- RN-42 commands ----

  const CommandModeText: string := "$$$"
  const TempBaud9600Text: string := "U,9600,N\r"
  const PermBaud38400Text: string := "SU,38400\r"
  const TempBaud38400Text: string := "U,38.4,N\r"

  function CommandMode(): (r: seq<byte>)
    ensures r == [0x24, 0x24, 0x24]
  {
    Ascii(CommandModeText)
  }

  function TempBaud9600(): (r: seq<byte>)
    ensures |r| == 9 && r[0] == 'U' as int && r[8] == 0x0D
  {
    Ascii(TempBaud9600Text)
  }

  function PermBaud38400(): (r: seq<byte>)
    ensures |r| == 9 && r[..3] == [0x53, 0x55, 0x2C] && r[8] == 0x0D
  {
    Ascii(PermBaud38400Text)
  }

  function TempBaud38400(): (r: seq<byte>)
    ensures |r| == 9 && r[0] == 'U' as int && r[8] == 0x0D
  {
    Ascii(TempBaud38400Text)
  }

  // ---- UBX-CFG-PRT: UART1 at 38400 baud ----

  const ClassCfg: byte := 0x06
  const IdCfgPrt: byte := 0x00
  const IdCfgCfg: byte := 0x09

  /** The fields of a UBX-CFG-PRT payload for a UART port (20 bytes). */
  datatype PortConfig = PortConfig(
    portId: byte, txReady: nat, mode: nat, baudRate: nat,
    inProtoMask: nat, outProtoMask: nat, flags: nat)

  predicate PortConfigFits(c: PortConfig) {
    c.txReady < 0x1_0000 && c.mode < 0x1_0000_0000 && c.baudRate < 0x1_0000_0000
    && c.inProtoMask < 0x1_0000 && c.outProtoMask < 0x1_0000 && c.flags < 0x1_0000
  }

  function EncodePortConfig(c: PortConfig): (p: seq<byte>)
    requires PortConfigFits(c)
    ensures |p| == 20
  {
    [c.portId, 0] + LE16(c.txReady) + LE32(c.mode) + LE32(c.baudRate)
    + LE16(c.inProtoMask) + LE16(c.outProtoMask) + LE16(c.flags) + [0, 0]
  }

  function DecodePortConfig(p: seq<byte>): (c: PortConfig)
    requires |p| == 20
    ensures PortConfigFits(c)
  {
    PortConfig(p[0], DecodeLE16(p[2..4]), DecodeLE32(p[4..8]), DecodeLE32(p[8..12]),
               DecodeLE16(p[12..14]), DecodeLE16(p[14..16]), DecodeLE16(p[16..18]))
  }

  /** UART1; 8 data bits, no parity, 1 stop bit; 38400 baud; UBX+NMEA+RTCM in; UBX+NMEA out. */
  const Uart1At38400: PortConfig := PortConfig(1, 0, 0x08D0, 38400, 0x0007, 0x0003, 0)

  // ---- UBX-CFG-CFG: save to BBR and Flash ----

  /** The fields of a 13-byte UBX-CFG-CFG payload (with device mask). */
  datatype SaveRequest = SaveRequest(clearMask: nat, saveMask: nat, loadMask: nat, deviceMask: byte)

  predicate SaveRequestFits(r: SaveRequest) {
    r.clearMask < 0x1_0000_0000 && r.saveMask < 0x1_0000_0000 && r.loadMask < 0x1_0000_0000
  }

  function EncodeSaveRequest(r: SaveRequest): (p: seq<byte>)
    requires SaveRequestFits(r)
    ensures |p| == 13
  {
    LE32(r.clearMask) + LE32(r.saveMask) + LE32(r.loadMask) + [r.deviceMask]
  }

  function DecodeSaveRequest(p: seq<byte>): (r: SaveRequest)
    requires |p| == 13
    ensures SaveRequestFits(r)
  {
    SaveRequest(DecodeLE32(p[..4]), DecodeLE32(p[4..8]), DecodeLE32(p[8..12]), p[12])
  }

  const DeviceBbr: byte := 0x01
  const DeviceFlash: byte := 0x02

  /** Save every configuration section (mask 0xFFFF) to battery-backed RAM and Flash. */
  const SaveAllToBbrAndFlash: SaveRequest := SaveRequest(0, 0xFFFF, 0, 0x03)

  function CfgPrtMessage(): Message {
    Message(ClassCfg, IdCfgPrt, EncodePortConfig(Uart1At38400))
  }

  function CfgCfgMessage(): Message {
    Message(ClassCfg, IdCfgCfg, EncodeSaveRequest(SaveAllToBbrAndFlash))
  }

  // ---- The two frames exactly as the source spells them ----

  const CfgPrtLiteral: seq<byte> := [
    0xB5, 0x62, 0x06, 0x00, 0x14, 0x00, 0x01, 0x00, 0x00, 0x00,
    0xD0, 0x08, 0x00, 0x00, 0x00, 0x96, 0x00, 0x00, 0x07, 0x00,
    0x03, 0x00, 0x00, 0x00, 0x00, 0x00, 0x93, 0x90]

  const CfgCfgLiteral: seq<byte> := [
    0xB5, 0x62, 0x06, 0x09, 0x0D, 0x00, 0x00, 0x00, 0x00, 0x00,
    0xFF, 0xFF, 0x00, 0x00, 0x00, 0x00, 0x00, 0x00, 0x03, 0x1D,
    0xAB]

  lemma PortConfigRoundTrip(c: PortConfig)
    requires PortConfigFits(c)
    ensures DecodePortConfig(EncodePortConfig(c)) == c
  {
    var p := EncodePortConfig(c);
    assert p[2..4] == LE16(c.txReady);
    assert p[4..8] == LE32(c.mode);
    assert p[8..12] == LE32(c.baudRate);
    assert p[12..14] == LE16(c.inProtoMask);
    assert p[14..16] == LE16(c.outProtoMask);
    assert p[16..18] == LE16(c.flags);
    LE32RoundTrip(c.mode);
    LE32RoundTrip(c.baudRate);
  }

  lemma SaveRequestRoundTrip(r: SaveRequest)
    requires SaveRequestFits(r)
    ensures DecodeSaveRequest(EncodeSaveRequest(r)) == r
  {
    var p := EncodeSaveRequest(r);
    assert p[..4] == LE32(r.clearMask);
    assert p[4..8] == LE32(r.saveMask);
    assert p[8..12] == LE32(r.loadMask);
    LE32RoundTrip(r.clearMask);
    LE32RoundTrip(r.saveMask);
    LE32RoundTrip(r.loadMask);
  }

  /** The CFG-PRT literal is its 6-byte header, the encoding of UART1 at 38400 baud 8N1, and 0x93 0x90. */
  lemma CfgPrtLayout()
    ensures CfgPrtLiteral == [0xB5, 0x62, 0x06, 0x00, 0x14, 0x00] + EncodePortConfig(Uart1At38400) + [0x93, 0x90]
  {
  }

  /**
   * The trailing 0x93 0x90 of CFG-PRT is CK_A/CK_B over its class, id, length
   * and payload. The running checksum is evaluated byte by byte, in legs that
   * each continue from the previous leg's result.
   */
  lemma CfgPrtChecksumLeg1(s: seq<byte>)
    requires |s| == 24
    requires s[0] == 0x06 && s[1] == 0x00 && s[2] == 0x14 && s[3] == 0x00
          && s[4] == 0x01 && s[5] == 0x00 && s[6] == 0x00 && s[7] == 0x00
    ensures ChecksumUpTo(s, 8) == (0x1B, 0xAC)
  {
    ChecksumNext(s, 0, (0x00, 0x00), 0x06);
    ChecksumNext(s, 1, (0x06, 0x06), 0x00);
    ChecksumNext(s, 2, (0x06, 0x0C), 0x14);
    ChecksumNext(s, 3, (0x1A, 0x26), 0x00);
    ChecksumNext(s, 4, (0x1A, 0x40), 0x01);
    ChecksumNext(s, 5, (0x1B, 0x5B), 0x00);
    ChecksumNext(s, 6, (0x1B, 0x76), 0x00);
    ChecksumNext(s, 7, (0x1B, 0x91), 0x00);
  }

  lemma CfgPrtChecksumLeg2(s: seq<byte>)
    requires |s| == 24
    requires s[8] == 0xD0 && s[9] == 0x08 && s[10] == 0x00 && s[11] == 0x00
          && s[12] == 0x00 && s[13] == 0x96 && s[14] == 0x00 && s[15] == 0x00
    requires ChecksumUpTo(s, 8) == (0x1B, 0xAC)
    ensures ChecksumUpTo(s, 16) == (0x89, 0xFE)
  {
    ChecksumNext(s, 8, (0x1B, 0xAC), 0xD0);
    ChecksumNext(s, 9, (0xEB, 0x97), 0x08);
    ChecksumNext(s, 10, (0xF3, 0x8A), 0x00);
    ChecksumNext(s, 11, (0xF3, 0x7D), 0x00);
    ChecksumNext(s, 12, (0xF3, 0x70), 0x00);
    ChecksumNext(s, 13, (0xF3, 0x63), 0x96);
    ChecksumNext(s, 14, (0x89, 0xEC), 0x00);
    ChecksumNext(s, 15, (0x89, 0x75), 0x00);
  }

  lemma CfgPrtChecksumLeg3(s: seq<byte>)
    requires |s| == 24
    requires s[16] == 0x07 && s[17] == 0x00 && s[18] == 0x03 && s[19] == 0x00
          && s[20] == 0x00 && s[21] == 0x00 && s[22] == 0x00 && s[23] == 0x00
    requires ChecksumUpTo(s, 16) == (0x89, 0xFE)
    ensures ChecksumUpTo(s, 24) == (0x93, 0x90)
  {
    ChecksumNext(s, 16, (0x89, 0xFE), 0x07);
    ChecksumNext(s, 17, (0x90, 0x8E), 0x00);
    ChecksumNext(s, 18, (0x90, 0x1E), 0x03);
    ChecksumNext(s, 19, (0x93, 0xB1), 0x00);
    ChecksumNext(s, 20, (0x93, 0x44), 0x00);
    ChecksumNext(s, 21, (0x93, 0xD7), 0x00);
    ChecksumNext(s, 22, (0x93, 0x6A), 0x00);
    ChecksumNext(s, 23, (0x93, 0xFD), 0x00);
  }

  lemma CfgPrtRunningChecksum()
    ensures ChecksumUpTo(CfgPrtLiteral[2..26], 24) == (0x93, 0x90)
  {
    var s := CfgPrtLiteral[2..26];
    assert ChecksumUpTo(s, 8) == (0x1B, 0xAC) by {
      assert s[0] == CfgPrtLiteral[2] && s[1] == CfgPrtLiteral[3] && s[2] == CfgPrtLiteral[4] && s[3] == CfgPrtLiteral[5];
      assert s[4] == CfgPrtLiteral[6] && s[5] == CfgPrtLiteral[7] && s[6] == CfgPrtLiteral[8] && s[7] == CfgPrtLiteral[9];
      CfgPrtChecksumLeg1(s);
    }
    assert ChecksumUpTo(s, 16) == (0x89, 0xFE) by {
      assert s[8] == CfgPrtLiteral[10] && s[9] == CfgPrtLiteral[11] && s[10] == CfgPrtLiteral[12] && s[11] == CfgPrtLiteral[13];
      assert s[12] == CfgPrtLiteral[14] && s[13] == CfgPrtLiteral[15] && s[14] == CfgPrtLiteral[16] && s[15] == CfgPrtLiteral[17];
      CfgPrtChecksumLeg2(s);
    }
    assert ChecksumUpTo(s, 24) == (0x93, 0x90) by {
      assert s[16] == CfgPrtLiteral[18] && s[17] == CfgPrtLiteral[19] && s[18] == CfgPrtLiteral[20] && s[19] == CfgPrtLiteral[21];
      assert s[20] == CfgPrtLiteral[22] && s[21] == CfgPrtLiteral[23] && s[22] == CfgPrtLiteral[24] && s[23] == CfgPrtLiteral[25];
      CfgPrtChecksumLeg3(s);
    }
  }

  /**
   * The hand-written CFG-PRT bytes are exactly the UBX framing of class 0x06,
   * id 0x00 and the UART1/38400 payload: sync chars, a length field of 20,
   * 28 bytes in all, and a correct checksum; the parser reads back a baud rate of 38400.
   */
  lemma CfgPrtLiteralIsFrame()
    ensures CfgPrtLiteral[..2] == [SyncChar1, SyncChar2]
    ensures |CfgPrtLiteral| == 8 + 20 && DecodeLE16(CfgPrtLiteral[4..6]) == 20
    ensures Parse(CfgPrtLiteral) == Some(CfgPrtMessage())
    ensures Fits(CfgPrtMessage()) && Frame(CfgPrtMessage()) == CfgPrtLiteral
    ensures DecodePortConfig(Parse(CfgPrtLiteral).value.payload).baudRate == 38400
  {
    CfgPrtLayout();
    CfgPrtRunningChecksum();
    assert CfgPrtLiteral[6..26] == EncodePortConfig(Uart1At38400);
    FrameParse(CfgPrtLiteral);
    PortConfigRoundTrip(Uart1At38400);
  }

  /** The CFG-CFG literal is its 6-byte header, the encoding of "save all to BBR and Flash", and 0x1D 0xAB. */
  lemma CfgCfgLayout()
    ensures CfgCfgLiteral == [0xB5, 0x62, 0x06, 0x09, 0x0D, 0x00] + EncodeSaveRequest(SaveAllToBbrAndFlash) + [0x1D, 0xAB]
  {
  }

  /**
   * The trailing 0x1D 0xAB of CFG-CFG is CK_A/CK_B over its class, id, length
   * and payload. The running checksum is evaluated byte by byte, in legs that
   * each continue from the previous leg's result.
   */
  lemma CfgCfgChecksumLeg1(s: seq<byte>)
    requires |s| == 17
    requires s[0] == 0x06 && s[1] == 0x09 && s[2] == 0x0D && s[3] == 0x00
          && s[4] == 0x00 && s[5] == 0x00
    ensures ChecksumUpTo(s, 6) == (0x1C, 0x85)
  {
    ChecksumNext(s, 0, (0x00, 0x00), 0x06);
    ChecksumNext(s, 1, (0x06, 0x06), 0x09);
    ChecksumNext(s, 2, (0x0F, 0x15), 0x0D);
    ChecksumNext(s, 3, (0x1C, 0x31), 0x00);
    ChecksumNext(s, 4, (0x1C, 0x4D), 0x00);
    ChecksumNext(s, 5, (0x1C, 0x69), 0x00);
  }

  lemma CfgCfgChecksumLeg2(s: seq<byte>)
    requires |s| == 17
    requires s[6] == 0x00 && s[7] == 0x00 && s[8] == 0xFF && s[9] == 0xFF
          && s[10] == 0x00 && s[11] == 0x00
    requires ChecksumUpTo(s, 6) == (0x1C, 0x85)
    ensures ChecksumUpTo(s, 12) == (0x1A, 0x26)
  {
    ChecksumNext(s, 6, (0x1C, 0x85), 0x00);
    ChecksumNext(s, 7, (0x1C, 0xA1), 0x00);
    ChecksumNext(s, 8, (0x1C, 0xBD), 0xFF);
    ChecksumNext(s, 9, (0x1B, 0xD8), 0xFF);
    ChecksumNext(s, 10, (0x1A, 0xF2), 0x00);
    ChecksumNext(s, 11, (0x1A, 0x0C), 0x00);
  }

  lemma CfgCfgChecksumLeg3(s: seq<byte>)
    requires |s| == 17
    requires s[12] == 0x00 && s[13] == 0x00 && s[14] == 0x00 && s[15] == 0x00
          && s[16] == 0x03
    requires ChecksumUpTo(s, 12) == (0x1A, 0x26)
    ensures ChecksumUpTo(s, 17) == (0x1D, 0xAB)
  {
    ChecksumNext(s, 12, (0x1A, 0x26), 0x00);
    ChecksumNext(s, 13, (0x1A, 0x40), 0x00);
    ChecksumNext(s, 14, (0x1A, 0x5A), 0x00);
    ChecksumNext(s, 15, (0x1A, 0x74), 0x00);
    ChecksumNext(s, 16, (0x1A, 0x8E), 0x03);
  }

  lemma CfgCfgRunningChecksum()
    ensures ChecksumUpTo(CfgCfgLiteral[2..19], 17) == (0x1D, 0xAB)
  {
    var s := CfgCfgLiteral[2..19];
    assert ChecksumUpTo(s, 6) == (0x1C, 0x85) by {
      assert s[0] == CfgCfgLiteral[2] && s[1] == CfgCfgLiteral[3] && s[2] == CfgCfgLiteral[4] && s[3] == CfgCfgLiteral[5];
      assert s[4] == CfgCfgLiteral[6] && s[5] == CfgCfgLiteral[7];
      CfgCfgChecksumLeg1(s);
    }
    assert ChecksumUpTo(s, 12) == (0x1A, 0x26) by {
      assert s[6] == CfgCfgLiteral[8] && s[7] == CfgCfgLiteral[9] && s[8] == CfgCfgLiteral[10] && s[9] == CfgCfgLiteral[11];
      assert s[10] == CfgCfgLiteral[12] && s[11] == CfgCfgLiteral[13];
      CfgCfgChecksumLeg2(s);
    }
    assert ChecksumUpTo(s, 17) == (0x1D, 0xAB) by {
      assert s[12] == CfgCfgLiteral[14] && s[13] == CfgCfgLiteral[15] && s[14] == CfgCfgLiteral[16] && s[15] == CfgCfgLiteral[17];
      assert s[16] == CfgCfgLiteral[18];
      CfgCfgChecksumLeg3(s);
    }
  }

  /**
   * The hand-written CFG-CFG bytes are exactly the UBX framing of class 0x06,
   * id 0x09 and the save request: sync chars, a length field of 13, 21 bytes
   * in all, and a correct checksum; the parser reads back device mask BBR|Flash.
   */
  lemma CfgCfgLiteralIsFrame()
    ensures CfgCfgLiteral[..2] == [SyncChar1, SyncChar2]
    ensures |CfgCfgLiteral| == 8 + 13 && DecodeLE16(CfgCfgLiteral[4..6]) == 13
    ensures Parse(CfgCfgLiteral) == Some(CfgCfgMessage())
    ensures Fits(CfgCfgMessage()) && Frame(CfgCfgMessage()) == CfgCfgLiteral
    ensures DecodeSaveRequest(Parse(CfgCfgLiteral).value.payload).deviceMask == DeviceBbr + DeviceFlash
  {
    CfgCfgLayout();
    CfgCfgRunningChecksum();
    assert CfgCfgLiteral[6..19] == EncodeSaveRequest(SaveAllToBbrAndFlash);
    FrameParse(CfgCfgLiteral);
    SaveRequestRoundTrip(SaveAllToBbrAndFlash);
  }

  // ---- Phases: what each state queues on entry, and where it leads ----

  const StreamsReadyLine: string := "Successfully setup input and output streams.\n"
  const DoneText: string := "Done!"

  /** The packets queued when the sequencer enters `st`, in sending order. */
  function PacketsFor(st: State): (r: seq<seq<byte>>)
    ensures IsSending(st) <==> |r| > 0
  {
    match st
    case Rn42Cmd9600 => [CommandMode(), TempBaud9600()]
    case Neo7Baud => [CfgPrtLiteral]
    case Rn42Cmd38400 => [CommandMode(), PermBaud38400(), TempBaud38400()]
    case Neo7Save => [CfgCfgLiteral]
    case _ => []
  }

  const CommandModeDescription: string := "Entering command mode on RN42"
  const TempBaud9600Description: string := "Setting temporary baud rate to 9600,N on RN42"
  const Neo7BaudDescription: string := "Configuring NEO7P baud rate to 38400bps"
  const PermBaud38400Description: string := "Setting permanent baud rate to 38,400bps"
  const TempBaud38400Description: string := "Setting the temporary baud rate to 38,400bps"
  const Neo7SaveDescription: string := "Saving NEO7P configuration to BBR and Flash."

  /** The description queued beside each packet of `PacketsFor(st)`. */
  function DescriptionsFor(st: State): (r: seq<string>)
    ensures |r| == |PacketsFor(st)|
  {
    match st
    case Rn42Cmd9600 => [CommandModeDescription, TempBaud9600Description]
    case Neo7Baud => [Neo7BaudDescription]
    case Rn42Cmd38400 => [CommandModeDescription, PermBaud38400Description, TempBaud38400Description]
    case Neo7Save => [Neo7SaveDescription]
    case _ => []
  }

  /**
   * The phase entered once the queue of `st` has been written; `None` after the
   * last phase, which ends the session instead (the source never enters `Done`).
   */
  function NextPhase(st: State): (r: Option<State>)
    ensures r.Some? ==> IsSending(st) && IsSending(r.value)
    ensures r.None? && IsSending(st) ==> st == Neo7Save
  {
    match st
    case Rn42Cmd9600 => Some(Neo7Baud)
    case Neo7Baud => Some(Rn42Cmd38400)
    case Rn42Cmd38400 => Some(Neo7Save)
    case _ => None
  }

  /**
   * The delay before the first tick of a phase: positive exactly for the
   * phases entered from another phase (the first phase starts at once, from
   * the stream set-up), and never shorter than the 2 s between packets.
   */
  function EntryDelayMs(st: State): (r: nat)
    ensures r > 0 <==> exists p :: NextPhase(p) == Some(st)
    ensures r > 0 ==> r >= StayDelayMs
  {
    match st
    case Neo7Baud =>
      assert NextPhase(Rn42Cmd9600) == Some(st);
      EnterNeo7BaudMs
    case Rn42Cmd38400 =>
      assert NextPhase(Neo7Baud) == Some(st);
      EnterRn42Cmd38400Ms
    case Neo7Save =>
      assert NextPhase(Rn42Cmd38400) == Some(st);
      EnterNeo7SaveMs
    case _ => 0
  }

  /** Everything a complete session writes, in order. */
  function Script(): seq<seq<byte>>
  {
    PacketsFor(Rn42Cmd9600) + PacketsFor(Neo7Baud) + PacketsFor(Rn42Cmd38400) + PacketsFor(Neo7Save)
  }

  function ScriptDescriptions(): seq<string>
  {
    DescriptionsFor(Rn42Cmd9600) + DescriptionsFor(Neo7Baud) + DescriptionsFor(Rn42Cmd38400)
      + DescriptionsFor(Neo7Save)
  }

  /** How many ticks of a complete session ask for a further tick. */
  const ScheduledTicks: nat := 7

  /** The delay the `k`-th rescheduling tick of a complete session asks for, counting from 0. */
  function ScheduledDelay(k: nat): nat
    requires k < ScheduledTicks
  {
    match k
    case 0 => 0                      // after the stream set-up, posted at once
    case 1 => StayDelayMs
    case 2 => EnterNeo7BaudMs
    case 3 => EnterRn42Cmd38400Ms
    case 4 => StayDelayMs
    case 5 => StayDelayMs
    case _ => EnterNeo7SaveMs
  }

  /** Where the packets of a sending phase sit in `Script()`. */
  function PhaseStart(st: State): nat {
    match st
    case Neo7Baud => 2
    case Rn42Cmd38400 => 3
    case Neo7Save => 6
    case _ => 0
  }

  function PhaseEnd(st: State): nat {
    PhaseStart(st) + |PacketsFor(st)|
  }

  /**
   * The session writes, in order: "$$$", "U,9600,N\r", the CFG-PRT frame, "$$$",
   * "SU,38400\r", "U,38.4,N\r" and the CFG-CFG frame.
   */
  lemma ScriptContents()
    ensures Script() == [CommandMode(), TempBaud9600(), CfgPrtLiteral, CommandMode(), PermBaud38400(), TempBaud38400(), CfgCfgLiteral]
  {
  }

  /**
   * The phases tile the script in order: each phase's packets and descriptions
   * sit in the script where the previous phase ends, the first at the start and
   * the last at the end.
   */
  lemma PhaseInScript(st: State)
    requires IsSending(st)
    ensures |ScriptDescriptions()| == |Script()| == 7
    ensures PhaseStart(st) < PhaseEnd(st) <= |Script()|
    ensures Script()[PhaseStart(st)..PhaseEnd(st)] == PacketsFor(st)
    ensures ScriptDescriptions()[PhaseStart(st)..PhaseEnd(st)] == DescriptionsFor(st)
    ensures NextPhase(st).Some? ==> PhaseStart(NextPhase(st).value) == PhaseEnd(st)
    ensures NextPhase(st).None? ==> PhaseEnd(st) == |Script()|
    ensures st == Rn42Cmd9600 ==> PhaseStart(st) == 0
  {
    var sc, sd := Script(), ScriptDescriptions();
    match st
    case Rn42Cmd9600 =>
      assert sc[0..2] == PacketsFor(Rn42Cmd9600);
      assert sd[0..2] == DescriptionsFor(Rn42Cmd9600);
    case Neo7Baud =>
      assert sc[2..3] == PacketsFor(Neo7Baud);
      assert sd[2..3] == DescriptionsFor(Neo7Baud);
    case Rn42Cmd38400 =>
      assert sc[3..6] == PacketsFor(Rn42Cmd38400);
      assert sd[3..6] == DescriptionsFor(Rn42Cmd38400);
    case Neo7Save =>
      assert sc[6..7] == PacketsFor(Neo7Save);
      assert sd[6..7] == DescriptionsFor(Neo7Save);
  }

  /**
   * The delays of a complete session follow the phases: the first tick is
   * posted at once, a tick that stays in its phase waits 2 s, and a tick that
   * enters a phase waits that phase's entry delay.
   */
  lemma ScheduleMatchesPhases(st: State)
    requires IsSending(st)
    ensures ScheduledTicks == |Script()| && ScheduledDelay(0) == EntryDelayMs(Rn42Cmd9600)
    ensures forall i :: PhaseStart(st) < i < PhaseEnd(st) ==> ScheduledDelay(i) == StayDelayMs
    ensures NextPhase(st).Some? ==> ScheduledDelay(PhaseEnd(st)) == EntryDelayMs(NextPhase(st).value)
  {
  }
}
