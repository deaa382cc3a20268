/**
 * The descriptor blocks of a USB Audio Class 2.0 function ("USB Device Class
 * Definition for Audio Devices", Release 2.0) that the audio interface emits,
 * at record level, with their byte layout as the standard's tables give it:
 * every block starts with its own length (bLength) and its descriptor type,
 * and multi-byte fields are little-endian.
 */
module Uac2 {
  import opened Uint
  import opened Wrappers

  // Block lengths (bLength of each table).
  const IAD_LEN: u8 := 8                       // interface association, section 4.6
  const STD_AC_LEN: u8 := 9                    // standard AudioControl interface, section 4.7.1
  const CS_AC_LEN: u8 := 9                     // class-specific AC interface header, section 4.7.2
  const CLK_SRC_LEN: u8 := 8                   // clock source, section 4.7.2.1
  const INPUT_TERM_LEN: u8 := 17               // input terminal, section 4.7.2.4
  const OUTPUT_TERM_LEN: u8 := 12              // output terminal, section 4.7.2.5
  const FEATURE_UNIT_ONE_CHANNEL_LEN: u8 := 14 // feature unit with one logical channel, section 4.7.2.8
  const STD_AS_INT_LEN: u8 := 9                // standard AudioStreaming interface, section 4.9.1
  const CS_AS_INT_LEN: u8 := 16                // class-specific AS interface, section 4.9.2
  const TYPE_I_FORMAT_LEN: u8 := 6             // Type I format, Audio Data Formats section 2.3.1.6
  const STD_AS_ISO_EP_LEN: u8 := 7             // standard AS isochronous data endpoint, section 4.10.1.1
  const CS_AS_ISO_EP_LEN: u8 := 8              // class-specific AS isochronous endpoint, section 4.10.1.2
  const STD_AS_ISO_FB_EP_LEN: u8 := 7          // standard AS isochronous feedback endpoint, section 4.10.2.1

  // Descriptor types.
  const INTERFACE: u8 := 0x04
  const ENDPOINT: u8 := 0x05
  const INTERFACE_ASSOCIATION: u8 := 0x0B
  const CS_INTERFACE: u8 := 0x24
  const CS_ENDPOINT: u8 := 0x25

  // Descriptor subtypes.
  const AC_HEADER: u8 := 0x01
  const AC_INPUT_TERMINAL: u8 := 0x02
  const AC_OUTPUT_TERMINAL: u8 := 0x03
  const AC_FEATURE_UNIT: u8 := 0x06
  const AC_CLOCK_SOURCE: u8 := 0x0A
  const AS_GENERAL: u8 := 0x01
  const AS_FORMAT_TYPE: u8 := 0x02
  const EP_GENERAL: u8 := 0x01

  // Class, subclass and protocol codes.
  const AUDIO_CLASS: u8 := 0x01
  const FUNCTION_SUBCLASS_UNDEFINED: u8 := 0x00
  const AUDIOCONTROL_SUBCLASS: u8 := 0x01
  const AUDIOSTREAMING_SUBCLASS: u8 := 0x02
  const IP_VERSION_02_00: u8 := 0x20
  const FORMAT_TYPE_I: u8 := 0x01
  /** bmAttributes of a feedback endpoint: isochronous, no synchronisation, feedback usage. */
  const FEEDBACK_ATTRIBUTES: u8 := 0x11

  /**
   * wTotalLength of the class-specific AudioControl header, which counts the
   * header's own bytes as well as the clock, terminal and unit blocks it
   * covers (section 4.7.2, Table 4-5), kept to 16 bits.
   */
  function WireTotalLength(covered: u16): (r: u16)
    ensures CoveredLength(r) == covered
  {
    (covered as int + CS_AC_LEN as int) % U16_LIMIT
  }

  /** The covered length a wTotalLength field announces: the header's own bytes taken off again. */
  function CoveredLength(wire: u16): (r: u16) {
    (wire as int + U16_LIMIT - CS_AC_LEN as int) % U16_LIMIT
  }

  /** Bytes 6 and 7 of an AudioControl header hold its wTotalLength. */
  lemma ControlHeaderField(b: Block)
    requires b.ControlHeader?
    ensures |Encode(b)| == CS_AC_LEN as int
    ensures FromLe16(Encode(b)[6], Encode(b)[7]) == WireTotalLength(b.totalLength)
  {
    var field := Le16(WireTotalLength(b.totalLength));
    assert Encode(b)[6] == field[0] && Encode(b)[7] == field[1];
  }

  /** Every wTotalLength value is the field of exactly one covered length. */
  lemma WireOfCoveredLength(wire: u16)
    ensures WireTotalLength(CoveredLength(wire)) == wire
  {
  }

  /**
   * One descriptor block, with the fields the caller chooses. The header's
   * `totalLength` is the length of the blocks it covers, as the caller
   * passes it; its encoding adds the header itself.
   */
  datatype Block =
    | InterfaceAssociation(firstInterface: u8, interfaceCount: u8, stringIndex: u8)
    | ControlInterface(interfaceNumber: u8, numEndpoints: u8, stringIndex: u8)
    | ControlHeader(bcdADC: u16, category: u8, totalLength: u16, controls: u8)
    | ClockSource(clockId: u8, attributes: u8, controls: u8, assocTerminal: u8, stringIndex: u8)
    | InputTerminal(terminalId: u8, terminalType: u16, assocTerminal: u8, clockId: u8,
                    channels: u8, channelConfig: u32, channelNames: u8, terminalControls: u16,
                    stringIndex: u8)
    | FeatureUnit(unitId: u8, sourceId: u8, masterControls: u32, channelControls: u32,
                  stringIndex: u8)
    | OutputTerminal(terminalId: u8, terminalType: u16, assocTerminal: u8, sourceId: u8,
                     clockId: u8, terminalControls: u16, stringIndex: u8)
    | StreamingInterface(interfaceNumber: u8, alternateSetting: u8, numEndpoints: u8,
                         stringIndex: u8)
    | StreamingGeneral(terminalLink: u8, controls: u8, formatType: u8, formats: u32,
                       channels: u8, channelConfig: u32, channelNames: u8)
    | TypeIFormat(subslotSize: u8, bitResolution: u8)
    | DataEndpoint(address: u8, attributes: u8, maxPacketSize: u16, interval: u8)
    | DataEndpointGeneral(attributes: u8, controls: u8, lockDelayUnits: u8, lockDelay: u16)
    | FeedbackEndpoint(address: u8, maxPacketSize: u16, interval: u8)

  /** The fixed byte length of a block, which depends on its kind only. */
  function Length(b: Block): u8 {
    match b
    case InterfaceAssociation(_, _, _) => IAD_LEN
    case ControlInterface(_, _, _) => STD_AC_LEN
    case ControlHeader(_, _, _, _) => CS_AC_LEN
    case ClockSource(_, _, _, _, _) => CLK_SRC_LEN
    case InputTerminal(_, _, _, _, _, _, _, _, _) => INPUT_TERM_LEN
    case FeatureUnit(_, _, _, _, _) => FEATURE_UNIT_ONE_CHANNEL_LEN
    case OutputTerminal(_, _, _, _, _, _, _) => OUTPUT_TERM_LEN
    case StreamingInterface(_, _, _, _) => STD_AS_INT_LEN
    case StreamingGeneral(_, _, _, _, _, _, _) => CS_AS_INT_LEN
    case TypeIFormat(_, _) => TYPE_I_FORMAT_LEN
    case DataEndpoint(_, _, _, _) => STD_AS_ISO_EP_LEN
    case DataEndpointGeneral(_, _, _, _) => CS_AS_ISO_EP_LEN
    case FeedbackEndpoint(_, _, _) => STD_AS_ISO_FB_EP_LEN
  }

  /**
   * A block is well formed when its bytes cannot be mistaken for another
   * kind's: a data endpoint must not carry the feedback endpoint's attributes.
   */
  predicate WellFormed(b: Block) {
    b.DataEndpoint? ==> b.attributes != FEEDBACK_ATTRIBUTES
  }

  /** The bytes of one block, field by field as the UAC2 tables order them. */
  function Encode(b: Block): (r: seq<u8>)
    ensures |r| == Length(b) as int && r[0] == Length(b)
  {
    match b
    case InterfaceAssociation(first, count, str) =>
      [IAD_LEN, INTERFACE_ASSOCIATION, first, count, AUDIO_CLASS, FUNCTION_SUBCLASS_UNDEFINED,
       IP_VERSION_02_00, str]
    case ControlInterface(itf, eps, str) =>
      [STD_AC_LEN, INTERFACE, itf, 0, eps, AUDIO_CLASS, AUDIOCONTROL_SUBCLASS, IP_VERSION_02_00, str]
    case ControlHeader(bcd, category, total, ctrl) =>
      [CS_AC_LEN, CS_INTERFACE, AC_HEADER] + Le16(bcd) + [category] + Le16(WireTotalLength(total)) + [ctrl]
    case ClockSource(id, attr, ctrl, assoc, str) =>
      [CLK_SRC_LEN, CS_INTERFACE, AC_CLOCK_SOURCE, id, attr, ctrl, assoc, str]
    case InputTerminal(id, kind, assoc, clk, chs, cfg, names, ctrl, str) =>
      [INPUT_TERM_LEN, CS_INTERFACE, AC_INPUT_TERMINAL, id] + Le16(kind) + [assoc, clk, chs]
        + Le32(cfg) + [names] + Le16(ctrl) + [str]
    case FeatureUnit(id, src, master, ch1, str) =>
      [FEATURE_UNIT_ONE_CHANNEL_LEN, CS_INTERFACE, AC_FEATURE_UNIT, id, src] + Le32(master)
        + Le32(ch1) + [str]
    case OutputTerminal(id, kind, assoc, src, clk, ctrl, str) =>
      [OUTPUT_TERM_LEN, CS_INTERFACE, AC_OUTPUT_TERMINAL, id] + Le16(kind) + [assoc, src, clk]
        + Le16(ctrl) + [str]
    case StreamingInterface(itf, alt, eps, str) =>
      [STD_AS_INT_LEN, INTERFACE, itf, alt, eps, AUDIO_CLASS, AUDIOSTREAMING_SUBCLASS,
       IP_VERSION_02_00, str]
    case StreamingGeneral(link, ctrl, fmt, formats, chs, cfg, names) =>
      [CS_AS_INT_LEN, CS_INTERFACE, AS_GENERAL, link, ctrl, fmt] + Le32(formats) + [chs]
        + Le32(cfg) + [names]
    case TypeIFormat(subslot, bits) =>
      [TYPE_I_FORMAT_LEN, CS_INTERFACE, AS_FORMAT_TYPE, FORMAT_TYPE_I, subslot, bits]
    case DataEndpoint(ep, attr, size, interval) =>
      [STD_AS_ISO_EP_LEN, ENDPOINT, ep, attr] + Le16(size) + [interval]
    case DataEndpointGeneral(attr, ctrl, unit, delay) =>
      [CS_AS_ISO_EP_LEN, CS_ENDPOINT, EP_GENERAL, attr, ctrl, unit] + Le16(delay)
    case FeedbackEndpoint(ep, size, interval) =>
      [STD_AS_ISO_FB_EP_LEN, ENDPOINT, ep, FEEDBACK_ATTRIBUTES] + Le16(size) + [interval]
  }

  /**
   * Reads back the bytes of exactly one block: the length byte selects the
   * candidate kinds, the type and subtype bytes pick one, every fixed byte is
   * checked, and the fields are taken from their offsets. Only the exact
   * encoding of the returned block is accepted.
   */
  function DecodeBlock(s: seq<u8>): (r: Option<Block>)
    ensures r.Some? ==> Encode(r.value) == s
  {
    if |s| < 3 || s[0] as int != |s| then None
    else if |s| == 6 then DecodeFormat(s)
    else if |s| == 7 then DecodeEndpoint(s)
    else if |s| == 8 then DecodeEight(s)
    else if |s| == 9 then DecodeNine(s)
    else if |s| == 12 then DecodeOutputTerminal(s)
    else if |s| == 14 then DecodeFeatureUnit(s)
    else if |s| == 16 then DecodeStreamingGeneral(s)
    else if |s| == 17 then DecodeInputTerminal(s)
    else None
  }

  /** Type I format descriptor. */
  function DecodeFormat(s: seq<u8>): (r: Option<Block>)
    requires |s| == 6 && s[0] == 6
    ensures r.Some? ==> Encode(r.value) == s
  {
    if s[1] == CS_INTERFACE && s[2] == AS_FORMAT_TYPE && s[3] == FORMAT_TYPE_I then
      assert s == [s[0], s[1], s[2], s[3], s[4], s[5]];
      Some(TypeIFormat(s[4], s[5]))
    else None
  }

  /** Standard isochronous data or feedback endpoint, told apart by bmAttributes. */
  function DecodeEndpoint(s: seq<u8>): (r: Option<Block>)
    requires |s| == 7 && s[0] == 7
    ensures r.Some? ==> Encode(r.value) == s
  {
    if s[1] != ENDPOINT then None
    else
      Le16OfFromLe16(s[4], s[5]);
      assert s == s[..4] + [s[4], s[5]] + [s[6]];
      if s[3] == FEEDBACK_ATTRIBUTES then Some(FeedbackEndpoint(s[2], FromLe16(s[4], s[5]), s[6]))
      else Some(DataEndpoint(s[2], s[3], FromLe16(s[4], s[5]), s[6]))
  }

  /** Interface association, clock source or class-specific endpoint descriptor. */
  function DecodeEight(s: seq<u8>): (r: Option<Block>)
    requires |s| == 8 && s[0] == 8
    ensures r.Some? ==> Encode(r.value) == s
  {
    if s[1] == INTERFACE_ASSOCIATION && s[4] == AUDIO_CLASS
      && s[5] == FUNCTION_SUBCLASS_UNDEFINED && s[6] == IP_VERSION_02_00 then
      assert s == [s[0], s[1], s[2], s[3], s[4], s[5], s[6], s[7]];
      Some(InterfaceAssociation(s[2], s[3], s[7]))
    else if s[1] == CS_INTERFACE && s[2] == AC_CLOCK_SOURCE then
      assert s == [s[0], s[1], s[2], s[3], s[4], s[5], s[6], s[7]];
      Some(ClockSource(s[3], s[4], s[5], s[6], s[7]))
    else if s[1] == CS_ENDPOINT && s[2] == EP_GENERAL then
      Le16OfFromLe16(s[6], s[7]);
      assert s == s[..6] + [s[6], s[7]];
      Some(DataEndpointGeneral(s[3], s[4], s[5], FromLe16(s[6], s[7])))
    else None
  }

  /** Standard AudioControl or AudioStreaming interface, or the class-specific AC header. */
  function DecodeNine(s: seq<u8>): (r: Option<Block>)
    requires |s| == 9 && s[0] == 9
    ensures r.Some? ==> Encode(r.value) == s
  {
    if s[1] == INTERFACE && s[5] == AUDIO_CLASS && s[7] == IP_VERSION_02_00
      && s[6] == AUDIOCONTROL_SUBCLASS && s[3] == 0 then
      assert s == [s[0], s[1], s[2], s[3], s[4], s[5], s[6], s[7], s[8]];
      Some(ControlInterface(s[2], s[4], s[8]))
    else if s[1] == INTERFACE && s[5] == AUDIO_CLASS && s[7] == IP_VERSION_02_00
      && s[6] == AUDIOSTREAMING_SUBCLASS then
      assert s == [s[0], s[1], s[2], s[3], s[4], s[5], s[6], s[7], s[8]];
      Some(StreamingInterface(s[2], s[3], s[4], s[8]))
    else if s[1] == CS_INTERFACE && s[2] == AC_HEADER then
      Le16OfFromLe16(s[3], s[4]);
      Le16OfFromLe16(s[6], s[7]);
      assert s == s[..3] + [s[3], s[4]] + [s[5]] + [s[6], s[7]] + [s[8]];
      WireOfCoveredLength(FromLe16(s[6], s[7]));
      Some(ControlHeader(FromLe16(s[3], s[4]), s[5], CoveredLength(FromLe16(s[6], s[7])), s[8]))
    else None
  }

  /** Output terminal descriptor. */
  function DecodeOutputTerminal(s: seq<u8>): (r: Option<Block>)
    requires |s| == 12 && s[0] == 12
    ensures r.Some? ==> Encode(r.value) == s
  {
    if s[1] == CS_INTERFACE && s[2] == AC_OUTPUT_TERMINAL then
      Le16OfFromLe16(s[4], s[5]);
      Le16OfFromLe16(s[9], s[10]);
      assert s == s[..4] + [s[4], s[5]] + s[6..9] + [s[9], s[10]] + [s[11]];
      Some(OutputTerminal(s[3], FromLe16(s[4], s[5]), s[6], s[7], s[8], FromLe16(s[9], s[10]), s[11]))
    else None
  }

  /** Feature unit descriptor with one logical channel. */
  function DecodeFeatureUnit(s: seq<u8>): (r: Option<Block>)
    requires |s| == 14 && s[0] == 14
    ensures r.Some? ==> Encode(r.value) == s
  {
    if s[1] == CS_INTERFACE && s[2] == AC_FEATURE_UNIT then
      Le32OfFromLe32(s[5], s[6], s[7], s[8]);
      Le32OfFromLe32(s[9], s[10], s[11], s[12]);
      assert s == s[..5] + [s[5], s[6], s[7], s[8]] + [s[9], s[10], s[11], s[12]] + [s[13]];
      Some(FeatureUnit(s[3], s[4], FromLe32(s[5], s[6], s[7], s[8]),
                       FromLe32(s[9], s[10], s[11], s[12]), s[13]))
    else None
  }

  /** Class-specific AudioStreaming interface descriptor. */
  function DecodeStreamingGeneral(s: seq<u8>): (r: Option<Block>)
    requires |s| == 16 && s[0] == 16
    ensures r.Some? ==> Encode(r.value) == s
  {
    if s[1] == CS_INTERFACE && s[2] == AS_GENERAL then
      Le32OfFromLe32(s[6], s[7], s[8], s[9]);
      Le32OfFromLe32(s[11], s[12], s[13], s[14]);
      assert s == s[..6] + [s[6], s[7], s[8], s[9]] + [s[10]] + [s[11], s[12], s[13], s[14]] + [s[15]];
      Some(StreamingGeneral(s[3], s[4], s[5], FromLe32(s[6], s[7], s[8], s[9]), s[10],
                            FromLe32(s[11], s[12], s[13], s[14]), s[15]))
    else None
  }

  /** Input terminal descriptor. */
  function DecodeInputTerminal(s: seq<u8>): (r: Option<Block>)
    requires |s| == 17 && s[0] == 17
    ensures r.Some? ==> Encode(r.value) == s
  {
    if s[1] == CS_INTERFACE && s[2] == AC_INPUT_TERMINAL then
      Le16OfFromLe16(s[4], s[5]);
      Le32OfFromLe32(s[9], s[10], s[11], s[12]);
      Le16OfFromLe16(s[14], s[15]);
      assert s == s[..4] + [s[4], s[5]] + s[6..9] + [s[9], s[10], s[11], s[12]] + [s[13]]
        + [s[14], s[15]] + [s[16]];
      Some(InputTerminal(s[3], FromLe16(s[4], s[5]), s[6], s[7], s[8],
                         FromLe32(s[9], s[10], s[11], s[12]), s[13], FromLe16(s[14], s[15]), s[16]))
    else None
  }

  /** Decoding the bytes of a well-formed block gives that block back. */
  lemma DecodeEncode(b: Block)
    requires WellFormed(b)
    ensures DecodeBlock(Encode(b)) == Some(b)
  {
    match b
    case InterfaceAssociation(_, _, _) =>
    case ControlInterface(_, _, _) =>
    case ControlHeader(_, _, _, _) =>
    case ClockSource(_, _, _, _, _) =>
    case InputTerminal(_, _, _, _, _, _, _, _, _) =>
    case FeatureUnit(_, _, _, _, _) =>
    case OutputTerminal(_, _, _, _, _, _, _) =>
    case StreamingInterface(_, _, _, _) =>
    case StreamingGeneral(_, _, _, _, _, _, _) =>
    case TypeIFormat(_, _) =>
    case DataEndpoint(_, _, _, _) =>
    case DataEndpointGeneral(_, _, _, _) =>
    case FeedbackEndpoint(_, _, _) =>
  }

  /** Sum of the lengths of a sequence of blocks. */
  function TotalLength(bs: seq<Block>): nat {
    if bs == [] then 0 else Length(bs[0]) as int + TotalLength(bs[1..])
  }

  /** The blocks' bytes one after the other, as the write cursor lays them out. */
  function Serialize(bs: seq<Block>): (r: seq<u8>)
    ensures |r| == TotalLength(bs)
  {
    if bs == [] then [] else Encode(bs[0]) + Serialize(bs[1..])
  }

  /** Appending one block appends its bytes. */
  lemma {:induction false} SerializeAppend(bs: seq<Block>, b: Block)
    ensures Serialize(bs + [b]) == Serialize(bs) + Encode(b)
    ensures TotalLength(bs + [b]) == TotalLength(bs) + Length(b) as int
  {
    if bs == [] {
      assert bs + [b] == [b];
    } else {
      assert (bs + [b])[1..] == bs[1..] + [b];
      SerializeAppend(bs[1..], b);
    }
  }

  /** The length of a block sequence is the length of any prefix plus that of the rest. */
  lemma {:induction false} TotalLengthSplit(bs: seq<Block>, j: nat)
    requires j <= |bs|
    ensures TotalLength(bs) == TotalLength(bs[..j]) + TotalLength(bs[j..])
    decreases |bs|
  {
    if j == |bs| {
      assert bs[..j] == bs;
      assert bs[j..] == [];
    } else {
      var init := bs[..|bs| - 1];
      var last := bs[|bs| - 1];
      assert bs == init + [last];
      SerializeAppend(init, last);
      TotalLengthSplit(init, j);
      assert bs[..j] == init[..j];
      assert bs[j..] == init[j..] + [last];
      SerializeAppend(init[j..], last);
    }
  }

  /** Splits a byte string into blocks, each announcing its own length. */
  function Parse(s: seq<u8>): (r: Option<seq<Block>>)
    decreases |s|
  {
    if s == [] then Some([])
    else if s[0] == 0 || |s| < s[0] as int then None
    else
      match DecodeBlock(s[..s[0]])
      case None => None
      case Some(b) =>
        match Parse(s[s[0]..])
        case None => None
        case Some(bs) => Some([b] + bs)
  }

  /** Prepending one block prepends its bytes. */
  lemma SerializeCons(b: Block, bs: seq<Block>)
    ensures Serialize([b] + bs) == Encode(b) + Serialize(bs)
  {
    assert ([b] + bs)[1..] == bs;
  }

  /** A byte string that parses is exactly the serialization of the blocks it parses into. */
  lemma {:induction false} SerializeParse(s: seq<u8>)
    requires Parse(s).Some?
    ensures Serialize(Parse(s).value) == s
    decreases |s|
  {
    if s != [] {
      var head := s[..s[0]];
      var b := DecodeBlock(head).value;
      var bs := Parse(s[s[0]..]).value;
      SerializeParse(s[s[0]..]);
      SerializeCons(b, bs);
      assert s == head + s[s[0]..];
    }
  }

  /** Every block of a serialized sequence of well-formed blocks reads back, in order. */
  lemma {:induction false} ParseSerialize(bs: seq<Block>)
    requires forall i :: 0 <= i < |bs| ==> WellFormed(bs[i])
    ensures Parse(Serialize(bs)) == Some(bs)
  {
    if bs != [] {
      var e := Encode(bs[0]);
      var rest := Serialize(bs[1..]);
      assert Serialize(bs) == e + rest;
      assert (e + rest)[..e[0]] == e;
      assert (e + rest)[e[0]..] == rest;
      DecodeEncode(bs[0]);
      ParseSerialize(bs[1..]);
      assert [bs[0]] + bs[1..] == bs;
    }
  }
}
