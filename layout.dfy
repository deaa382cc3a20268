/**
 * The interface descriptor of the single-channel audio function: which
 * seventeen blocks it emits, in which order, with which field values, and the
 * chain of entity IDs that links the clock, the terminals and the feature
 * units.
 */
module AudioLayout {
  import opened Uint
  import opened Wrappers
  import opened Uac2

  /** Interfaces reserved for the function (AudioControl and AudioStreaming). */
  const ITF_COUNT: u8 := 2
  const POLLING_INTERVAL: u8 := 100
  const MAX_PACKET_SIZE: u16 := 512
  /** The release number as the code passes it: 2, where UAC2 writes 2.00 as 0x0200. */
  const BCD_ADC: u16 := 2
  const MUSICAL_INSTRUMENT: u8 := 0x09
  /** Clock source attributes: internal fixed clock. */
  const INTERNAL_FIXED_CLOCK: u8 := 0x01
  const USB_STREAMING: u16 := 0x0101
  const ANALOG_CONNECTOR: u16 := 0x0601
  /** Master channel controls of each feature unit: mute, host-programmable. */
  const MUTE_WRITABLE: u32 := 0x0000_0003
  /** Spatial location of the one physical channel: front centre. */
  const FRONT_CENTER: u32 := 0x0000_0004
  /** Isochronous, asynchronous, data endpoint. */
  const ASYNC_DATA_ATTRIBUTES: u8 := 0x05
  /** Type I format as emitted: 2-byte subslots carrying 16 bits, whatever the configured depth. */
  const SUBSLOT_SIZE: u8 := 2
  const BIT_RESOLUTION: u8 := 16

  /** Total descriptor length: the sum of the seventeen block lengths, in emission order. */
  const DESC_LEN: u16 :=
    IAD_LEN + STD_AC_LEN + CS_AC_LEN
    + CLK_SRC_LEN + INPUT_TERM_LEN + FEATURE_UNIT_ONE_CHANNEL_LEN + OUTPUT_TERM_LEN
    + INPUT_TERM_LEN + FEATURE_UNIT_ONE_CHANNEL_LEN + OUTPUT_TERM_LEN
    + STD_AS_INT_LEN + STD_AS_INT_LEN + CS_AS_INT_LEN + TYPE_I_FORMAT_LEN
    + STD_AS_ISO_EP_LEN + CS_AS_ISO_EP_LEN + STD_AS_ISO_FB_EP_LEN

  /**
   * The total length announced by the class-specific AudioControl header:
   * the clock source, two input terminals, two output terminals and ONE
   * feature unit.
   */
  const AC_TOTAL_LEN: u16 :=
    CLK_SRC_LEN + INPUT_TERM_LEN * 2 + OUTPUT_TERM_LEN * 2 + FEATURE_UNIT_ONE_CHANNEL_LEN

  /** String descriptor indices the blocks refer to. */
  datatype StringIndices = StringIndices(interfaceName: u8, featureUnit: u8, outputTerminal: u8,
                                         inputTerminal: u8)

  /**
   * The blocks in emission order, for the allocated interface number and
   * endpoint addresses. Entity IDs are handed out by a counter starting at 1:
   * the clock, then the USB-streaming input terminal, its feature unit and
   * the analog output terminal, then the analog input terminal, its feature
   * unit and the USB-streaming output terminal.
   */
  function Layout(itfNum: u8, epIn: u8, epOut: u8, names: StringIndices): (r: seq<Block>)
    ensures |r| == 17
  {
    var clock: u8 := 1;
    var hostInput: u8 := clock + 1;
    var playbackUnit: u8 := hostInput + 1;
    var lineOut: u8 := playbackUnit + 1;
    var lineIn: u8 := lineOut + 1;
    var captureUnit: u8 := lineIn + 1;
    var hostOutput: u8 := captureUnit + 1;
    [ InterfaceAssociation(itfNum, ITF_COUNT, names.interfaceName),
      ControlInterface(itfNum, 0, 0),
      ControlHeader(BCD_ADC, MUSICAL_INSTRUMENT, AC_TOTAL_LEN, 0x00),
      ClockSource(clock, INTERNAL_FIXED_CLOCK, 0x00, 0, 0),
      InputTerminal(hostInput, USB_STREAMING, hostInput + 2, clock, 1, 0, 0, 0x0000, 0),
      FeatureUnit(playbackUnit, playbackUnit, MUTE_WRITABLE, 0, names.featureUnit),
      OutputTerminal(lineOut, ANALOG_CONNECTOR, lineOut - 2, lineOut - 1, clock, 0x0000,
                     names.outputTerminal),
      InputTerminal(lineIn, ANALOG_CONNECTOR, lineIn + 2, clock, 1, 0, 0, 0x0000, names.inputTerminal),
      FeatureUnit(captureUnit, captureUnit, MUTE_WRITABLE, 0, names.featureUnit),
      OutputTerminal(hostOutput, USB_STREAMING, hostOutput - 2, hostOutput - 1, clock, 0x0000, 0),
      StreamingInterface(itfNum, 0, 0, 0),
      StreamingInterface(itfNum, 1, ITF_COUNT, 0),
      StreamingGeneral(hostInput, 0x00, FORMAT_TYPE_I, 0, 1, FRONT_CENTER, 0),
      TypeIFormat(SUBSLOT_SIZE, BIT_RESOLUTION),
      DataEndpoint(epOut, ASYNC_DATA_ATTRIBUTES, MAX_PACKET_SIZE, POLLING_INTERVAL),
      DataEndpointGeneral(0x00, 0x00, 0x00, 0x0000),
      FeedbackEndpoint(epIn, MAX_PACKET_SIZE, POLLING_INTERVAL) ]
  }

  /** Clock sources, terminals and units are the entities that carry an ID. */
  predicate IsEntity(b: Block) {
    b.ClockSource? || b.InputTerminal? || b.OutputTerminal? || b.FeatureUnit?
  }

  function EntityId(b: Block): u8
    requires IsEntity(b)
  {
    match b
    case ClockSource(id, _, _, _, _) => id
    case InputTerminal(id, _, _, _, _, _, _, _, _) => id
    case OutputTerminal(id, _, _, _, _, _, _) => id
    case FeatureUnit(id, _, _, _, _) => id
  }

  /** One step of the length sum over a suffix of a block sequence. */
  lemma UnrollLength(bs: seq<Block>, i: nat)
    requires i < |bs|
    ensures TotalLength(bs[i..]) == Length(bs[i]) as int + TotalLength(bs[i + 1..])
  {
    assert bs[i..][1..] == bs[i + 1..];
  }

  /** The length of seven blocks, block by block. */
  lemma {:induction false} Length7(r: seq<Block>)
    requires |r| == 7
    ensures TotalLength(r) == Length(r[0]) as int + Length(r[1]) as int + Length(r[2]) as int
      + Length(r[3]) as int + Length(r[4]) as int + Length(r[5]) as int + Length(r[6]) as int
  {
    assert r[7..] == [];
    UnrollLength(r, 6); UnrollLength(r, 5); UnrollLength(r, 4); UnrollLength(r, 3);
    UnrollLength(r, 2); UnrollLength(r, 1); UnrollLength(r, 0);
    assert r[0..] == r;
  }

  /** The length of seventeen blocks, block by block. */
  lemma {:induction false} Length17(r: seq<Block>)
    requires |r| == 17
    ensures TotalLength(r) == Length(r[0]) as int + Length(r[1]) as int + Length(r[2]) as int
      + Length(r[3]) as int + Length(r[4]) as int + Length(r[5]) as int + Length(r[6]) as int
      + Length(r[7]) as int + Length(r[8]) as int + Length(r[9]) as int + Length(r[10]) as int
      + Length(r[11]) as int + Length(r[12]) as int + Length(r[13]) as int + Length(r[14]) as int
      + Length(r[15]) as int + Length(r[16]) as int
  {
    assert r[17..] == [];
    UnrollLength(r, 16); UnrollLength(r, 15); UnrollLength(r, 14); UnrollLength(r, 13);
    UnrollLength(r, 12); UnrollLength(r, 11); UnrollLength(r, 10); UnrollLength(r, 9);
    UnrollLength(r, 8); UnrollLength(r, 7); UnrollLength(r, 6); UnrollLength(r, 5);
    UnrollLength(r, 4); UnrollLength(r, 3); UnrollLength(r, 2); UnrollLength(r, 1);
    UnrollLength(r, 0);
    assert r[0..] == r;
  }

  /** The blocks' lengths add up to the length the descriptor announces. */
  lemma LayoutLength(itfNum: u8, epIn: u8, epOut: u8, names: StringIndices)
    ensures TotalLength(Layout(itfNum, epIn, epOut, names)) == DESC_LEN as int
    ensures |Serialize(Layout(itfNum, epIn, epOut, names))| == DESC_LEN as int
  {
    Length17(Layout(itfNum, epIn, epOut, names));
  }

  /** The descriptor bytes read back as exactly the seventeen blocks, in order. */
  lemma LayoutReadsBack(itfNum: u8, epIn: u8, epOut: u8, names: StringIndices)
    ensures Parse(Serialize(Layout(itfNum, epIn, epOut, names))) == Some(Layout(itfNum, epIn, epOut, names))
  {
    var r := Layout(itfNum, epIn, epOut, names);
    assert forall i :: 0 <= i < |r| ==> WellFormed(r[i]);
    ParseSerialize(r);
  }

  /** An index of a seventeen-block layout is one of its seventeen positions. */
  lemma Positions(i: int)
    requires 0 <= i < 17
    ensures i == 0 || i == 1 || i == 2 || i == 3 || i == 4 || i == 5 || i == 6 || i == 7 || i == 8
      || i == 9 || i == 10 || i == 11 || i == 12 || i == 13 || i == 14 || i == 15 || i == 16
  {
  }

  /**
   * The entity blocks are exactly the seven at positions 3 to 9, and the
   * counter hands them consecutive IDs from 1 in emission order, so no two
   * entities share an ID.
   */
  lemma LayoutEntityIds(itfNum: u8, epIn: u8, epOut: u8, names: StringIndices)
    ensures var r := Layout(itfNum, epIn, epOut, names);
      && (forall i :: 0 <= i < |r| ==> (IsEntity(r[i]) <==> 3 <= i < 10))
      && (forall i :: 0 <= i < |r| && IsEntity(r[i]) ==> EntityId(r[i]) as int == i - 2)
      && (forall i, j ::
            (0 <= i < |r| && 0 <= j < |r| && IsEntity(r[i]) && IsEntity(r[j])
             && EntityId(r[i]) == EntityId(r[j])) ==> i == j)
  {
    var r := Layout(itfNum, epIn, epOut, names);
    forall i | 0 <= i < |r|
      ensures (IsEntity(r[i]) <==> 3 <= i < 10) && (IsEntity(r[i]) ==> EntityId(r[i]) as int == i - 2)
    {
      Positions(i);
    }
  }

  /**
   * The links between the entities: every input terminal names the output
   * terminal two IDs on as its partner, every output terminal names the
   * input terminal two IDs back as partner and the entity just before it as
   * its source, every terminal is clocked by the clock source, and the
   * streaming interface links to the USB-streaming input terminal.
   */
  lemma LayoutLinks(itfNum: u8, epIn: u8, epOut: u8, names: StringIndices)
    ensures var r := Layout(itfNum, epIn, epOut, names);
      && r[3].ClockSource? && r[3].clockId == 1
      && (forall i :: 0 <= i < |r| && r[i].InputTerminal? ==>
            r[i].assocTerminal == r[i].terminalId + 2 && r[i].clockId == r[3].clockId
            && i + 2 < |r| && r[i + 2].OutputTerminal? && r[i + 2].terminalId == r[i].assocTerminal
            && r[i + 2].assocTerminal == r[i].terminalId)
      && (forall i :: 0 <= i < |r| && r[i].OutputTerminal? ==>
            r[i].assocTerminal == r[i].terminalId - 2 && r[i].clockId == r[3].clockId
            && r[i].sourceId == r[i].terminalId - 1
            && 0 < i && r[i - 1].FeatureUnit? && r[i - 1].unitId == r[i].sourceId)
      && r[12].StreamingGeneral? && r[12].terminalLink == 2
      && r[4].InputTerminal? && r[4].terminalId == 2 && r[4].terminalType == USB_STREAMING
  {
    var r := Layout(itfNum, epIn, epOut, names);
    forall i | 0 <= i < |r| && r[i].InputTerminal?
      ensures i == 4 || i == 7
    {
      Positions(i);
    }
    forall i | 0 <= i < |r| && r[i].OutputTerminal?
      ensures i == 6 || i == 9
    {
      Positions(i);
    }
  }

  /**
   * Each feature unit names ITSELF as its source, not the input terminal
   * just before it, so neither terminal pair is connected through its unit.
   */
  lemma FeatureUnitsAreTheirOwnSource(itfNum: u8, epIn: u8, epOut: u8, names: StringIndices)
    ensures var r := Layout(itfNum, epIn, epOut, names);
      (forall i :: 0 <= i < |r| && r[i].FeatureUnit? ==>
         r[i].sourceId == r[i].unitId && 0 < i && r[i - 1].InputTerminal?
         && r[i].sourceId != r[i - 1].terminalId)
  {
    var r := Layout(itfNum, epIn, epOut, names);
    forall i | 0 <= i < |r| && r[i].FeatureUnit?
      ensures i == 5 || i == 8
    {
      Positions(i);
    }
  }

  /**
   * The class-specific AudioControl header is passed a covered length one
   * feature unit short of the entity blocks actually emitted, which are
   * exactly the blocks at positions 3 to 9.
   */
  lemma ControlTotalLengthMissesOneUnit(itfNum: u8, epIn: u8, epOut: u8, names: StringIndices)
    ensures var r := Layout(itfNum, epIn, epOut, names);
      && r[2].ControlHeader? && r[2].totalLength == AC_TOTAL_LEN
      && (forall i :: 0 <= i < |r| ==> (IsEntity(r[i]) <==> 3 <= i < 10))
      && TotalLength(r[3..10]) == AC_TOTAL_LEN as int + FEATURE_UNIT_ONE_CHANNEL_LEN as int
  {
    var r := Layout(itfNum, epIn, epOut, names);
    LayoutEntityIds(itfNum, epIn, epOut, names);
    var e := r[3..10];
    Length7(e);
    assert e[0] == r[3] && e[1] == r[4] && e[2] == r[5] && e[3] == r[6] && e[4] == r[7] && e[5] == r[8] && e[6] == r[9];
  }

  /**
   * On the wire, the header's wTotalLength is one feature unit short of the
   * header and the blocks it covers together.
   */
  lemma ControlWireLengthMissesOneUnit(itfNum: u8, epIn: u8, epOut: u8, names: StringIndices)
    ensures var r := Layout(itfNum, epIn, epOut, names);
      var header := Encode(r[2]);
      FromLe16(header[6], header[7]) as int + FEATURE_UNIT_ONE_CHANNEL_LEN as int == TotalLength(r[2..10])
  {
    var r := Layout(itfNum, epIn, epOut, names);
    ControlTotalLengthMissesOneUnit(itfNum, epIn, epOut, names);
    ControlHeaderField(r[2]);
    UnrollLength(r[2..10], 0);
    assert r[2..10][1..] == r[3..10];
  }

  /**
   * The association reserves two interfaces, but both AudioStreaming
   * alternate settings carry the AudioControl interface number; the format
   * is 2-byte, 16-bit PCM whatever the configured bit depth; the data
   * endpoint is the OUT endpoint and the feedback endpoint the IN endpoint.
   */
  lemma StreamingSide(itfNum: u8, epIn: u8, epOut: u8, names: StringIndices)
    ensures var r := Layout(itfNum, epIn, epOut, names);
      && r[0] == InterfaceAssociation(itfNum, 2, names.interfaceName)
      && r[1].ControlInterface? && r[1].interfaceNumber == itfNum
      && r[10] == StreamingInterface(itfNum, 0, 0, 0)
      && r[11] == StreamingInterface(itfNum, 1, 2, 0)
      && r[13] == TypeIFormat(2, 16)
      && r[14].DataEndpoint? && r[14].address == epOut
      && r[16].FeedbackEndpoint? && r[16].address == epIn
  {
  }
}
