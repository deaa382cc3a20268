/**
 * The USBD_Audio interface object: it registers its descriptor strings when
 * constructed, adds itself to the device once, moves audio bytes between its
 * buffers and the audio class transport, and writes its interface
 * descriptor into the buffer the device hands it.
 */
module AudioInterface {
  import opened Uint
  import opened Uac2
  import opened AudioLayout
  import opened TinyUsb

  /** Samples per channel buffered when the caller does not say otherwise. */
  const DEFAULT_BUFFER_SAMPLES: u16 := 32

  /** Half of the size_t range: doubling a count at or above it wraps. */
  const HALF_SIZE_LIMIT := 0x8000_0000

  /**
   * The buffer size the constructor computes: channels times bit depth times
   * samples, kept in a 16-bit field and so truncated modulo 2^16.
   */
  function BufferSize(channels: u8, bitDepth: u8, depth: u16): u16 {
    (channels as int * bitDepth as int * depth as int) % U16_LIMIT
  }

  /**
   * While nothing is truncated, a whole-byte bit depth gives eight times the
   * bytes the samples occupy: the size counts bits, not bytes.
   */
  lemma BufferSizeCountsBits(channels: u8, bitDepth: u8, depth: u16)
    requires channels as int * bitDepth as int * depth as int < U16_LIMIT
    requires bitDepth % 8 == 0
    ensures BufferSize(channels, bitDepth, depth) as int
         == 8 * (channels as int * (bitDepth as int / 8) * depth as int)
  {
    var c, d, k := channels as int, depth as int, bitDepth as int / 8;
    assert bitDepth as int == 8 * k;
    assert c * bitDepth as int * d == 8 * (c * k * d) by {
      assert c * (8 * k) == 8 * (c * k);
      assert 8 * (c * k) * d == 8 * (c * k * d);
    }
  }

  /**
   * One 16-bit channel with the default 32 samples gets 512-byte buffers,
   * eight times the 64 bytes the samples occupy; with 4096 samples the
   * product wraps and the buffers have no bytes at all.
   */
  lemma BufferSizeExamples()
    ensures BufferSize(1, 16, DEFAULT_BUFFER_SAMPLES) == 512
    ensures BufferSize(1, 16, 4096) == 0
    ensures BufferSize(2, 16, 2048) == 0
  {
  }

  /** `n * 2` evaluated in size_t arithmetic: wraps modulo 2^32. */
  function Widen(n: size_t): size_t {
    (2 * n) % SIZE_LIMIT
  }

  /**
   * Doubling a count in size_t and halving it again loses its top bit: counts
   * below 2^31 come back unchanged, larger ones come back 2^31 smaller.
   */
  lemma WidenThenHalve(n: size_t)
    ensures Widen(n) / 2 == n % HALF_SIZE_LIMIT
    ensures n < HALF_SIZE_LIMIT ==> Widen(n) == 2 * n
  {
    if n < HALF_SIZE_LIMIT {
      assert Widen(n) == 2 * n;
    } else {
      assert Widen(n) == 2 * n - SIZE_LIMIT;
    }
  }

  /**
   * The transmit buffer after the transport took `accepted` of its `count`
   * pending bytes: if it took all or none the buffer stays as it was (the
   * count tells which), and after a partial take the untaken bytes are moved
   * to the front.
   */
  function Unsent(s: seq<u8>, count: nat, accepted: nat): (r: seq<u8>)
    requires accepted <= count <= |s|
    ensures |r| == |s|
  {
    if accepted == count || accepted == 0 then s
    else s[accepted..count] + s[count - accepted..]
  }

  /** A buffer whose first bytes were overwritten by `data`. */
  function Overwrite(s: seq<u8>, data: seq<u8>): (r: seq<u8>)
    requires |data| <= |s|
    ensures |r| == |s|
  {
    data + s[|data|..]
  }

  /**
   * The transmit side of the buffer: its bytes and how many of them, from
   * the front, are waiting to be sent.
   */
  datatype TxState = TxState(buffer: seq<u8>, count: nat)

  predicate Fits(st: TxState) {
    st.count <= |st.buffer|
  }

  /** The bytes waiting to be sent, in order. */
  function Pending(st: TxState): seq<u8>
    requires Fits(st)
  {
    st.buffer[..st.count]
  }

  /** One transmit call in which the transport took `accepted` bytes. */
  function Transmit(st: TxState, accepted: nat): (r: TxState)
    requires Fits(st) && accepted <= st.count
    ensures Fits(r)
  {
    TxState(Unsent(st.buffer, st.count, accepted), st.count - accepted)
  }

  /**
   * A transmit call loses, duplicates and reorders nothing: the bytes the
   * transport took followed by the bytes still pending are the bytes that
   * were pending.
   */
  lemma TransmitKeepsOrder(st: TxState, accepted: nat)
    requires Fits(st) && accepted <= st.count
    ensures st.buffer[..accepted] + Pending(Transmit(st, accepted)) == Pending(st)
    ensures Transmit(st, accepted).buffer[Transmit(st, accepted).count..] == st.buffer[st.count - accepted..]
  {
    var r := Transmit(st, accepted);
    if accepted == st.count {
      assert Pending(r) == [];
    } else if accepted == 0 {
    } else {
      assert Pending(r) == st.buffer[accepted..st.count];
    }
  }

  function Min(a: nat, b: nat): nat {
    if a <= b then a else b
  }

  /**
   * Successive transmit calls in which the transport offers to take the
   * given numbers of bytes (it never takes more than are pending): the state
   * they leave.
   */
  function TransmitAll(st: TxState, offers: seq<nat>): (r: TxState)
    requires Fits(st)
    ensures Fits(r)
    decreases |offers|
  {
    if offers == [] then st
    else TransmitAll(Transmit(st, Min(offers[0], st.count)), offers[1..])
  }

  /** The bytes the transport took over those calls, in the order it took them. */
  function SentAll(st: TxState, offers: seq<nat>): seq<u8>
    requires Fits(st)
    decreases |offers|
  {
    if offers == [] then []
    else
      var k := Min(offers[0], st.count);
      st.buffer[..k] + SentAll(Transmit(st, k), offers[1..])
  }

  /**
   * Over any number of transmit calls the host receives a prefix of the
   * pending bytes, in order, and the rest is still pending.
   */
  lemma {:induction false} TransmitAllKeepsOrder(st: TxState, offers: seq<nat>)
    requires Fits(st)
    ensures SentAll(st, offers) + Pending(TransmitAll(st, offers)) == Pending(st)
    decreases |offers|
  {
    if offers != [] {
      var k := Min(offers[0], st.count);
      var next := Transmit(st, k);
      TransmitKeepsOrder(st, k);
      TransmitAllKeepsOrder(next, offers[1..]);
      calc {
        SentAll(st, offers) + Pending(TransmitAll(st, offers));
        (st.buffer[..k] + SentAll(next, offers[1..])) + Pending(TransmitAll(next, offers[1..]));
        st.buffer[..k] + (SentAll(next, offers[1..]) + Pending(TransmitAll(next, offers[1..])));
        st.buffer[..k] + Pending(next);
        Pending(st);
      }
    }
  }

  /**
   * In the 16-bit form the byte count is the sample count doubled, and the
   * remaining byte count is halved back. When the transport takes an odd
   * number of bytes the last pending byte is no longer counted, and the
   * first pending byte is the second half of a sample.
   */
  lemma {:induction false} OddTakeDropsLastByte(s: seq<u8>, samples: size_t, accepted: nat)
    requires samples < HALF_SIZE_LIMIT && 2 * samples <= |s|
    requires accepted <= 2 * samples && accepted % 2 == 1
    ensures var after := Transmit(TxState(s, Widen(samples)), accepted);
      var left := TxState(after.buffer, 2 * (after.count / 2));
      && Pending(left) == s[accepted..2 * samples - 1]
      && Pending(after) == Pending(left) + [s[2 * samples - 1]]
  {
    WidenThenHalve(samples);
    var st := TxState(s, 2 * samples);
    TransmitKeepsOrder(st, accepted);
    var after := Transmit(st, accepted);
    assert after.count == 2 * samples - accepted;
    assert 2 * (after.count / 2) == after.count - 1;
    assert Pending(after) == s[accepted..2 * samples] by {
      assert s[..accepted] + Pending(after) == s[..2 * samples];
      assert s[..2 * samples] == s[..accepted] + s[accepted..2 * samples];
    }
  }

  /**
   * A round through the 16-bit form with 20 samples pending and a transport
   * that takes 12 bytes: 40 bytes are offered, 28 remain at the front and
   * the count cell ends at 14 samples, half the bytes left.
   */
  lemma SampleRoundExample(s: seq<u8>)
    requires |s| >= 40
    ensures var after := Transmit(TxState(s, Widen(20)), 12);
      && Widen(20) == 40 && after.count / 2 == 14 && Pending(after) == s[12..40]
  {
    var st := TxState(s, Widen(20));
    TransmitKeepsOrder(st, 12);
    var after := Transmit(st, 12);
    assert s[..12] + Pending(after) == s[..12] + s[12..40];
  }

  /** A `size_t` variable whose address is passed to the transport logic. */
  class Count {
    var value: size_t

    constructor (value: size_t)
      ensures this.value == value
    {
      this.value := value;
    }
  }

  /** Moves `count` bytes starting at `from` to the front of `a`, as `memmove(a, a + from, count)`. */
  method MoveToFront(a: array<u8>, from: nat, count: nat)
    requires from + count <= a.Length
    modifies a
    ensures a[..] == old(a[from..from + count]) + old(a[count..])
  {
    forall i | 0 <= i < count {
      a[i] := a[from + i];
    }
  }

  /** Copies `desc` into `buf` at offset `at`, as `memcpy(buf + at, desc, |desc|)`. */
  method CopyAt(buf: array<u8>, at: nat, desc: seq<u8>)
    requires at + |desc| <= buf.Length
    modifies buf
    ensures buf[..] == old(buf[..at]) + desc + old(buf[at + |desc|..])
  {
    forall i | 0 <= i < |desc| {
      buf[at + i] := desc[i];
    }
  }

  /**
   * Copies block `k` of `blocks` to `buf` at the write cursor `len` and
   * returns the cursor after it. The buffer holds the blocks before `k` in
   * front of the bytes of `orig`, its contents before the first block was
   * written.
   */
  method Emit(buf: array<u8>, len: u16, blocks: seq<Block>, k: nat, ghost orig: seq<u8>) returns (next: u16)
    requires k < |blocks| && |orig| == buf.Length
    requires TotalLength(blocks) <= buf.Length && TotalLength(blocks) < U16_LIMIT
    requires len as int == TotalLength(blocks[..k]) && len as int <= buf.Length
    requires buf[..] == Serialize(blocks[..k]) + orig[len..]
    modifies buf
    ensures next as int == TotalLength(blocks[..k + 1]) && next as int <= buf.Length
    ensures buf[..] == Serialize(blocks[..k + 1]) + orig[next..]
  {
    assert blocks[..k + 1] == blocks[..k] + [blocks[k]];
    SerializeAppend(blocks[..k], blocks[k]);
    TotalLengthSplit(blocks, k + 1);
    var desc := Encode(blocks[k]);
    assert buf[..len] == Serialize(blocks[..k]);
    assert buf[len as int + |desc|..] == orig[len as int + |desc|..];
    CopyAt(buf, len as int, desc);
    next := len + |desc|;
  }

  /** Writes the association and the two AudioControl interface blocks. */
  method WriteHeader(buf: array<u8>, len: u16, blocks: seq<Block>, ghost orig: seq<u8>) returns (next: u16)
    requires |blocks| == 17 && |orig| == buf.Length
    requires TotalLength(blocks) <= buf.Length && TotalLength(blocks) < U16_LIMIT
    requires len as int == TotalLength(blocks[..0]) && len as int <= buf.Length
    requires buf[..] == Serialize(blocks[..0]) + orig[len..]
    modifies buf
    ensures next as int == TotalLength(blocks[..3]) && next as int <= buf.Length
    ensures buf[..] == Serialize(blocks[..3]) + orig[next..]
  {
    next := len;
    next := Emit(buf, next, blocks, 0, orig);
    next := Emit(buf, next, blocks, 1, orig);
    next := Emit(buf, next, blocks, 2, orig);
  }

  /** Writes the clock, terminal and unit blocks that the AudioControl header's total length covers. */
  method WriteEntities(buf: array<u8>, len: u16, blocks: seq<Block>, ghost orig: seq<u8>) returns (next: u16)
    requires |blocks| == 17 && |orig| == buf.Length
    requires TotalLength(blocks) <= buf.Length && TotalLength(blocks) < U16_LIMIT
    requires len as int == TotalLength(blocks[..3]) && len as int <= buf.Length
    requires buf[..] == Serialize(blocks[..3]) + orig[len..]
    modifies buf
    ensures next as int == TotalLength(blocks[..10]) && next as int <= buf.Length
    ensures buf[..] == Serialize(blocks[..10]) + orig[next..]
  {
    next := len;
    next := Emit(buf, next, blocks, 3, orig);
    next := Emit(buf, next, blocks, 4, orig);
    next := Emit(buf, next, blocks, 5, orig);
    next := Emit(buf, next, blocks, 6, orig);
    next := Emit(buf, next, blocks, 7, orig);
    next := Emit(buf, next, blocks, 8, orig);
    next := Emit(buf, next, blocks, 9, orig);
  }

  /** Writes the AudioStreaming interface, format and endpoint blocks. */
  method WriteStreaming(buf: array<u8>, len: u16, blocks: seq<Block>, ghost orig: seq<u8>) returns (next: u16)
    requires |blocks| == 17 && |orig| == buf.Length
    requires TotalLength(blocks) <= buf.Length && TotalLength(blocks) < U16_LIMIT
    requires len as int == TotalLength(blocks[..10]) && len as int <= buf.Length
    requires buf[..] == Serialize(blocks[..10]) + orig[len..]
    modifies buf
    ensures next as int == TotalLength(blocks[..17]) && next as int <= buf.Length
    ensures buf[..] == Serialize(blocks[..17]) + orig[next..]
  {
    next := len;
    next := Emit(buf, next, blocks, 10, orig);
    next := Emit(buf, next, blocks, 11, orig);
    next := Emit(buf, next, blocks, 12, orig);
    next := Emit(buf, next, blocks, 13, orig);
    next := Emit(buf, next, blocks, 14, orig);
    next := Emit(buf, next, blocks, 15, orig);
    next := Emit(buf, next, blocks, 16, orig);
  }

  /**
   * Writes the seventeen blocks one after the other from the front of `buf`
   * and returns the cursor after the last; the bytes after it are untouched.
   */
  method WriteBlocks(buf: array<u8>, blocks: seq<Block>) returns (len: u16)
    requires |blocks| == 17
    requires TotalLength(blocks) <= buf.Length && TotalLength(blocks) < U16_LIMIT
    modifies buf
    ensures len as int == TotalLength(blocks)
    ensures buf[..len] == Serialize(blocks) && buf[len..] == old(buf[len..])
  {
    ghost var orig := buf[..];
    len := 0;
    assert blocks[..0] == [];
    assert buf[..] == Serialize(blocks[..0]) + orig[len..];
    len := WriteHeader(buf, len, blocks, orig);
    len := WriteEntities(buf, len, blocks, orig);
    len := WriteStreaming(buf, len, blocks, orig);
    assert blocks[..17] == blocks;
  }

  class UsbdAudio {
    /** The global device object and the audio class transport. */
    const device: Device
    const transport: Transport

    /** String descriptor indices: the interface's own (kept by its base class) and those registered here. */
    var interfaceStrIndex: u8
    var audioCollectionStrIndex: u8
    var featureUnitStrIndex: u8
    var inputTerminalStrIndex: u8
    var outputTerminalStrIndex: u8

    const channels: u8
    const bitDepth: u8
    const bufferSampleDepth: u16
    const bufferSize: u16

    var txBuffer: array?<u8>
    var rxBuffer: array?<u8>
    const txBufCount: Count
    var rxBufCount: size_t

    var alreadyAdded: bool

    /**
     * The buffers exist exactly when a sample depth was given, are separate
     * and `bufferSize` bytes long; no code path ever changes the two counts,
     * so they stay zero.
     */
    ghost predicate Valid()
      reads this, txBufCount
    {
      && bufferSize == BufferSize(channels, bitDepth, bufferSampleDepth)
      && txBufCount.value == 0 && rxBufCount == 0
      && (bufferSampleDepth != 0 ==>
            && txBuffer != null && rxBuffer != null && txBuffer != rxBuffer
            && txBuffer.Length == bufferSize as int && rxBuffer.Length == bufferSize as int)
      && (bufferSampleDepth == 0 ==> txBuffer == null && rxBuffer == null)
    }

    /** The string indices the descriptor refers to. */
    function Names(): StringIndices
      reads this
    {
      StringIndices(interfaceStrIndex, featureUnitStrIndex, outputTerminalStrIndex, inputTerminalStrIndex)
    }

    /**
     * Allocates both buffers when a sample depth is given, then registers
     * the feature unit, analog output and analog input names, in that order.
     */
    constructor (device: Device, transport: Transport, numberOfChannels: u8, bitDepth: u8,
                 bufferSampleDepth: u16 := DEFAULT_BUFFER_SAMPLES)
      modifies device
      ensures this.device == device && this.transport == transport
      ensures channels == numberOfChannels && this.bitDepth == bitDepth
      ensures this.bufferSampleDepth == bufferSampleDepth
      ensures Valid()
      ensures bufferSampleDepth != 0 ==> fresh(txBuffer) && fresh(rxBuffer)
      ensures fresh(txBufCount)
      ensures !alreadyAdded && interfaceStrIndex == 0 && audioCollectionStrIndex == 0
      ensures device.calls == old(device.calls)
        + [ StringAdded(FeatureUnitName, featureUnitStrIndex),
            StringAdded(OutputTerminalAnalogName, outputTerminalStrIndex),
            StringAdded(InputTerminalAnalogName, inputTerminalStrIndex) ]
    {
      this.device := device;
      this.transport := transport;
      channels := numberOfChannels;
      this.bitDepth := bitDepth;
      this.bufferSampleDepth := bufferSampleDepth;
      var size := BufferSize(numberOfChannels, bitDepth, bufferSampleDepth);
      bufferSize := size;
      txBufCount := new Count(0);
      rxBufCount := 0;
      alreadyAdded := false;
      interfaceStrIndex := 0;
      audioCollectionStrIndex := 0;
      if bufferSampleDepth != 0 {
        txBuffer := new u8[size];
        rxBuffer := new u8[size];
      } else {
        txBuffer := null;
        rxBuffer := null;
      }
      var f := device.AddStringDescriptor(FeatureUnitName);
      var o := device.AddStringDescriptor(OutputTerminalAnalogName);
      var i := device.AddStringDescriptor(InputTerminalAnalogName);
      featureUnitStrIndex := f;
      outputTerminalStrIndex := o;
      inputTerminalStrIndex := i;
    }

    /** Adds the interface to the device, at most once; reports whether this call added it. */
    method Begin() returns (added: bool)
      modifies this`alreadyAdded, device
      ensures old(alreadyAdded) ==> !added && device.calls == old(device.calls)
      ensures !old(alreadyAdded) ==> device.calls == old(device.calls) + [InterfaceAdded(added)]
      ensures alreadyAdded == (old(alreadyAdded) || added)
    {
      if alreadyAdded {
        return false;
      }
      var ok := device.AddInterface();
      if !ok {
        return false;
      }
      alreadyAdded := true;
      return true;
    }

    /**
     * One transfer round on byte buffers. When there is a transmit buffer
     * and a count cell, the pending bytes are offered to the transport and
     * the count and buffer become those of `Transmit`; then, when there is a
     * receive buffer and a non-zero count, up to that many bytes are read to
     * its front. The buffers may be the same array. The result is never true.
     */
    method UpdateBytes(txBuf: array?<u8>, txCount: Count?, rxBuf: array?<u8>, rxCount: size_t)
      returns (ok: bool, ghost accepted: nat, ghost received: seq<u8>)
      requires txBuf != null && txCount != null ==> txCount.value <= txBuf.Length
      requires rxBuf != null ==> rxCount <= rxBuf.Length
      modifies txBuf, rxBuf, txCount, transport
      ensures !ok
      ensures txBuf != null && txCount != null ==>
        accepted <= old(txCount.value) && txCount.value == old(txCount.value) - accepted
      ensures (txBuf == null || txCount == null) ==>
        accepted == 0 && (txCount != null ==> txCount.value == old(txCount.value))
      ensures rxBuf != null && rxCount > 0 ==> |received| <= rxCount
      ensures !(rxBuf != null && rxCount > 0) ==> received == []
      ensures transport.log == old(transport.log)
        + (if txBuf != null && txCount != null then [Sent(old(txBuf[..txCount.value]), accepted)] else [])
        + (if rxBuf != null && rxCount > 0 then [Received(rxCount as nat, received)] else [])
      ensures txBuf != null ==>
        var mid := if txCount != null then Transmit(TxState(old(txBuf[..]), old(txCount.value)), accepted).buffer
                   else old(txBuf[..]);
        txBuf[..] == if rxBuf == txBuf && rxCount > 0 then Overwrite(mid, received) else mid
      ensures rxBuf != null && rxBuf != txBuf ==>
        rxBuf[..] == if rxCount > 0 then Overwrite(old(rxBuf[..]), received) else old(rxBuf[..])
    {
      ok := false;
      accepted := 0;
      received := [];
      if txBuf != null && txCount != null {
        accepted := SendPending(txBuf, txCount);
      }
      if rxBuf != null && rxCount > 0 {
        received := ReceiveInto(rxBuf, rxCount);
      }
    }

    /**
     * The transmit half of a round: the transport takes some prefix of the
     * pending bytes; all taken clears the count, none taken leaves
     * everything as it was, and a part taken moves the rest to the front.
     */
    method SendPending(txBuf: array<u8>, txCount: Count) returns (accepted: nat)
      requires txCount.value <= txBuf.Length
      modifies txBuf, txCount, transport
      ensures accepted <= old(txCount.value)
      ensures TxState(txBuf[..], txCount.value) == Transmit(TxState(old(txBuf[..]), old(txCount.value)), accepted)
      ensures transport.log == old(transport.log) + [Sent(old(txBuf[..txCount.value]), accepted)]
    {
      ghost var before := txBuf[..];
      var count := txCount.value;
      var written := transport.Write(txBuf, count);
      assert before[..count][..written] == txBuf[..written];
      accepted := written;
      if written == count {
        txCount.value := 0;
        assert Unsent(before, count as nat, accepted) == before;
      } else if written == 0 {
        assert Unsent(before, count as nat, accepted) == before;
      } else {
        txCount.value := count - written;
        MoveToFront(txBuf, written as nat, (count - written) as nat);
        assert txBuf[..] == before[written..count] + before[count - written..];
      }
    }

    /**
     * The receive half of a round: up to `rxCount` bytes from the host are
     * placed at the front of the buffer. A short read would make the
     * round's result false, which it already is.
     */
    method ReceiveInto(rxBuf: array<u8>, rxCount: size_t) returns (received: seq<u8>)
      requires 0 < rxCount <= rxBuf.Length
      modifies rxBuf, transport
      ensures |received| <= rxCount
      ensures transport.log == old(transport.log) + [Received(rxCount as nat, received)]
      ensures rxBuf[..] == Overwrite(old(rxBuf[..]), received)
    {
      var got := transport.Read(rxBuf, rxCount);
      received := rxBuf[..got];
      assert rxBuf[..] == received + rxBuf[got..];
    }

    /**
     * The same round on buffers of 16-bit samples: the sample counts are
     * doubled to byte counts in size_t arithmetic, and the remaining
     * transmit byte count is halved back into the cell.
     */
    method UpdateSamples(txBuf: array?<u8>, txCount: Count, rxBuf: array?<u8>, rxCount: size_t)
      returns (ok: bool, ghost accepted: nat, ghost received: seq<u8>)
      requires txBuf != null ==> Widen(txCount.value) <= txBuf.Length
      requires rxBuf != null ==> Widen(rxCount) <= rxBuf.Length
      modifies txBuf, rxBuf, txCount, transport
      ensures !ok
      ensures txBuf != null ==>
        accepted <= Widen(old(txCount.value)) && txCount.value == (Widen(old(txCount.value)) - accepted) / 2
      ensures txBuf == null ==> accepted == 0 && txCount.value == Widen(old(txCount.value)) / 2
      ensures rxBuf != null && Widen(rxCount) > 0 ==> |received| <= Widen(rxCount)
      ensures !(rxBuf != null && Widen(rxCount) > 0) ==> received == []
      ensures transport.log == old(transport.log)
        + (if txBuf != null then [Sent(old(txBuf[..Widen(txCount.value)]), accepted)] else [])
        + (if rxBuf != null && Widen(rxCount) > 0 then [Received(Widen(rxCount) as nat, received)] else [])
      ensures txBuf != null ==>
        var mid := Transmit(TxState(old(txBuf[..]), Widen(old(txCount.value))), accepted).buffer;
        txBuf[..] == if rxBuf == txBuf && Widen(rxCount) > 0 then Overwrite(mid, received) else mid
      ensures rxBuf != null && rxBuf != txBuf ==>
        rxBuf[..] == if Widen(rxCount) > 0 then Overwrite(old(rxBuf[..]), received) else old(rxBuf[..])
    {
      txCount.value := Widen(txCount.value);
      ok, accepted, received := UpdateBytes(txBuf, txCount, rxBuf, Widen(rxCount));
      txCount.value := txCount.value / 2;
    }

    /**
     * The round on the object's own buffers, through the 16-bit form. Both
     * counts are zero, so it offers the transport an empty write, reads
     * nothing, changes no buffer and reports false.
     */
    method Update() returns (ok: bool)
      requires Valid() && bufferSampleDepth != 0
      modifies txBuffer, rxBuffer, txBufCount, transport
      ensures Valid()
      ensures !ok
      ensures transport.log == old(transport.log) + [Sent([], 0)]
      ensures txBuffer[..] == old(txBuffer[..]) && rxBuffer[..] == old(rxBuffer[..])
    {
      ghost var accepted: nat;
      ghost var received: seq<u8>;
      ok, accepted, received := UpdateSamples(txBuffer, txBufCount, rxBuffer, rxBufCount);
    }

    /**
     * Allocates two interfaces and an IN and an OUT endpoint, then: with no
     * buffer, returns the descriptor length; with a buffer shorter than
     * that, returns 0 and writes nothing; otherwise writes the seventeen
     * blocks of `Layout` to the front of the buffer and returns their total
     * length.
     */
    method GetInterfaceDescriptor(itfnumDeprecated: u8, buf: array?<u8>, bufsize: u16)
      returns (r: u16, ghost itfNum: u8, ghost epIn: u8, ghost epOut: u8)
      requires buf != null ==> bufsize as int <= buf.Length
      modifies buf, device
      ensures device.calls == old(device.calls)
        + [InterfacesAllocated(ITF_COUNT, itfNum), EndpointAllocated(true, epIn), EndpointAllocated(false, epOut)]
      ensures epIn >= DIR_IN_MASK > epOut
      ensures buf == null ==> r == DESC_LEN
      ensures buf != null && bufsize < DESC_LEN ==> r == 0 && buf[..] == old(buf[..])
      ensures buf != null && bufsize >= DESC_LEN ==>
        && r == DESC_LEN
        && buf[..DESC_LEN] == Serialize(Layout(itfNum, epIn, epOut, old(Names())))
        && buf[DESC_LEN..] == old(buf[DESC_LEN..])
    {
      var itfCount: u8 := ITF_COUNT;
      var itf := device.AllocInterface(itfCount);
      var epInAddress := device.AllocEndpoint(true);
      var epOutAddress := device.AllocEndpoint(false);
      itfNum, epIn, epOut := itf, epInAddress, epOutAddress;
      if buf == null {
        return DESC_LEN, itfNum, epIn, epOut;
      }
      var noDescriptor: u16 := 0;
      if bufsize < DESC_LEN {
        return noDescriptor, itfNum, epIn, epOut;
      }
      var header := [ InterfaceAssociation(itf, itfCount, interfaceStrIndex),
                      ControlInterface(itf, 0, 0),
                      ControlHeader(BCD_ADC, MUSICAL_INSTRUMENT, AC_TOTAL_LEN, 0x00) ];
      var id: u8 := 1;
      var groupClockId := id;
      id := id + 1;
      var clock := ClockSource(groupClockId, INTERNAL_FIXED_CLOCK, 0x00, 0, 0);
      var streamingTermId := id;
      id := id + 1;
      var hostInput := InputTerminal(streamingTermId, USB_STREAMING, streamingTermId + 2, groupClockId,
                                     1, 0, 0, 0x0000, 0);
      var unitId := id;
      id := id + 1;
      var playbackUnit := FeatureUnit(unitId, id - 1, MUTE_WRITABLE, 0, featureUnitStrIndex);
      var termId := id;
      id := id + 1;
      var lineOut := OutputTerminal(termId, ANALOG_CONNECTOR, termId - 2, termId - 1, groupClockId,
                                    0x0000, outputTerminalStrIndex);
      termId := id;
      id := id + 1;
      var lineIn := InputTerminal(termId, ANALOG_CONNECTOR, termId + 2, groupClockId, 1, 0, 0,
                                  0x0000, inputTerminalStrIndex);
      unitId := id;
      id := id + 1;
      var captureUnit := FeatureUnit(unitId, id - 1, MUTE_WRITABLE, 0, featureUnitStrIndex);
      termId := id;
      id := id + 1;
      var hostOutput := OutputTerminal(termId, USB_STREAMING, termId - 2, termId - 1, groupClockId, 0x0000, 0);
      var streaming := [ StreamingInterface(itf, 0x00, 0, 0),
                         StreamingInterface(itf, 0x01, itfCount, 0),
                         StreamingGeneral(streamingTermId, 0x00, FORMAT_TYPE_I, 0x00, 0x01, FRONT_CENTER, 0),
                         TypeIFormat(SUBSLOT_SIZE, BIT_RESOLUTION),
                         DataEndpoint(epOutAddress, ASYNC_DATA_ATTRIBUTES, MAX_PACKET_SIZE, POLLING_INTERVAL),
                         DataEndpointGeneral(0x00, 0x00, 0x00, 0x0000),
                         FeedbackEndpoint(epInAddress, MAX_PACKET_SIZE, POLLING_INTERVAL) ];
      var blocks := header + [clock, hostInput, playbackUnit, lineOut, lineIn, captureUnit, hostOutput] + streaming;
      assert blocks == Layout(itf, epInAddress, epOutAddress, Names());
      LayoutLength(itf, epInAddress, epOutAddress, Names());
      var len := WriteBlocks(buf, blocks);
      if len != DESC_LEN {
        assert false;
        return noDescriptor, itfNum, epIn, epOut;
      }
      return DESC_LEN, itfNum, epIn, epOut;
    }
  }
}
