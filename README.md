# USBD_Audio: a verified model of the UAC2 audio interface

`USBD_Audio` is an Adafruit TinyUSB interface class for a single-channel,
bidirectional USB Audio Class 2.0 function. This project models its core in
Dafny:

- **Descriptor builder (`getInterfaceDescriptor`).** It reserves two interface
  numbers and an IN and an OUT endpoint. It then reports the fixed descriptor
  length (182 bytes) when given no buffer, and 0 when the buffer is too small.
  Otherwise it writes seventeen UAC2 blocks, one after the other, behind a
  write cursor. The clock, terminal and unit IDs come from a counter that
  starts at 1.
- **Transfer rounds (the three `update` overloads).**
  - The byte form offers the pending transmit bytes to the transport. A
    partial take compacts the rest to the front of the buffer.
  - It then reads up to the requested count into the receive buffer.
  - The 16-bit form doubles the counts in `size_t` arithmetic and halves the
    transmit count afterwards.
  - The no-argument form runs the 16-bit form on the object's own buffers.
- **Registration (`begin`).** Adds the interface to the device at most once.
- **Construction.** Computes the buffer size, allocates the buffers and
  registers three descriptor strings.

Modules:

- `Uint`: fixed-width integer types and little-endian fields.
- `Wrappers`: `Option`.
- `Uac2`: the thirteen kinds of descriptor block, their encodings per the
  tables of the USB Device Class Definition for Audio Devices, Release 2.0,
  and a decoder proved to invert them.
- `AudioLayout`: the seventeen blocks this function emits, and the ID chain.
- `TinyUsb`: the device object and the audio class transport, as oracles. An
  oracle may return anything its contract allows, and records each call in a
  ghost log.
- `AudioInterface`: the `UsbdAudio` class, its transfer logic and the
  descriptor writer.

Behaviours of the code that the model keeps as written:

- `update` never returns true. `ok` starts false and nothing sets it.
- The transmit branch tests the count *pointer*, not the count. With a
  buffer, a zero count still makes an empty write.
- The 16-bit overload's byte counts are twice the caller's sample counts,
  wrapping modulo 2^32. With caller buffers, 20 samples pending and a
  transport that takes 12 bytes, 28 bytes stay at the front and the count
  ends at 14 samples (`SampleRoundExample`).
- The no-argument `update()` passes `uint16_t` buffers, so it uses the 16-bit
  overload.
- `update()` on the internal buffers always makes one empty write and never
  reads, because nothing ever changes `txBufCount` or `rxBufCount` from 0.
- The buffer size is channels × bit depth × samples, stored in 16 bits. It
  counts bits, so (1, 16, 32) gives 512 bytes, not 64, and larger products
  wrap.
- Interfaces and endpoints are allocated before the null-buffer check, so a
  length probe also uses up numbers.
- Each feature unit names itself as its source, not the preceding terminal.
- The AudioControl header is passed a total length that counts one feature
  unit, although two are emitted. Its wTotalLength field is therefore one
  feature unit short.
- Both AudioStreaming alternate settings carry the AudioControl interface
  number.
- The format is always Type I with 2-byte subslots of 16 bits.
- `bcdADC` is passed as 2.
- The clock attributes are 0x01: internal fixed, not synced to SOF.
- The descriptor has seventeen blocks.
- The final "bytes written equal the length" check returns 0 on mismatch.
  It is proved unreachable.

## Model

| member | source | states |
|---|---|---|
| Uac2.Length | src/arduino/audio/USBD_Audio.cpp:100-118 | the fixed byte length of each of the thirteen kinds of block, the `TUD_AUDIO_DESC_*_LEN` values the sum adds and each `len += sizeof(desc)` advances by, taken from the UAC2 tables |
| Uac2.Encode | src/arduino/audio/USBD_Audio.cpp:132-369 | each block's bytes are exactly as long as the block's fixed length and start with it, as `len += sizeof(desc)` relies on |
| Uac2.DecodeBlock | src/arduino/audio/USBD_Audio.cpp:132-369 | the decoder accepts only the exact encoding of the block it returns |
| Uac2.DecodeEncode | src/arduino/audio/USBD_Audio.cpp:132-369 | every well-formed block decodes back to itself |
| Uac2.Serialize | src/arduino/audio/USBD_Audio.cpp:130-369 | the bytes laid out behind the cursor are as long as the sum of the block lengths |
| Uac2.SerializeAppend | src/arduino/audio/USBD_Audio.cpp:135-136 | writing one more block at the cursor appends its bytes and advances the total by its length |
| Uac2.TotalLengthSplit | src/arduino/audio/USBD_Audio.cpp:130-369 | the cursor after the first j blocks plus the rest's length is the total length |
| Uac2.SerializeCons | src/arduino/audio/USBD_Audio.cpp:130-137 | the first block's bytes come first |
| Uac2.ParseSerialize | src/arduino/audio/USBD_Audio.cpp:130-369 | the bytes of any sequence of well-formed blocks parse back into exactly those blocks |
| Uac2.SerializeParse | src/arduino/audio/USBD_Audio.cpp:130-369 | any byte string that parses is exactly the serialization of what it parses into |
| AudioLayout.Layout | src/arduino/audio/USBD_Audio.cpp:132-369 | the descriptor consists of seventeen blocks |
| AudioLayout.LayoutLength | src/arduino/audio/USBD_Audio.cpp:99-118 | the seventeen blocks' lengths sum to `desc_len` (182), which is also the length of their bytes |
| AudioLayout.LayoutReadsBack | src/arduino/audio/USBD_Audio.cpp:130-369 | the written descriptor decodes back into the seventeen blocks, in emission order |
| AudioLayout.LayoutEntityIds | src/arduino/audio/USBD_Audio.cpp:160-287 | exactly blocks 3 to 9 carry IDs, these are 1 to 7 in emission order, and no two entities share an ID |
| AudioLayout.LayoutLinks | src/arduino/audio/USBD_Audio.cpp:182-287 | the clock is 1 and clocks every terminal; input terminals associate with ID+2, the output terminal two blocks on; output terminals associate with ID−2 and take ID−1, the feature unit before them, as source; the streaming interface links to terminal 2, the USB-streaming input |
| AudioLayout.FeatureUnitsAreTheirOwnSource | src/arduino/audio/USBD_Audio.cpp:202-270 | each feature unit's source ID is its own unit ID, not the ID of the input terminal just before it |
| AudioLayout.ControlTotalLengthMissesOneUnit | src/arduino/audio/USBD_Audio.cpp:148-158 | the header is passed 80 as the total length, one feature unit short of the 94 bytes of entity blocks, which are exactly blocks 3 to 9 |
| AudioLayout.ControlWireLengthMissesOneUnit | src/arduino/audio/USBD_Audio.cpp:148-158 | the header's wTotalLength on the wire is one feature unit short of the header and the blocks it covers together |
| AudioLayout.DESC_LEN | src/arduino/audio/USBD_Audio.cpp:99-118 | the descriptor length, the sum of the seventeen block lengths in emission order; `LayoutLength` proves it is the length of the bytes written |
| AudioLayout.AC_TOTAL_LEN | src/arduino/audio/USBD_Audio.cpp:153 | the clock, two input terminals, two output terminals and one feature unit; `ControlTotalLengthMissesOneUnit` compares it with what is emitted |
| Uac2.WireTotalLength | src/arduino/audio/USBD_Audio.cpp:152-155 | wTotalLength adds the header's own bytes to the covered length, modulo 2^16, and `CoveredLength` takes them off again |
| Uac2.CoveredLength | src/arduino/audio/USBD_Audio.cpp:152-155 | the covered length a wTotalLength field announces; with `WireOfCoveredLength` the two are inverse bijections |
| Uac2.WireOfCoveredLength | src/arduino/audio/USBD_Audio.cpp:152-155 | every wTotalLength value is the field of exactly one covered length |
| Uac2.ControlHeaderField | src/arduino/audio/USBD_Audio.cpp:155 | bytes 6 and 7 of the AudioControl header hold the wTotalLength of its covered length |
| Uint.Le16 | src/arduino/audio/USBD_Audio.cpp:155 | a 16-bit field is laid out low byte first and reads back as the same value; `Le16OfFromLe16` proves the converse |
| Uint.Le32 | src/arduino/audio/USBD_Audio.cpp:197 | a 32-bit field is laid out lowest byte first and reads back as the same value; `Le32OfFromLe32` proves the converse |
| AudioLayout.StreamingSide | src/arduino/audio/USBD_Audio.cpp:289-369 | the association reserves two interfaces, both streaming alternate settings reuse `itfNum`, the format is 2 bytes / 16 bits, the data endpoint is the OUT endpoint and the feedback endpoint the IN endpoint |
| TinyUsb.Device.AllocInterface | src/arduino/audio/USBD_Audio.cpp:92 | the call is logged with the count requested and the first number returned |
| TinyUsb.Device.AllocEndpoint | src/arduino/audio/USBD_Audio.cpp:93-94 | the address returned carries the requested direction bit |
| TinyUsb.Device.AddInterface | src/arduino/audio/USBD_Audio.cpp:41 | the call and its result are logged |
| TinyUsb.Device.AddStringDescriptor | src/arduino/audio/USBD_Audio.cpp:25-27 | the string and the index returned are logged |
| TinyUsb.Transport.Write | src/arduino/audio/USBD_Audio.cpp:54 | the transport takes at most the offered count, and the offer is logged |
| TinyUsb.Transport.Read | src/arduino/audio/USBD_Audio.cpp:71 | at most the requested count arrives at the front of the buffer, the rest is untouched, and the request is logged |
| AudioInterface.BufferSize | src/arduino/audio/USBD_Audio.cpp:18 | the buffer size as the constructor computes it: channels × bit depth × samples, kept modulo 2^16 by the `uint16_t` field; its meaning is stated by `BufferSizeCountsBits` and `BufferSizeExamples` |
| AudioInterface.BufferSizeCountsBits | src/arduino/audio/USBD_Audio.cpp:18 | without truncation, the buffer size is eight times the bytes the samples occupy |
| AudioInterface.BufferSizeExamples | src/arduino/audio/USBD_Audio.h:27 | (1, 16, 32 samples) gives 512 bytes, and two wrapping products, (1, 16, 4096) and (2, 16, 2048), give 0 |
| AudioInterface.WidenThenHalve | src/arduino/audio/USBD_Audio.cpp:79-81 | doubling a count in `size_t` and halving it loses only its top bit |
| AudioInterface.Widen | src/arduino/audio/USBD_Audio.cpp:79-80 | a count doubled in 32-bit `size_t` arithmetic, wrapping modulo 2^32; `WidenThenHalve` states what halving it gives back |
| AudioInterface.Unsent | src/arduino/audio/USBD_Audio.cpp:56-66 | the transmit buffer after a take of k of N bytes: unchanged when k is N or 0, otherwise bytes k..N moved to the front, with the bytes from N−k on unchanged; same length as before |
| AudioInterface.Transmit | src/arduino/audio/USBD_Audio.cpp:52-67 | one transmit call on a buffer and its pending count: the buffer becomes `Unsent` and the count drops by the bytes taken, and the pending bytes still fit the buffer; `TransmitKeepsOrder` states what it preserves |
| AudioInterface.Overwrite | src/arduino/audio/USBD_Audio.cpp:71 | the receive buffer after a read: the bytes that arrived at the front, the rest as before, same length |
| AudioInterface.TransmitAll | src/arduino/audio/USBD_Audio.cpp:52-67 | the state after successive transmit calls, each taking at most what is pending; the pending bytes still fit |
| AudioInterface.SentAll | src/arduino/audio/USBD_Audio.cpp:52-67 | the bytes taken over those calls, in order; `TransmitAllKeepsOrder` proves they are a prefix of what was pending |
| AudioInterface.TransmitKeepsOrder | src/arduino/audio/USBD_Audio.cpp:52-67 | the bytes taken followed by the bytes still pending are exactly the bytes that were pending, and the bytes from N−k on are unchanged |
| AudioInterface.TransmitAllKeepsOrder | src/arduino/audio/USBD_Audio.cpp:52-67 | over any number of rounds the host gets a prefix of the pending bytes, in order, and the rest stays pending |
| AudioInterface.OddTakeDropsLastByte | src/arduino/audio/USBD_Audio.cpp:78-83 | in the 16-bit form an odd take leaves the last pending byte uncounted |
| AudioInterface.SampleRoundExample | src/arduino/audio/USBD_Audio.cpp:78-87 | 20 samples pending and 12 bytes taken leave 28 bytes, 14 samples, at the front |
| AudioInterface.MoveToFront | src/arduino/audio/USBD_Audio.cpp:65 | the moved range lands at offset 0 and the bytes after it are unchanged |
| AudioInterface.CopyAt | src/arduino/audio/USBD_Audio.cpp:135 | the block's bytes land at the cursor and nothing else changes |
| AudioInterface.Emit | src/arduino/audio/USBD_Audio.cpp:133-137 | after block k the buffer holds blocks 0..k followed by the untouched original bytes |
| AudioInterface.WriteHeader | src/arduino/audio/USBD_Audio.cpp:132-158 | the association and AudioControl blocks follow one another from the cursor |
| AudioInterface.WriteEntities | src/arduino/audio/USBD_Audio.cpp:160-287 | the clock, terminal and unit blocks follow one another from the cursor |
| AudioInterface.WriteStreaming | src/arduino/audio/USBD_Audio.cpp:289-369 | the streaming, format and endpoint blocks follow one another from the cursor |
| AudioInterface.WriteBlocks | src/arduino/audio/USBD_Audio.cpp:130-369 | the final cursor is the total length, the front holds the serialized blocks and the rest is untouched |
| AudioInterface.UsbdAudio.Valid | src/arduino/audio/USBD_Audio.h:23-31 | the object's state between calls: `bufferSize` is the truncated product of cpp:18, both counts are 0, and when the depth is non-zero the two buffers exist, are distinct and hold `bufferSize` bytes (cpp:20-23), otherwise there are none; the constructor establishes it and `Update` keeps it |
| AudioInterface.UsbdAudio.constructor | src/arduino/audio/USBD_Audio.cpp:14-28 | the fields are set, both counts are 0, buffers of `bufferSize` bytes exist exactly when the depth is non-zero, and the three strings are registered in source order with the audio collection index left at 0 |
| AudioInterface.UsbdAudio.Begin | src/arduino/audio/USBD_Audio.cpp:35-47 | an added instance returns false without calling the device; otherwise the device is asked once and `alreadyAdded` becomes true exactly when it accepts |
| AudioInterface.UsbdAudio.UpdateBytes | src/arduino/audio/USBD_Audio.cpp:49-76 | the result is false; with a buffer and a count cell the pending bytes are offered and the buffer and count become those of `Transmit`; with a receive buffer and a non-zero count exactly that count is requested and the bytes land at the front, also when both buffers are the same array |
| AudioInterface.UsbdAudio.SendPending | src/arduino/audio/USBD_Audio.cpp:52-67 | the buffer and count after the write are `Transmit` of the state before, for the count the transport took |
| AudioInterface.UsbdAudio.ReceiveInto | src/arduino/audio/USBD_Audio.cpp:69-75 | the requested count is logged, and at most that many bytes are placed at the front of the buffer |
| AudioInterface.UsbdAudio.UpdateSamples | src/arduino/audio/USBD_Audio.cpp:78-83 | the byte form runs on the doubled counts, wrapped mod 2^32, and the transmit count cell ends at half the remaining bytes; the buffers need only hold the doubled, wrapped counts, so a count of 2^31 or more wraps on a real buffer too |
| AudioInterface.UsbdAudio.Update | src/arduino/audio/USBD_Audio.cpp:85-87 | on its own buffers with both counts 0, it makes one empty write, reads nothing, changes no buffer and returns false |
| AudioInterface.UsbdAudio.GetInterfaceDescriptor | src/arduino/audio/USBD_Audio.cpp:89-377 | allocation comes first in every case; with no buffer the result is 182; with a short buffer it is 0 and no byte changes; otherwise the buffer's first 182 bytes are the seventeen blocks of `Layout`, the rest is unchanged, the result is 182, and the mismatch branch is unreachable |

## Left out

- TinyUSB and the Adafruit device object (`tud_audio_write`, `tud_audio_read`, `allocInterface`, `allocEndpoint`, `addInterface`, `addStringDescriptor`) are not part of this model. They are oracles whose results are unconstrained beyond their ranges. In particular, the allocator is not shown handing out fresh numbers.
- The `TUD_AUDIO_DESC_*` macros live in TinyUSB headers that are not part of this model. Each block's bytes follow the UAC2 tables. They are not claimed to match those macros bit for bit.
- The AudioControl header's wTotalLength is encoded as UAC2 Table 4-5 defines it: the code's `totalLen`, which covers the clock, terminal and unit blocks only, plus the header's own 9 bytes. That addition is assumed to happen below the call, inside the header macro.
- `malloc`/`free`, the destructor and pointer ownership are not modelled. The buffers are Dafny arrays, so allocation failure and `malloc(0)` are absent.
- With a sample depth of 0 the source leaves the buffer pointers uninitialised. The model makes them null.
- UsbdAudio.Update: requires a non-zero sample depth, because the source would then pass uninitialised pointers.
- `channels * bitDepth * bufferSampleDepth` is computed in `int` before the truncation to 16 bits. The product of a `uint8_t`, a `uint8_t` and a `uint16_t` can exceed the 32-bit signed range, which is undefined behaviour in C++. The model just multiplies unboundedly, then truncates.
- `size_t` is taken to be 32 bits wide. The transport's count parameter is modelled at that width too.
- The string literals' contents, `sourceStrIDs`, the commented-out setters and sample-rate API, and the board configuration defaults of the constructor's first two parameters carry no behaviour and are not modelled.
- The descriptor's string index for the association is the base class's `_strid`. It is the field `interfaceStrIndex`, 0 unless changed elsewhere.
- Concurrency, bus scheduling and isochronous timing are not part of this code and are not modelled.
- GetInterfaceDescriptor builds the seventeen block records first and then copies them to the buffer one at a time. The source builds each block just before copying it. The bytes written are the same.
- The unused `itfnum_deprecated` parameter is accepted and ignored.
