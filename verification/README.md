# OpenGlass reconstruction pipeline in Dafny

This project models the client-side reconstruction pipeline of OpenGlass. That is the code that turns the glasses' Bluetooth LE notifications back into media:

- **Audio codec** (`audio_codec.dfy`, module `AudioCodec`)
  - `mulawToLinear` expands one companded byte into a 16-bit sample.
  - `int16ArrayToWav` frames mono 16-bit samples as a 44-byte-header RIFF/WAVE PCM file at 8000 Hz.
  - Its `DataView` writes (`setUint8`, `setUint16`, `setInt16`, `setUint32`, `writeString`) are methods over an `array<byte>`.
- **Photo reassembly** (`photo_reassembly.dfy`, module `PhotoReassembly`)
  - The photo-data notification decoding of `handleNotifications`.
  - The two-state machine `onChunk`, which glues chunks 0, 1, 2, ... into one photo and hands it over on the `0xff 0xff` end marker.
  - The machine appears twice: as a transition function `Step`, with `Run` over a stream, and as a class `PhotoReceiver` holding the closure variables and the `photos` state.
- **Audio window** (`audio_window.dfy`, module `AudioWindow`)
  - `handleAudioData` decodes each audio notification, hands a one-shot WAV to the agent and appends the samples to the window.
  - `processAudio` flushes the window to the transcriber once it holds more than 8000 samples and transcription is enabled.
  - `resetAudio` clears the window and the transcript.
- **Photo forwarder** (`photo_forwarder.dfy`, module `PhotoForwarder`)
  - The `DeviceView` job forwards every photo appended since its previous run, tracked by the counter `processed`.
- **Shared types** (`byte_data.dfy`, module `ByteData`)
  - Bytes, int16 samples, `Option`, and `Flatten`, the concatenation of a list of byte runs.

JavaScript number semantics are written out where they matter:

- `~x` is `-ToInt32(x) - 1`, and the masks of `mulawToLinear` read only the low byte.
- `setUint16`, `setInt16` and `setUint32` store the value modulo 2^16 or 2^32.
- `setUint8` of a character code keeps it modulo 256.
- A store into an `Int16Array` goes through ToInt16.
- An `Int8Array` reads a byte as signed.
- A read past the end of a `Uint8Array` yields `undefined`. So `undefined == 0xff` is false and `undefined << 8` is 0: a one-byte photo notification `[b]` carries id `b` and an empty payload, and an empty one carries id NaN.

Two behaviours of the code are easy to misread; the model keeps both as written:

- **Stale buffer on a gap.** A gap in chunk ids, or an end marker, only sets `previousChunk` back to -1. The stale buffer stays until the next chunk 0 replaces it.
- **mu-law bias.** `mulawToLinear` adds the 132 bias after the shift and never subtracts it, unlike the ITU-T G.711 mu-law decoder. The two differ by 132 * (2 - 2^exponent), so they agree only on segment 1 (`AudioCodec.BiasAfterShift`). All bytes whose complement has mantissa 0 expand to +-132 (`AudioCodec.ZeroMantissaCollapses`). The model keeps this behaviour as written. The deviation feeds both the agent's chunks and the transcriber, so it is part of what the system does.

## Model

| member | source | states |
|---|---|---|
| AudioCodec.ToInt32 | sources/utils/audioUtils.ts:2 | The operand of `~` is reduced into [-2^31, 2^31) and is congruent to the input modulo 2^32. |
| AudioCodec.MulawToLinear | sources/utils/audioUtils.ts:1-10 | Definition, bit for bit: complement, sign from mask 0x80, exponent from 0x70, mantissa from 0x0f, (mantissa << (exponent + 3)) + 132, times the sign. Its properties are in MulawFields, MulawRange, MulawReadsLowByteOnly, BiasAfterShift and ZeroMantissaCollapses. |
| AudioCodec.InvertedLowByte | sources/utils/audioUtils.ts:2-5 | The low byte of `~x`, which is all the masks 0x80, 0x70 and 0x0f see, is 0xff minus the input's low byte. |
| AudioCodec.MulawFields | sources/utils/audioUtils.ts:1-10 | The sign comes from bit 7 of the complemented byte. The magnitude is (mantissa << (exponent + 3)) + 132 over that byte's fields. |
| AudioCodec.MagnitudeRange | sources/utils/audioUtils.ts:4-7 | Every magnitude the code produces lies in [132, 15492]. |
| AudioCodec.MulawRange | sources/utils/audioUtils.ts:1-10 | For every integer input, the magnitude is in [132, 15492], so the result is never 0 and fits an Int16Array. The result is negative exactly when bit 7 of the input's low byte is clear. |
| AudioCodec.MulawReadsLowByteOnly | sources/utils/audioUtils.ts:1-10 | Only the input's low 8 bits matter. A byte read as signed (Int8Array) expands to the same sample as the byte read unsigned. |
| AudioCodec.SameComplementSameSample | sources/utils/audioUtils.ts:1-10 | Inputs congruent modulo 256 expand to the same sample. |
| AudioCodec.MagnitudeVsG711 | sources/utils/audioUtils.ts:6-7 | The code's magnitude equals the G.711 magnitude + 264 - 132 * 2^exponent. |
| AudioCodec.Pow2IsTwo | sources/utils/audioUtils.ts:6 | The shift factor 2^e is 2 exactly when e = 1. |
| AudioCodec.BiasAfterShift | sources/utils/audioUtils.ts:6-7 | The code's magnitude minus the G.711 magnitude is 132 * (2 - 2^exponent). The two agree if and only if the exponent is 1. |
| AudioCodec.ZeroMantissaCollapses | sources/utils/audioUtils.ts:5-8 | Inputs whose complement has mantissa 0 and whose sign is the same expand to the same sample, of magnitude 132, whatever the exponent. |
| AudioCodec.Pow2Monotone | sources/utils/audioUtils.ts:6 | A larger shift never gives a smaller factor. |
| AudioCodec.Pow2Add | sources/utils/audioUtils.ts:6 | Shifting by j + k is shifting by j, then by k. |
| AudioCodec.LE16ReadsBack | sources/utils/audioUtils.ts:22-23 | The two bytes stored by setUint16/setInt16 read back as the value modulo 2^16. An int16 value reads back unchanged as a signed word. |
| AudioCodec.LE32ReadsBack | sources/utils/audioUtils.ts:18 | The four bytes stored by setUint32 read back as the value modulo 2^32. |
| AudioCodec.CodeUnits | sources/utils/audioUtils.ts:39-43 | writeString stores one byte per character, its code modulo 256 (the tags written are ASCII). |
| AudioCodec.LE16 | sources/utils/audioUtils.ts:22-23 | The bytes setUint16/setInt16 store are two. Their value is in LE16ReadsBack. |
| AudioCodec.LE32 | sources/utils/audioUtils.ts:18 | The bytes setUint32 stores are four. Their value is in LE32ReadsBack. |
| AudioCodec.RiffDescriptor | sources/utils/audioUtils.ts:17-19 | The RIFF descriptor is 12 bytes. Its fields are in WavChunkTags and WavSizeFields. |
| AudioCodec.FormatChunk | sources/utils/audioUtils.ts:20-27 | The `fmt ` sub-chunk is 24 bytes. Its literal bytes are in FixedHeaderBytes and its fields in WavFormatFields. |
| AudioCodec.DataChunkHeader | sources/utils/audioUtils.ts:28-29 | The `data` header is 8 bytes. Its fields are in WavChunkTags and WavSizeFields. |
| AudioCodec.PcmData | sources/utils/audioUtils.ts:32-34 | Definition: each sample as a little-endian 16-bit word, in order. Its properties are in PcmDataLength and PcmDataAt. |
| AudioCodec.Wav | sources/utils/audioUtils.ts:12-37 | Definition: the 44-byte header for n samples followed by the PCM data. Its properties are in WavLength, WavParts, WavChunkTags, WavSizeFields, WavFormatFields, WavSampleAt and WavRoundTrip. |
| AudioCodec.PcmDataLength | sources/utils/audioUtils.ts:32-34 | The data section is 2 bytes per sample. |
| AudioCodec.PcmDataAt | sources/utils/audioUtils.ts:32-34 | Sample i occupies bytes 2i and 2i+1 of the data section, little-endian. |
| AudioCodec.WavHeader | sources/utils/audioUtils.ts:16-29 | The header is 44 bytes long. |
| AudioCodec.WavLength | sources/utils/audioUtils.ts:13 | The buffer is exactly 44 + 2n bytes long. |
| AudioCodec.WavParts | sources/utils/audioUtils.ts:17-29 | Bytes 0-11 are the RIFF descriptor, 12-35 the `fmt ` sub-chunk and 36-43 the `data` header. |
| AudioCodec.WavChunkTags | sources/utils/audioUtils.ts:17-28 | The tags "RIFF", "WAVE", "fmt " and "data" sit at offsets 0, 8, 12 and 36. |
| AudioCodec.WavSizeFields | sources/utils/audioUtils.ts:18-29 | Both size fields are reduced modulo 2^32. The RIFF size is the total length minus 8, i.e. 36 + 2n, and the data size is 2n. |
| AudioCodec.WavFormatFields | sources/utils/audioUtils.ts:20-27 | The `fmt ` fields are: sub-chunk size 16, PCM format 1, 1 channel, 8000 Hz, 16000 bytes/s, block align 2, 16 bits per sample. |
| AudioCodec.FixedHeaderBytes | sources/utils/audioUtils.ts:17-28 | The literal bytes of the three tags and of the whole 24-byte `fmt ` sub-chunk. |
| AudioCodec.ReadsField16 | sources/utils/audioUtils.ts:22 | A 16-bit field reads the same inside the buffer as on its own. |
| AudioCodec.ReadsField32 | sources/utils/audioUtils.ts:18 | A 32-bit field reads the same inside the buffer as on its own. |
| AudioCodec.ByteRateIsRateTimesAlign | sources/utils/audioUtils.ts:24-26 | The byte-rate field equals the sample rate times the block align. |
| AudioCodec.HeaderDependsOnlyOnCount | sources/utils/audioUtils.ts:16-29 | Two sample arrays of the same length get byte-identical headers. |
| AudioCodec.WavSampleAt | sources/utils/audioUtils.ts:32-34 | Round trip per sample: the signed 16-bit word at offset 44 + 2i is sample i. |
| AudioCodec.WavRoundTrip | sources/utils/audioUtils.ts:12-37 | Round trip: reading the data section of the WAV back gives exactly the samples. |
| AudioCodec.SetUint8 | sources/utils/audioUtils.ts:41 | setUint8 changes exactly one byte, to the value modulo 256. |
| AudioCodec.SetUint16 | sources/utils/audioUtils.ts:22 | setUint16 overwrites exactly two bytes, with the value modulo 2^16, little-endian. |
| AudioCodec.SetInt16 | sources/utils/audioUtils.ts:33 | setInt16 stores the same two bytes as setUint16. |
| AudioCodec.SetUint32 | sources/utils/audioUtils.ts:18 | setUint32 overwrites exactly four bytes, with the value modulo 2^32, little-endian. |
| AudioCodec.WriteString | sources/utils/audioUtils.ts:39-43 | writeString overwrites exactly the string's length in bytes from the offset, with the code units, and leaves the rest unchanged. |
| AudioCodec.OverwriteAdjacent | sources/utils/audioUtils.ts:17-29 | Two writes at adjacent offsets compose into one write of the concatenation. |
| AudioCodec.WriteRiffDescriptor | sources/utils/audioUtils.ts:17-19 | Writes header bytes 0-11 and nothing else. |
| AudioCodec.WriteFormatChunk | sources/utils/audioUtils.ts:20-27 | Writes header bytes 12-35 and nothing else. |
| AudioCodec.WriteDataChunkHeader | sources/utils/audioUtils.ts:28-29 | Writes header bytes 36-43 and nothing else. |
| AudioCodec.Int16ArrayToWav | sources/utils/audioUtils.ts:12-37 | The returned buffer holds exactly the header for n samples followed by every sample in order, 44 + 2n bytes in all. |
| PhotoReassembly.DecodeClassifies | sources/utils/usePhotos.ts:66-78 | A notification is the end marker if and only if its first two bytes are 0xff 0xff, and the marker carries no payload. Every id decoded lies in [0, 0xfffe]. The id is NaN exactly for an empty notification. |
| PhotoReassembly.DecodeEncode | sources/utils/usePhotos.ts:70-75 | Round trip: a chunk sent as 2 little-endian id bytes + payload decodes to that id and payload. 0xff 0xff followed by anything decodes to the end marker. |
| PhotoReassembly.DecodeNotification | sources/utils/usePhotos.ts:69-76 | Definition: 0xff 0xff gives the end marker with no payload. Otherwise the id is byte 0 + (byte 1 << 8) and the payload is the rest, with JS `undefined` reads for short packets. Its properties are in DecodeClassifies and DecodeEncode. |
| PhotoReassembly.Step | sources/utils/usePhotos.ts:22-51 | Definition: one onChunk transition. Its cases are in IdleIgnores, IdleStarts and ReceivingSteps. |
| PhotoReassembly.Run | sources/utils/usePhotos.ts:22-51 | Definition: onChunk over a stream of chunks, collecting the handed-over photos in order. Its properties are in ReceivingPrefix, CompleteTransfer and GapLosesPhoto. |
| PhotoReassembly.IdleIgnores | sources/utils/usePhotos.ts:23-30 | While idle, every id but 0 is ignored, the end marker and NaN included, and nothing is handed over. |
| PhotoReassembly.IdleStarts | sources/utils/usePhotos.ts:25-50 | Idle plus id 0 starts receiving, with the buffer equal to exactly that chunk's payload. |
| PhotoReassembly.ReceivingSteps | sources/utils/usePhotos.ts:31-50 | While receiving: id previousChunk + 1 appends its payload; the end marker hands the buffer over once and goes idle; any other id goes idle without appending or handing over. |
| PhotoReassembly.ReceivingPrefix | sources/utils/usePhotos.ts:22-51 | After chunks 0 .. k-1 from idle, previousChunk is k - 1, the buffer is the in-order concatenation of their payloads, and nothing has been handed over. |
| PhotoReassembly.CompleteTransfer | sources/utils/usePhotos.ts:22-51 | Chunks 0 .. n-1 followed by the end marker hand over exactly one photo, the in-order concatenation of the payloads, and leave the receiver idle. |
| PhotoReassembly.GapLosesPhoto | sources/utils/usePhotos.ts:41-44 | After a gap the receiver is idle and has handed nothing over, even if the end marker follows. |
| PhotoReassembly.PhotoReceiver.constructor | sources/utils/usePhotos.ts:13-20 | A new subscription starts idle, with an empty buffer and no photos. |
| PhotoReassembly.PhotoReceiver.Resubscribe | sources/utils/usePhotos.ts:18-20 | Re-running the effect resets previousChunk and buffer and keeps the photos. |
| PhotoReassembly.PhotoReceiver.OnChunk | sources/utils/usePhotos.ts:22-51 | The closure state moves exactly as the transition table `Step` says. A handed-over buffer is rotated and appended to photos, and earlier photos are untouched. While receiving, the buffer stays the concatenation of the accepted payloads. |
| PhotoReassembly.PhotoReceiver.HandleNotification | sources/utils/usePhotos.ts:66-78 | While paused nothing changes. Otherwise the notification is decoded and fed to onChunk. |
| AudioWindow.SignedByte | sources/utils/useAudio.ts:32 | An Int8Array element is in [-128, 128) and congruent to the byte modulo 256. |
| AudioWindow.ToInt16 | sources/utils/useAudio.ts:35 | An Int16Array store keeps the value modulo 2^16 and leaves int16 values unchanged. |
| AudioWindow.Decoded | sources/utils/useAudio.ts:32-36 | One sample per notification byte. Sample values are in DecodedAt. |
| AudioWindow.DecodedAt | sources/utils/useAudio.ts:32-36 | Decoded sample i is the mu-law expansion of byte i read unsigned, with no truncation, and has magnitude in [132, 15492]. |
| AudioWindow.DecodeFrame | sources/utils/useAudio.ts:32-36 | The decode loop yields one sample per byte, each the mu-law expansion of that byte. |
| AudioWindow.AppendSamples | sources/utils/useAudio.ts:43-50 | The fresh buffer holds the old window followed by the new samples. |
| AudioWindow.ChunkWav | sources/utils/useAudio.ts:37-42 | The WAV handed to the agent for a k-byte notification is 44 + 2k bytes long and reads back as exactly the decoded samples. |
| AudioWindow.AudioPipeline.constructor | sources/utils/useAudio.ts:17-20 | The window and the transcript start empty. |
| AudioWindow.AudioPipeline.HandleAudioData | sources/utils/useAudio.ts:27-54 | When not collecting, or when there is no value, nothing changes. Otherwise the k decoded samples are appended to the window, the old window is kept as it was, and the agent gets the WAV of those samples. |
| AudioWindow.AudioPipeline.BeginFlush | sources/utils/useAudio.ts:193-195 | A WAV is produced if and only if the window holds more than 8000 samples and transcription is enabled, and it is the WAV of the whole window. |
| AudioWindow.AudioPipeline.EndFlush | sources/utils/useAudio.ts:196-203 | On success the transcript gains " " + text; on failure it is unchanged. Either way the window becomes empty, dropping samples that arrived during the await. |
| AudioWindow.AudioPipeline.ProcessAudio | sources/utils/useAudio.ts:192-205 | The flush condition holds if and only if a WAV is submitted, and the transcriber sees exactly the window. Without a flush nothing changes, so with transcription disabled the window keeps growing. |
| AudioWindow.AudioPipeline.ResetAudio | sources/utils/useAudio.ts:212-215 | The window and the transcript become empty. |
| PhotoForwarder.Forwarder.constructor | sources/app/DeviceView.tsx:46-48 | The ref and the counter start at empty and 0, and nothing has been forwarded. |
| PhotoForwarder.Forwarder.Run | sources/app/DeviceView.tsx:49-55 | Each run forwards exactly the photos at positions processed .. length-1 as one batch, or nothing if there are none. processed never decreases. The invariant holds: the forwarded batches laid end to end are exactly the first `processed` photos, so none is forwarded twice or skipped. |
| PhotoForwarder.Forwarder.PhotosChanged | sources/app/DeviceView.tsx:58-61 | Publishing an extension of the list keeps the counter and the forwarded batches, and keeps the invariant. |
| PhotoForwarder.PublishAndRun | sources/app/DeviceView.tsx:49-61 | A run right after a publish leaves every photo of the list forwarded exactly once, in order, in at most one new batch. |

## Left out

- Bluetooth GATT plumbing is not modelled: connecting, service and characteristic discovery, start/stop notifications, listener registration, and the codec write. Notifications appear as byte sequences passed to the handlers.
- React scheduling is not modelled: the one-second `setInterval` of `processAudio`, effect re-runs and state-update batching. The handlers are methods that a caller invokes in some order.
- The `Uint8Array`/`Int8Array` built over `value.buffer` is taken to hold exactly the notification's bytes. A `DataView` with an offset into a larger buffer is not modelled.
- PhotoReassembly.PhotoReceiver.OnChunk: `rotateImage` is a function parameter, applied at hand-over. Its asynchronous completion, its failure, and any reordering of photos when two rotations finish out of order are not modelled.
- AudioWindow.AudioPipeline.ProcessAudio: `transcribeAudio` is a function parameter whose outcome is text or a rejection. The network call in sources/modules/openai.ts is not part of this model. A race with notifications arriving during the await is covered only through `BeginFlush`/`EndFlush`, which a caller can interleave with `HandleAudioData`.
- PhotoForwarder.Forwarder.Run: `InvalidateSync` is not part of this model. Its coalescing and serialisation of runs are replaced by calls to `Run` in some order. Because `processed` is updated before `agent.addPhoto` is awaited, each `Run` is modelled as one atomic step.
- PhotoForwarder.Forwarder.PhotosChanged: requires the new list to extend the previous one. The `photos` state only ever grows by appending (usePhotos.ts line 36).
- Agent state, text-to-speech, the Blob wrapper and the UI components are not modelled, nor are the agent's use of the photos and audio chunks.
- Console logging is not modelled.
- AudioCodec.CodeUnits: stores one byte per Dafny character, which is a Unicode scalar value. JavaScript's `writeString` stores one byte per UTF-16 code unit. The two differ only for characters outside the Basic Multilingual Plane. `int16ArrayToWav` writes only the ASCII tags RIFF, WAVE, "fmt " and data, so its output is unaffected.
