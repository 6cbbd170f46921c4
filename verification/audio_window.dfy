/**
 * The audio windowing of sources/utils/useAudio.ts: each audio-data
 * notification is expanded byte by byte into 16-bit samples, handed to the
 * agent as a one-shot WAV and appended to the window (`audioBuffer`); a
 * flush hands the whole window to the transcriber once it holds more than
 * 8000 samples and transcription is enabled, and always empties it.
 */
module AudioWindow {
  import opened ByteData
  import opened AudioCodec

  /** How transcribeAudio settled for one WAV: the text it resolved to, or a rejection. */
  datatype Transcription = Transcribed(text: string) | Failed

  /** The window is flushed only when it holds strictly more samples than this. */
  const FlushThreshold: nat := 8000

  /** A byte as an Int8Array element reads it. */
  function SignedByte(b: byte): (v: int)
    ensures -0x80 <= v < 0x80
    ensures v % 0x100 == b
  {
    if b >= 0x80 then b - 0x100 else b
  }

  /** What storing a number into an Int16Array keeps (ECMAScript ToInt16 on integers). */
  function ToInt16(x: int): (v: int16)
    ensures (v - x) % 0x1_0000 == 0
    ensures -0x8000 <= x < 0x8000 ==> v == x
  {
    (x + 0x8000) % 0x1_0000 - 0x8000
  }

  /** The samples handleAudioData decodes from one notification. */
  function Decoded(value: Bytes): (samples: seq<int16>)
    ensures |samples| == |value|
  {
    seq(|value|, i requires 0 <= i < |value| => ToInt16(MulawToLinear(SignedByte(value[i]))))
  }

  /**
   * Sample i of a decoded notification is the mu-law expansion of byte i:
   * read signed, as the code does, or unsigned, the result is the same and
   * needs no truncation to fit the Int16Array.
   */
  lemma DecodedAt(value: Bytes, i: nat)
    requires i < |value|
    ensures Decoded(value)[i] == MulawToLinear(value[i])
    ensures 132 <= Abs(Decoded(value)[i]) <= 15492
  {
    var b := value[i];
    MulawRange(b);
    MulawReadsLowByteOnly(SignedByte(b));
  }

  /** The decode loop of handleAudioData (useAudio.ts lines 32-36): one sample per byte, in place. */
  method DecodeFrame(value: Bytes) returns (int16Array: array<int16>)
    ensures int16Array.Length == |value|
    ensures forall i :: 0 <= i < |value| ==> int16Array[i] == MulawToLinear(value[i])
    ensures int16Array[..] == Decoded(value)
  {
    int16Array := new int16[|value|];
    for i := 0 to |value|
      invariant forall j :: 0 <= j < i ==> int16Array[j] == Decoded(value)[j]
    {
      int16Array[i] := ToInt16(MulawToLinear(SignedByte(value[i])));
    }
    forall i | 0 <= i < |value|
      ensures int16Array[i] == MulawToLinear(value[i])
    {
      DecodedAt(value, i);
    }
  }

  /** The updater passed to setAudioBuffer (lines 44-49): a fresh array holding the old window, then the new samples. */
  method AppendSamples(prevBuffer: seq<int16>, int16Array: array<int16>) returns (newBuffer: array<int16>)
    ensures newBuffer.Length == |prevBuffer| + int16Array.Length
    ensures newBuffer[..|prevBuffer|] == prevBuffer
    ensures newBuffer[|prevBuffer|..] == int16Array[..]
  {
    newBuffer := new int16[|prevBuffer| + int16Array.Length];
    for i := 0 to |prevBuffer|
      invariant forall j :: 0 <= j < i ==> newBuffer[j] == prevBuffer[j]
    {
      newBuffer[i] := prevBuffer[i];
    }
    for i := 0 to int16Array.Length
      invariant forall j :: 0 <= j < |prevBuffer| ==> newBuffer[j] == prevBuffer[j]
      invariant forall j :: 0 <= j < i ==> newBuffer[|prevBuffer| + j] == int16Array[j]
    {
      newBuffer[|prevBuffer| + i] := int16Array[i];
    }
  }

  /** The state of one useAudio hook instance. */
  class AudioPipeline {
    /** The window: samples decoded since the last flush or reset. */
    var audioBuffer: seq<int16>
    var transcription: string
    /** The one-shot WAVs handed to agent.addAudioChunk, oldest first. */
    var agentChunks: seq<Bytes>

    /** Initial React state (useAudio.ts lines 17-20). */
    constructor ()
      ensures audioBuffer == [] && transcription == "" && agentChunks == []
    {
      audioBuffer := [];
      transcription := "";
      agentChunks := [];
    }

    /**
     * handleAudioData. `value` is the characteristic's value, absent when
     * undefined. While collecting, a k-byte notification appends exactly k
     * samples to the window, leaving what was there untouched, and hands the
     * agent a WAV made of those k samples only.
     */
    method HandleAudioData(isCollecting: bool, value: Option<Bytes>)
      modifies this
      ensures !isCollecting || value.None? ==>
        audioBuffer == old(audioBuffer) && transcription == old(transcription) && agentChunks == old(agentChunks)
      ensures isCollecting && value.Some? ==>
        && audioBuffer == old(audioBuffer) + Decoded(value.value)
        && agentChunks == old(agentChunks) + [Wav(Decoded(value.value))]
        && transcription == old(transcription)
    {
      if !isCollecting {
        return;
      }
      if value.Some? {
        var int16Array := DecodeFrame(value.value);
        var wavBuffer := Int16ArrayToWav(int16Array[..]);
        agentChunks := agentChunks + [wavBuffer[..]];
        var newBuffer := AppendSamples(audioBuffer, int16Array);
        assert newBuffer[..] == newBuffer[..|audioBuffer|] + newBuffer[|audioBuffer|..];
        audioBuffer := newBuffer[..];
      }
    }

    /**
     * The first half of processAudio (lines 194-195): the WAV submitted to
     * the transcriber, which exists only when the window holds more than
     * 8000 samples and transcription is enabled.
     */
    method BeginFlush(transcriptionEnabled: bool) returns (wavBuffer: Option<Bytes>)
      ensures wavBuffer.Some? <==> |audioBuffer| > FlushThreshold && transcriptionEnabled
      ensures wavBuffer.Some? ==> wavBuffer.value == Wav(audioBuffer)
    {
      if |audioBuffer| > FlushThreshold && transcriptionEnabled {
        var wav := Int16ArrayToWav(audioBuffer);
        wavBuffer := Some(wav[..]);
      } else {
        wavBuffer := None;
      }
    }

    /**
     * The second half of processAudio (lines 196-203), once transcribeAudio
     * has settled: on success the transcript gains " " + text, on failure it
     * is unchanged; either way the window is replaced by an empty one, which
     * also drops any samples that arrived while the transcriber was working.
     */
    method EndFlush(outcome: Transcription)
      modifies this
      ensures audioBuffer == []
      ensures transcription == if outcome.Transcribed? then old(transcription) + " " + outcome.text else old(transcription)
      ensures agentChunks == old(agentChunks)
    {
      if outcome.Transcribed? {
        transcription := transcription + " " + outcome.text;
      }
      audioBuffer := [];
    }

    /**
     * One tick of processAudio with nothing arriving during the await: the
     * transcriber sees exactly the WAV of the window; without a flush nothing
     * changes, so a disabled transcriber lets the window grow.
     */
    method ProcessAudio(transcriptionEnabled: bool, transcribe: Bytes -> Transcription)
      returns (submitted: Option<Bytes>)
      modifies this
      ensures submitted.Some? <==> |old(audioBuffer)| > FlushThreshold && transcriptionEnabled
      ensures submitted.None? ==>
        audioBuffer == old(audioBuffer) && transcription == old(transcription)
      ensures submitted.Some? ==>
        && submitted.value == Wav(old(audioBuffer))
        && audioBuffer == []
        && transcription == match transcribe(submitted.value)
             case Transcribed(text) => old(transcription) + " " + text
             case Failed => old(transcription)
      ensures agentChunks == old(agentChunks)
    {
      submitted := BeginFlush(transcriptionEnabled);
      if submitted.Some? {
        EndFlush(transcribe(submitted.value));
      }
    }

    /** resetAudio (lines 212-215): empties the window and the transcript. */
    method ResetAudio()
      modifies this
      ensures audioBuffer == [] && transcription == ""
      ensures agentChunks == old(agentChunks)
    {
      audioBuffer := [];
      transcription := "";
    }
  }

  /** Each one-shot WAV of a k-byte notification is 44 + 2k bytes long and reads back as the decoded samples. */
  lemma {:induction false} ChunkWav(value: Bytes)
    ensures |Wav(Decoded(value))| == 44 + 2 * |value|
    ensures ReadPcm(Wav(Decoded(value))) == Decoded(value)
  {
    WavLength(Decoded(value));
    WavRoundTrip(Decoded(value));
  }
}
