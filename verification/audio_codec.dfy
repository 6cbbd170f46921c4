/**
 * The codec utilities of sources/utils/audioUtils.ts: expansion of one
 * companded (mu-law) byte to a linear 16-bit sample, and framing of mono
 * 16-bit samples as a canonical 44-byte-header RIFF/WAVE PCM file.
 */
module AudioCodec {
  import opened ByteData

  // ---------------------------------------------------------------------
  // Sample expansion (mulawToLinear)
  // ---------------------------------------------------------------------

  /** ECMAScript ToInt32 on an integral number: reduction modulo 2^32 into [-2^31, 2^31). */
  function ToInt32(x: int): (r: int)
    ensures -0x8000_0000 <= r < 0x8000_0000
    ensures (r - x) % 0x1_0000_0000 == 0
  {
    (x + 0x8000_0000) % 0x1_0000_0000 - 0x8000_0000
  }

  function Pow2(k: nat): (p: nat)
    ensures p >= 1
  {
    if k == 0 then 1 else 2 * Pow2(k - 1)
  }

  /**
   * mulawToLinear, bit for bit. `~mulaw` is `-ToInt32(mulaw) - 1`; the masks
   * 0x80, 0x70 and 0x0f only see its low eight bits, which `% 0x100` keeps.
   * The 132 bias is added after the shift and never subtracted: this differs
   * from the ITU-T G.711 mu-law decoder (see BiasAfterShift), and is kept
   * here as the code has it.
   */
  function MulawToLinear(mulaw: int): int
  {
    var inverted := -ToInt32(mulaw) - 1;
    var bits := (inverted % 0x100) as bv8;
    var sign := if bits & 0x80 != 0 then -1 else 1;
    var exponent := ((bits & 0x70) >> 4) as nat;
    var mantissa := (bits & 0x0f) as nat;
    var sample := mantissa * Pow2(exponent + 3);  // mantissa << (exponent + 3)
    (sample + 132) * sign
  }

  /** The byte the masks of mulawToLinear read: the complement of the input's low byte. */
  function Complemented(x: int): (c: byte)
    ensures c + x % 0x100 == 0xff
  {
    0xff - x % 0x100
  }

  /** Bits 6..4 of a byte. */
  function ExponentOf(c: byte): (e: nat)
    ensures e < 8
  {
    (c / 16) % 8
  }

  /** Bits 3..0 of a byte. */
  function MantissaOf(c: byte): (m: nat)
    ensures m < 16
  {
    c % 16
  }

  /** The magnitude the code produces for a complemented byte: (mantissa << (exponent + 3)) + 132. */
  function Magnitude(c: byte): int
  {
    MantissaOf(c) * Pow2(ExponentOf(c) + 3) + 132
  }

  /** The magnitude ITU-T G.711 decoding gives: ((mantissa << 3) + 132) << exponent, minus 132. */
  function G711Magnitude(c: byte): int
  {
    (MantissaOf(c) * 8 + 132) * Pow2(ExponentOf(c)) - 132
  }

  function Abs(x: int): nat
  {
    if x < 0 then -x else x
  }

  /** The low byte of `~x`, the only bits the masks see, is the complement of x's low byte. */
  lemma InvertedLowByte(x: int)
    ensures (-ToInt32(x) - 1) % 0x100 == Complemented(x)
  {
    var q := (x + 0x8000_0000) / 0x1_0000_0000;
    assert ToInt32(x) == x - q * 0x1_0000_0000;
    assert -ToInt32(x) - 1 == Complemented(x) + 0x100 * (q * 0x100_0000 - x / 0x100 - 1);
  }

  lemma MaskFields(b: bv8)
    ensures (b & 0x80 != 0) <==> b as int >= 0x80
    ensures ((b & 0x70) >> 4) as int == ExponentOf(b as int)
    ensures (b & 0x0f) as int == MantissaOf(b as int)
  {
  }

  lemma ByteAsBits(k: byte)
    ensures (k as bv8) as int == k
  {
  }

  /**
   * The masks, read arithmetically: the result is negative exactly when bit 7
   * of the complemented byte is set, and its magnitude is
   * (mantissa << (exponent + 3)) + 132 over that byte's bit fields.
   */
  lemma {:induction false} MulawFields(x: int)
    ensures var c := Complemented(x);
      MulawToLinear(x) == if c >= 0x80 then -Magnitude(c) else Magnitude(c)
  {
    InvertedLowByte(x);
    var c := Complemented(x);
    ByteAsBits(c);
    MaskFields(c as bv8);
  }

  lemma {:induction false} Pow2Monotone(j: nat, k: nat)
    requires j <= k
    ensures Pow2(j) <= Pow2(k)
  {
    if j < k {
      Pow2Monotone(j, k - 1);
    }
  }

  lemma {:induction false} Pow2Add(j: nat, k: nat)
    ensures Pow2(j + k) == Pow2(j) * Pow2(k)
  {
    if k > 0 {
      Pow2Add(j, k - 1);
    }
  }

  lemma {:induction false} MagnitudeRange(c: byte)
    ensures 132 <= Magnitude(c) <= 15492
  {
    var e, m := ExponentOf(c), MantissaOf(c);
    Pow2Monotone(e + 3, 10);
    assert Pow2(10) == 1024;
    assert m * Pow2(e + 3) <= 15 * 1024;
  }

  /**
   * Total over every integer, never zero, and always an Int16Array value:
   * the magnitude lies in [132, 15492]; the sample is negative exactly when
   * bit 7 of the input byte is clear.
   */
  lemma {:induction false} MulawRange(x: int)
    ensures 132 <= Abs(MulawToLinear(x)) <= 15492
    ensures -0x8000 <= MulawToLinear(x) < 0x8000
    ensures MulawToLinear(x) < 0 <==> x % 0x100 < 0x80
  {
    MulawFields(x);
    MagnitudeRange(Complemented(x));
  }

  /**
   * Only the low eight bits of the input matter, so a byte read through an
   * Int8Array (value b - 256 for b >= 128) expands exactly as the same byte
   * read unsigned.
   */
  lemma {:induction false} MulawReadsLowByteOnly(x: int)
    ensures MulawToLinear(x) == MulawToLinear(x % 0x100)
    ensures 0x80 <= x < 0x100 ==> MulawToLinear(x - 0x100) == MulawToLinear(x)
  {
    SameComplementSameSample(x, x % 0x100);
    if 0x80 <= x < 0x100 {
      SameComplementSameSample(x, x - 0x100);
    }
  }

  lemma {:induction false} SameComplementSameSample(x: int, y: int)
    requires x % 0x100 == y % 0x100
    ensures MulawToLinear(x) == MulawToLinear(y)
  {
    MulawFields(x);
    MulawFields(y);
  }

  lemma {:induction false} MagnitudeVsG711(c: byte)
    ensures Magnitude(c) == G711Magnitude(c) + 264 - 132 * Pow2(ExponentOf(c))
  {
    var e, m := ExponentOf(c), MantissaOf(c);
    var p := Pow2(e);
    Pow2Add(e, 3);
    assert Pow2(3) == 8;
    assert Magnitude(c) == m * (p * 8) + 132;
    assert m * (p * 8) == (m * 8) * p;
    assert (m * 8 + 132) * p == (m * 8) * p + 132 * p;
  }

  lemma {:induction false} Pow2IsTwo(e: nat)
    ensures Pow2(e) == 2 <==> e == 1
  {
    if e >= 2 {
      Pow2Monotone(2, e);
      assert Pow2(2) == 4;
    }
  }

  /**
   * The bias-after-shift deviation, quantified against G.711: the code's
   * magnitude exceeds the G.711 magnitude by 132 * (2 - 2^exponent), so the
   * two agree exactly on segment 1.
   */
  lemma {:induction false} BiasAfterShift(x: int)
    ensures var c := Complemented(x);
      Abs(MulawToLinear(x)) == G711Magnitude(c) + 264 - 132 * Pow2(ExponentOf(c))
    ensures var c := Complemented(x);
      Abs(MulawToLinear(x)) == G711Magnitude(c) <==> ExponentOf(c) == 1
  {
    MulawFields(x);
    var c := Complemented(x);
    MagnitudeRange(c);
    assert Abs(MulawToLinear(x)) == Magnitude(c);
    MagnitudeVsG711(c);
    Pow2IsTwo(ExponentOf(c));
  }

  /**
   * A consequence of the deviation: bytes whose complement has mantissa 0
   * and the same sign bit all expand to the same sample, +-132, whatever
   * their exponent (G.711 would give 0, 132, 396, ...).
   */
  lemma {:induction false} ZeroMantissaCollapses(x: int, y: int)
    requires MantissaOf(Complemented(x)) == 0 && MantissaOf(Complemented(y)) == 0
    requires (x % 0x100 < 0x80) == (y % 0x100 < 0x80)
    ensures MulawToLinear(x) == MulawToLinear(y)
    ensures Abs(MulawToLinear(x)) == 132
  {
    MulawFields(x);
    MulawFields(y);
  }

  // ---------------------------------------------------------------------
  // RIFF/WAVE framing (int16ArrayToWav, writeString)
  // ---------------------------------------------------------------------

  const WavHeaderSize: nat := 44
  const SampleRate: nat := 8000
  const ByteRate: nat := 16000
  const BlockAlign: nat := 2
  const BitsPerSample: nat := 16
  const PcmFormat: nat := 1
  const MonoChannels: nat := 1

  /** The two bytes DataView.setUint16/setInt16(_, v, true) store: v modulo 2^16, low byte first. */
  function LE16(v: int): (b: Bytes)
    ensures |b| == 2
  {
    var u := v % 0x1_0000;
    [u % 0x100, u / 0x100]
  }

  /** The four bytes DataView.setUint32(_, v, true) stores: v modulo 2^32, low byte first. */
  function LE32(v: int): (b: Bytes)
    ensures |b| == 4
  {
    var u := v % 0x1_0000_0000;
    [u % 0x100, (u / 0x100) % 0x100, (u / 0x1_0000) % 0x100, u / 0x100_0000]
  }

  /** What writeString stores: each character's code, truncated to a byte by setUint8 (one byte per character; the tags are ASCII). */
  function CodeUnits(s: string): (b: Bytes)
    ensures |b| == |s|
  {
    seq(|s|, i requires 0 <= i < |s| => (s[i] as int) % 0x100)
  }

  /** The RIFF chunk descriptor: tag, size of everything after this field (36 + 2n), form type. */
  function RiffDescriptor(n: nat): (b: Bytes)
    ensures |b| == 12
  {
    CodeUnits("RIFF") + LE32(36 + n * 2) + CodeUnits("WAVE")
  }

  /** The `fmt ` sub-chunk: 16 bytes of PCM, mono, 8000 Hz, 16000 B/s, block align 2, 16 bits. */
  function FormatChunk(): (b: Bytes)
    ensures |b| == 24
  {
    CodeUnits("fmt ") + LE32(16) + LE16(PcmFormat) + LE16(MonoChannels)
    + LE32(SampleRate) + LE32(ByteRate) + LE16(BlockAlign) + LE16(BitsPerSample)
  }

  /** The `data` sub-chunk header: tag and byte count 2n. */
  function DataChunkHeader(n: nat): (b: Bytes)
    ensures |b| == 8
  {
    CodeUnits("data") + LE32(n * 2)
  }

  /** The 44 header bytes int16ArrayToWav writes for n samples. */
  function WavHeader(n: nat): (b: Bytes)
    ensures |b| == WavHeaderSize
  {
    RiffDescriptor(n) + FormatChunk() + DataChunkHeader(n)
  }

  /** The samples serialised as little-endian two's-complement 16-bit words. */
  function PcmData(samples: seq<int16>): Bytes
  {
    if samples == [] then [] else PcmData(samples[..|samples| - 1]) + LE16(samples[|samples| - 1])
  }

  /** The buffer int16ArrayToWav returns. */
  function Wav(samples: seq<int16>): Bytes
  {
    WavHeader(|samples|) + PcmData(samples)
  }

  // Readers, as DataView.getUint16/getUint32/getInt16(_, true) would see the buffer.

  function ReadUint16(b: Bytes, offset: nat): int
    requires offset + 2 <= |b|
  {
    var lo: int, hi: int := b[offset], b[offset + 1];
    lo + 0x100 * hi
  }

  function ReadUint32(b: Bytes, offset: nat): int
    requires offset + 4 <= |b|
  {
    ReadUint16(b, offset) + 0x1_0000 * ReadUint16(b, offset + 2)
  }

  function ReadInt16(b: Bytes, offset: nat): int
    requires offset + 2 <= |b|
  {
    var u := ReadUint16(b, offset);
    if u >= 0x8000 then u - 0x1_0000 else u
  }

  /** A four-character tag compares equal to the bytes at offset. */
  predicate HasTag(b: Bytes, offset: nat, tag: string)
    requires |tag| == 4
  {
    offset + 4 <= |b| && b[offset..offset + 4] == CodeUnits(tag)
  }

  /** The samples a reader of a 44-byte-header PCM file recovers from its data section. */
  function ReadPcm(b: Bytes): seq<int>
  {
    var n := if |b| < WavHeaderSize then 0 else (|b| - WavHeaderSize) / 2;
    seq(n, i requires 0 <= i < n => ReadInt16(b, WavHeaderSize + 2 * i))
  }

  lemma LE16ReadsBack(v: int)
    ensures ReadUint16(LE16(v), 0) == v % 0x1_0000
    ensures -0x8000 <= v < 0x8000 ==> ReadInt16(LE16(v), 0) == v
  {
  }

  lemma LE32ReadsBack(v: int)
    ensures ReadUint32(LE32(v), 0) == v % 0x1_0000_0000
  {
    var u := v % 0x1_0000_0000;
    var b := LE32(v);
    assert ReadUint16(b, 0) == u % 0x1_0000;
    assert ReadUint16(b, 2) == u / 0x1_0000;
  }

  lemma {:induction false} PcmDataLength(samples: seq<int16>)
    ensures |PcmData(samples)| == 2 * |samples|
  {
    if samples != [] {
      PcmDataLength(samples[..|samples| - 1]);
    }
  }

  /** Sample i occupies bytes 2i and 2i+1 of the data section. */
  lemma {:induction false} PcmDataAt(samples: seq<int16>, i: nat)
    requires i < |samples|
    ensures |PcmData(samples)| == 2 * |samples|
    ensures PcmData(samples)[2 * i..2 * i + 2] == LE16(samples[i])
  {
    PcmDataLength(samples);
    var last := |samples| - 1;
    var front := samples[..last];
    PcmDataLength(front);
    if i < last {
      PcmDataAt(front, i);
      assert PcmData(samples)[2 * i..2 * i + 2] == PcmData(front)[2 * i..2 * i + 2];
    } else {
      assert PcmData(samples)[2 * i..2 * i + 2] == LE16(samples[last]);
    }
  }

  /** Output length is exactly 44 + 2n. */
  lemma {:induction false} WavLength(samples: seq<int16>)
    ensures |Wav(samples)| == WavHeaderSize + 2 * |samples|
  {
    PcmDataLength(samples);
  }

  /** The header splits into the RIFF descriptor, the `fmt ` sub-chunk and the `data` header. */
  lemma {:induction false} WavParts(samples: seq<int16>)
    ensures var b, n := Wav(samples), |samples|;
      && |b| == 44 + 2 * n
      && b[..12] == RiffDescriptor(n)
      && b[12..36] == FormatChunk()
      && b[36..44] == DataChunkHeader(n)
  {
    WavLength(samples);
  }

  /** The four chunk tags sit at offsets 0, 8, 12 and 36. */
  lemma {:induction false} WavChunkTags(samples: seq<int16>)
    ensures var b := Wav(samples);
      HasTag(b, 0, "RIFF") && HasTag(b, 8, "WAVE") && HasTag(b, 12, "fmt ") && HasTag(b, 36, "data")
  {
    var n, b := |samples|, Wav(samples);
    WavParts(samples);
    var r, f, d := RiffDescriptor(n), FormatChunk(), DataChunkHeader(n);
    assert b[0..4] == r[0..4];
    assert b[8..12] == r[8..12];
    assert b[12..16] == f[0..4];
    assert b[36..40] == d[0..4];
  }

  /**
   * The two size fields: the RIFF size is the total length minus 8 and the
   * data size is 2n, both reduced modulo 2^32 as setUint32 does.
   */
  lemma {:induction false} WavSizeFields(samples: seq<int16>)
    ensures var b, n := Wav(samples), |samples|;
      && |b| == 44 + 2 * n
      && ReadUint32(b, 4) == (|b| - 8) % 0x1_0000_0000
      && ReadUint32(b, 40) == (2 * n) % 0x1_0000_0000
  {
    var n, b := |samples|, Wav(samples);
    WavParts(samples);
    var r, d := RiffDescriptor(n), DataChunkHeader(n);
    assert b[4..8] == r[4..8] == LE32(36 + n * 2);
    ReadsField32(b, 4, LE32(36 + n * 2));
    LE32ReadsBack(36 + n * 2);
    assert b[40..44] == d[4..8] == LE32(n * 2);
    ReadsField32(b, 40, LE32(n * 2));
    LE32ReadsBack(n * 2);
  }

  /** The `fmt ` sub-chunk: size 16, PCM, mono, 8000 Hz, 16000 bytes/s, block align 2, 16 bits. */
  lemma {:induction false} WavFormatFields(samples: seq<int16>)
    ensures var b := Wav(samples);
      && |b| >= 44
      && ReadUint32(b, 16) == 16
      && ReadUint16(b, 20) == PcmFormat
      && ReadUint16(b, 22) == MonoChannels
      && ReadUint32(b, 24) == SampleRate
      && ReadUint32(b, 28) == ByteRate
      && ReadUint16(b, 32) == BlockAlign
      && ReadUint16(b, 34) == BitsPerSample
  {
    var b := Wav(samples);
    WavParts(samples);
    FixedHeaderBytes();
    var f := FormatChunk();
    forall k | 16 <= k < 36
      ensures b[k] == f[k - 12]
    {
    }
  }

  /** The bytes of the header that do not depend on the sample count. */
  lemma FixedHeaderBytes()
    ensures CodeUnits("RIFF") == [0x52, 0x49, 0x46, 0x46]
    ensures CodeUnits("WAVE") == [0x57, 0x41, 0x56, 0x45]
    ensures CodeUnits("data") == [0x64, 0x61, 0x74, 0x61]
    ensures FormatChunk() == [0x66, 0x6d, 0x74, 0x20, 16, 0, 0, 0, 1, 0, 1, 0,
                              0x40, 0x1f, 0, 0, 0x80, 0x3e, 0, 0, 2, 0, 16, 0]
  {
    assert CodeUnits("fmt ") == [0x66, 0x6d, 0x74, 0x20];
  }

  lemma ReadsField16(b: Bytes, offset: nat, field: Bytes)
    requires offset + 2 <= |b| && b[offset..offset + 2] == field
    ensures ReadUint16(b, offset) == ReadUint16(field, 0)
  {
    assert b[offset] == field[0] && b[offset + 1] == field[1];
  }

  lemma ReadsField32(b: Bytes, offset: nat, field: Bytes)
    requires offset + 4 <= |b| && b[offset..offset + 4] == field
    ensures ReadUint32(b, offset) == ReadUint32(field, 0)
  {
    ReadsField16(b, offset, field[0..2]);
    ReadsField16(b, offset + 2, field[2..4]);
    assert field[2..4][0] == field[2] && field[2..4][1] == field[3];
  }

  /** The byte-rate field is the sample rate times the block align. */
  lemma {:induction false} ByteRateIsRateTimesAlign(samples: seq<int16>)
    ensures var b := Wav(samples);
      |b| >= 44 && ReadUint32(b, 28) == ReadUint32(b, 24) * ReadUint16(b, 32)
  {
    WavFormatFields(samples);
  }

  /** The 44 header bytes depend on the number of samples only. */
  lemma {:induction false} HeaderDependsOnlyOnCount(s: seq<int16>, t: seq<int16>)
    requires |s| == |t|
    ensures |Wav(s)| >= 44 && |Wav(t)| >= 44
    ensures Wav(s)[..44] == Wav(t)[..44]
  {
    WavLength(s);
    WavLength(t);
    assert Wav(s)[..44] == WavHeader(|s|);
    assert Wav(t)[..44] == WavHeader(|t|);
  }

  /** Round trip: the int16 at offset 44 + 2i is sample i. */
  lemma {:induction false} WavSampleAt(samples: seq<int16>, i: nat)
    requires i < |samples|
    ensures 44 + 2 * i + 2 <= |Wav(samples)|
    ensures ReadInt16(Wav(samples), 44 + 2 * i) == samples[i]
  {
    PcmDataAt(samples, i);
    var b := Wav(samples);
    assert b[44 + 2 * i..44 + 2 * i + 2] == PcmData(samples)[2 * i..2 * i + 2];
    LE16ReadsBack(samples[i]);
  }

  /** Round trip over the whole data section. */
  lemma {:induction false} WavRoundTrip(samples: seq<int16>)
    ensures ReadPcm(Wav(samples)) == samples
  {
    WavLength(samples);
    var r := ReadPcm(Wav(samples));
    assert |r| == |samples|;
    forall i | 0 <= i < |samples|
      ensures r[i] == samples[i]
    {
      WavSampleAt(samples, i);
    }
  }

  // ---------------------------------------------------------------------
  // The imperative writers, over the ArrayBuffer behind the DataView
  // ---------------------------------------------------------------------

  /** s with the bytes at offset .. offset+|b| replaced by b. */
  function Overwrite(s: Bytes, offset: nat, b: Bytes): Bytes
    requires offset + |b| <= |s|
  {
    s[..offset] + b + s[offset + |b|..]
  }

  method SetUint8(view: array<byte>, offset: nat, value: int)
    requires offset < view.Length
    modifies view
    ensures view[..] == old(view[..])[offset := value % 0x100]
  {
    view[offset] := value % 0x100;
  }

  method SetUint16(view: array<byte>, offset: nat, value: int)
    requires offset + 2 <= view.Length
    modifies view
    ensures view[..] == Overwrite(old(view[..]), offset, LE16(value))
  {
    var u := value % 0x1_0000;
    view[offset] := u % 0x100;
    view[offset + 1] := u / 0x100;
  }

  /** setInt16 stores the same two bytes as setUint16: the value modulo 2^16. */
  method SetInt16(view: array<byte>, offset: nat, value: int)
    requires offset + 2 <= view.Length
    modifies view
    ensures view[..] == Overwrite(old(view[..]), offset, LE16(value))
  {
    SetUint16(view, offset, value);
  }

  method SetUint32(view: array<byte>, offset: nat, value: int)
    requires offset + 4 <= view.Length
    modifies view
    ensures view[..] == Overwrite(old(view[..]), offset, LE32(value))
  {
    var u := value % 0x1_0000_0000;
    view[offset] := u % 0x100;
    view[offset + 1] := (u / 0x100) % 0x100;
    view[offset + 2] := (u / 0x1_0000) % 0x100;
    view[offset + 3] := u / 0x100_0000;
  }

  /** writeString: one setUint8 per code unit, from offset on. */
  method WriteString(view: array<byte>, offset: nat, s: string)
    requires offset + |s| <= view.Length
    modifies view
    ensures view[..] == Overwrite(old(view[..]), offset, CodeUnits(s))
  {
    for i := 0 to |s|
      invariant forall j :: 0 <= j < view.Length ==>
        view[j] == if offset <= j < offset + i then CodeUnits(s)[j - offset] else old(view[j])
    {
      SetUint8(view, offset + i, s[i] as int);
    }
    assert view[..] == Overwrite(old(view[..]), offset, CodeUnits(s));
  }

  /** Two adjacent writes compose into one. */
  lemma OverwriteAdjacent(s: Bytes, offset: nat, a: Bytes, b: Bytes)
    requires offset + |a| + |b| <= |s|
    ensures Overwrite(Overwrite(s, offset, a), offset + |a|, b) == Overwrite(s, offset, a + b)
  {
  }

  /** Header bytes 0..11 (audioUtils.ts lines 17-19). */
  method WriteRiffDescriptor(view: array<byte>, n: nat)
    requires 12 <= view.Length
    modifies view
    ensures view[..] == Overwrite(old(view[..]), 0, RiffDescriptor(n))
  {
    ghost var s := view[..];
    WriteString(view, 0, "RIFF");
    SetUint32(view, 4, 36 + n * 2);
    OverwriteAdjacent(s, 0, CodeUnits("RIFF"), LE32(36 + n * 2));
    WriteString(view, 8, "WAVE");
    OverwriteAdjacent(s, 0, CodeUnits("RIFF") + LE32(36 + n * 2), CodeUnits("WAVE"));
  }

  /** Header bytes 12..35, the `fmt ` sub-chunk (audioUtils.ts lines 20-27). */
  method WriteFormatChunk(view: array<byte>)
    requires 36 <= view.Length
    modifies view
    ensures view[..] == Overwrite(old(view[..]), 12, FormatChunk())
  {
    ghost var s := view[..];
    ghost var w := CodeUnits("fmt ");
    WriteString(view, 12, "fmt ");
    SetUint32(view, 16, 16);
    OverwriteAdjacent(s, 12, w, LE32(16));
    w := w + LE32(16);
    SetUint16(view, 20, PcmFormat);
    OverwriteAdjacent(s, 12, w, LE16(PcmFormat));
    w := w + LE16(PcmFormat);
    SetUint16(view, 22, MonoChannels);
    OverwriteAdjacent(s, 12, w, LE16(MonoChannels));
    w := w + LE16(MonoChannels);
    SetUint32(view, 24, SampleRate);
    OverwriteAdjacent(s, 12, w, LE32(SampleRate));
    w := w + LE32(SampleRate);
    SetUint32(view, 28, ByteRate);
    OverwriteAdjacent(s, 12, w, LE32(ByteRate));
    w := w + LE32(ByteRate);
    SetUint16(view, 32, BlockAlign);
    OverwriteAdjacent(s, 12, w, LE16(BlockAlign));
    w := w + LE16(BlockAlign);
    SetUint16(view, 34, BitsPerSample);
    OverwriteAdjacent(s, 12, w, LE16(BitsPerSample));
  }

  /** Header bytes 36..43 (audioUtils.ts lines 28-29). */
  method WriteDataChunkHeader(view: array<byte>, n: nat)
    requires 44 <= view.Length
    modifies view
    ensures view[..] == Overwrite(old(view[..]), 36, DataChunkHeader(n))
  {
    ghost var s := view[..];
    WriteString(view, 36, "data");
    SetUint32(view, 40, n * 2);
    OverwriteAdjacent(s, 36, CodeUnits("data"), LE32(n * 2));
  }

  /** int16ArrayToWav: a buffer of 44 + 2n bytes holding exactly Wav(samples). */
  method Int16ArrayToWav(samples: seq<int16>) returns (buffer: array<byte>)
    ensures buffer[..] == Wav(samples)
  {
    var n := |samples|;
    buffer := new byte[44 + n * 2];
    ghost var s := buffer[..];
    WriteRiffDescriptor(buffer, n);
    WriteFormatChunk(buffer);
    OverwriteAdjacent(s, 0, RiffDescriptor(n), FormatChunk());
    WriteDataChunkHeader(buffer, n);
    OverwriteAdjacent(s, 0, RiffDescriptor(n) + FormatChunk(), DataChunkHeader(n));
    assert samples[..0] == [];
    assert WavHeader(n) + PcmData(samples[..0]) == RiffDescriptor(n) + FormatChunk() + DataChunkHeader(n);

    for i := 0 to n
      invariant |PcmData(samples[..i])| == 2 * i
      invariant buffer[..] == Overwrite(s, 0, WavHeader(n) + PcmData(samples[..i]))
    {
      PcmDataLength(samples[..i + 1]);
      SetInt16(buffer, 44 + i * 2, samples[i]);
      OverwriteAdjacent(s, 0, WavHeader(n) + PcmData(samples[..i]), LE16(samples[i]));
      assert samples[..i + 1][..i] == samples[..i];
      assert PcmData(samples[..i + 1]) == PcmData(samples[..i]) + LE16(samples[i]);
      assert WavHeader(n) + PcmData(samples[..i]) + LE16(samples[i]) == WavHeader(n) + PcmData(samples[..i + 1]);
    }
    assert samples[..n] == samples;
    assert |s| == |Wav(samples)|;
  }
}
