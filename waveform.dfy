/** The container writer of Waveform: the 44-byte RIFF/WAVE/fmt /data header
    followed by the interleaved PCM payload. The output stream is modelled as
    the sequence of bytes written to it. */
module Waveform {
  import opened Errors
  import opened LittleEndian
  import opened Samples
  import opened Pcm

  /** The little-endian uint32 values of the ASCII tags "RIFF", "WAVE" and "data". */
  const RiffTag: nat := 0x46464952
  const WaveTag: nat := 0x45564157
  const DataTag: nat := 0x61746164

  /** BinaryWriter.Write(char) for ASCII characters: one byte each. */
  function Ascii(t: string): (r: seq<byte>)
    requires forall i :: 0 <= i < |t| ==> t[i] as int < 128
    ensures |r| == |t|
    ensures forall i :: 0 <= i < |t| ==> r[i] == t[i] as int
  {
    seq(|t|, i requires 0 <= i < |t| => t[i] as int)
  }

  /** The tags the writer emits read back as the constants the readers compare against. */
  lemma TagValues()
    ensures FromLE(Ascii("RIFF")) == RiffTag
    ensures FromLE(Ascii("WAVE")) == WaveTag
    ensures FromLE(Ascii("data")) == DataTag
  {
    FromLE4(Ascii("RIFF"));
    FromLE4(Ascii("WAVE"));
    FromLE4(Ascii("data"));
  }

  /** Bytes of PCM data for `len` samples in each of `cc` channels of width `w`. */
  function DataSize(w: Width, cc: nat, len: nat): nat {
    len * cc * w.Bytes()
  }

  /** The 44 header bytes for the given field values, each written as a
      little-endian uint (4 bytes) or ushort (2 bytes), hence modulo 2^32 or 2^16. */
  function Fields(size: nat, cc: nat, sampleRate: nat, byteRate: nat, blockAlign: nat, bits: nat, dataSize: nat): seq<byte>
  {
    Ascii("RIFF") + ToLE(size, 4) + Ascii("WAVE") + Ascii("fmt ")
    + ToLE(16, 4) + ToLE(1, 2) + ToLE(cc, 2) + ToLE(sampleRate, 4)
    + ToLE(byteRate, 4) + ToLE(blockAlign, 2) + ToLE(bits, 2)
    + Ascii("data") + ToLE(dataSize, 4)
  }

  /** The RIFF chunk size field: the 44-byte header plus the data, less the
      8 bytes of "RIFF" and the size itself. */
  function RiffSize(w: Width, cc: nat, len: nat): (r: nat)
    ensures r == 36 + DataSize(w, cc, len)
  {
    assert cc * len * w.Bytes() == len * cc * w.Bytes();
    44 + cc * len * w.Bytes() - 8
  }

  /** The byte rate field: sampleRate * channelCount * bytes per sample. */
  function ByteRate(w: Width, sampleRate: nat, cc: nat): nat {
    sampleRate * cc * w.Bytes()
  }

  /** The block align field: channelCount * bytes per sample. */
  function BlockAlign(w: Width, cc: nat): nat {
    cc * w.Bytes()
  }

  /** The header Write8BitsSound, Write16BitsSound and Write32BitsSound emit,
      after the "RIFF" that Write<T> emits. The unchecked C# uint and ushort
      arithmetic wraps, which writing the low bytes of each value reproduces. */
  function Header(w: Width, sampleRate: nat, cc: nat, len: nat): seq<byte>
  {
    Fields(RiffSize(w, cc, len), cc, sampleRate, ByteRate(w, sampleRate, cc),
      BlockAlign(w, cc), w.Bits(), DataSize(w, cc, len))
  }

  /** What Write<T> puts on the stream for a sound with channels of equal length. */
  function Serialize(v: SoundValue): seq<byte>
    requires |v.channels| > 0 && SameLengths(v.channels)
  {
    var len := v.channels[0].Length();
    Header(v.width, v.sampleRate, |v.channels|, len) + Payload(v.width, v.channels, len)
  }

  /** The pieces of a concatenation of thirteen header fields, by position. */
  lemma FieldSlices(f: seq<seq<byte>>, h: seq<byte>)
    requires |f| == 13
    requires |f[0]| == 4 && |f[1]| == 4 && |f[2]| == 4 && |f[3]| == 4 && |f[4]| == 4
    requires |f[5]| == 2 && |f[6]| == 2 && |f[7]| == 4 && |f[8]| == 4 && |f[9]| == 2
    requires |f[10]| == 2 && |f[11]| == 4 && |f[12]| == 4
    requires h == f[0] + f[1] + f[2] + f[3] + f[4] + f[5] + f[6] + f[7] + f[8] + f[9] + f[10] + f[11] + f[12]
    ensures |h| == 44
    ensures h[0..4] == f[0] && h[4..8] == f[1] && h[8..12] == f[2] && h[12..16] == f[3]
    ensures h[16..20] == f[4] && h[20..22] == f[5] && h[22..24] == f[6] && h[24..28] == f[7]
    ensures h[28..32] == f[8] && h[32..34] == f[9] && h[34..36] == f[10] && h[36..40] == f[11]
    ensures h[40..44] == f[12]
  {
    var h6 := f[0] + f[1] + f[2] + f[3] + f[4] + f[5] + f[6];
    var t := f[7] + f[8] + f[9] + f[10] + f[11] + f[12];
    assert h == h6 + t;
    assert h6[0..4] == f[0] && h6[4..8] == f[1] && h6[8..12] == f[2] && h6[12..16] == f[3];
    assert h6[16..20] == f[4] && h6[20..22] == f[5] && h6[22..24] == f[6];
    assert t[0..4] == f[7] && t[4..8] == f[8] && t[8..10] == f[9] && t[10..12] == f[10];
    assert t[12..16] == f[11] && t[16..20] == f[12];
  }

  /** The header bytes field by field. */
  lemma FieldsPieces(size: nat, cc: nat, sampleRate: nat, byteRate: nat, blockAlign: nat, bits: nat, dataSize: nat)
    ensures var h := Fields(size, cc, sampleRate, byteRate, blockAlign, bits, dataSize);
      |h| == 44 &&
      h[0..4] == Ascii("RIFF") && h[4..8] == ToLE(size, 4) && h[8..12] == Ascii("WAVE") &&
      h[12..16] == Ascii("fmt ") && h[16..20] == ToLE(16, 4) && h[20..22] == ToLE(1, 2) &&
      h[22..24] == ToLE(cc, 2) && h[24..28] == ToLE(sampleRate, 4) && h[28..32] == ToLE(byteRate, 4) &&
      h[32..34] == ToLE(blockAlign, 2) && h[34..36] == ToLE(bits, 2) &&
      h[36..40] == Ascii("data") && h[40..44] == ToLE(dataSize, 4)
  {
    var f := [Ascii("RIFF"), ToLE(size, 4), Ascii("WAVE"), Ascii("fmt "),
      ToLE(16, 4), ToLE(1, 2), ToLE(cc, 2), ToLE(sampleRate, 4),
      ToLE(byteRate, 4), ToLE(blockAlign, 2), ToLE(bits, 2),
      Ascii("data"), ToLE(dataSize, 4)];
    FieldSlices(f, Fields(size, cc, sampleRate, byteRate, blockAlign, bits, dataSize));
  }

  /** Field by field, the header bytes: each field reads back as its value
      modulo 2^32 (uint) or 2^16 (ushort). */
  lemma FieldsLayout(size: nat, cc: nat, sampleRate: nat, byteRate: nat, blockAlign: nat, bits: nat, dataSize: nat)
    ensures var h := Fields(size, cc, sampleRate, byteRate, blockAlign, bits, dataSize);
      |h| == 44 &&
      h[0..4] == Ascii("RIFF") && FromLE(h[0..4]) == RiffTag &&
      FromLE(h[4..8]) == size % 0x1_0000_0000 &&
      h[8..12] == Ascii("WAVE") && FromLE(h[8..12]) == WaveTag &&
      h[12..16] == Ascii("fmt ") &&
      FromLE(h[16..20]) == 16 && FromLE(h[20..22]) == 1 &&
      FromLE(h[22..24]) == cc % 0x1_0000 &&
      FromLE(h[24..28]) == sampleRate % 0x1_0000_0000 &&
      FromLE(h[28..32]) == byteRate % 0x1_0000_0000 &&
      FromLE(h[32..34]) == blockAlign % 0x1_0000 &&
      FromLE(h[34..36]) == bits % 0x1_0000 &&
      h[36..40] == Ascii("data") && FromLE(h[36..40]) == DataTag &&
      FromLE(h[40..44]) == dataSize % 0x1_0000_0000
  {
    FieldsPieces(size, cc, sampleRate, byteRate, blockAlign, bits, dataSize);
    Pow256Values();
    TagValues();
    FromToLE(size, 4);
    FromToLE(16, 4);
    FromToLE(1, 2);
    FromToLE(cc, 2);
    FromToLE(sampleRate, 4);
    FromToLE(byteRate, 4);
    FromToLE(blockAlign, 2);
    FromToLE(bits, 2);
    FromToLE(dataSize, 4);
  }

  /** The header a sound is written with: RIFF size 36 + data size, format
      tag 1, byte rate rate * cc * bytes, block align cc * bytes, bits 8 * bytes
      and the data size len * cc * bytes, the uints modulo 2^32 and the ushorts
      modulo 2^16. */
  lemma HeaderLayout(w: Width, sampleRate: uint32, cc: nat, len: nat, h: seq<byte>)
    requires h == Header(w, sampleRate, cc, len)
    ensures |h| == 44
    ensures h[0..4] == Ascii("RIFF") && FromLE(h[0..4]) == RiffTag
    ensures FromLE(h[4..8]) == (36 + DataSize(w, cc, len)) % 0x1_0000_0000
    ensures h[8..12] == Ascii("WAVE") && FromLE(h[8..12]) == WaveTag
    ensures h[12..16] == Ascii("fmt ")
    ensures FromLE(h[16..20]) == 16 && FromLE(h[20..22]) == 1
    ensures FromLE(h[22..24]) == cc % 0x1_0000
    ensures FromLE(h[24..28]) == sampleRate
    ensures FromLE(h[28..32]) == ByteRate(w, sampleRate, cc) % 0x1_0000_0000
    ensures FromLE(h[32..34]) == BlockAlign(w, cc) % 0x1_0000
    ensures FromLE(h[34..36]) == w.Bits()
    ensures h[36..40] == Ascii("data") && FromLE(h[36..40]) == DataTag
    ensures FromLE(h[40..44]) == DataSize(w, cc, len) % 0x1_0000_0000
  {
    FieldsLayout(RiffSize(w, cc, len), cc, sampleRate, ByteRate(w, sampleRate, cc),
      BlockAlign(w, cc), w.Bits(), DataSize(w, cc, len));
    ModSmall(sampleRate, 0x1_0000_0000);
    ModSmall(w.Bits(), 0x1_0000);
  }

  /** The serialized sound is the 44-byte header followed by len * cc * bytes of payload. */
  lemma SerializeLayout(v: SoundValue)
    requires |v.channels| > 0 && SameLengths(v.channels)
    ensures var len := v.channels[0].Length();
      |Serialize(v)| == 44 + DataSize(v.width, |v.channels|, len) &&
      Serialize(v)[..44] == Header(v.width, v.sampleRate, |v.channels|, len) &&
      Serialize(v)[44..] == Payload(v.width, v.channels, len)
  {
    PayloadLength(v.width, v.channels, v.channels[0].Length());
  }

  /** Write<T> and Write8BitsSound … Write32BitsSound: the header fields
      appended one by one, then the interleaved samples. */
  method WriteWave(sound: Sound) returns (out: seq<byte>)
    requires |sound.channels| > 0 && SameLengths(sound.channels)
    requires sound.Valid()
    ensures out == Serialize(sound.Value())
  {
    var w, cc, len := sound.width, |sound.channels|, sound.channels[0].Length();
    out := Ascii("RIFF");
    out := out + ToLE(RiffSize(w, cc, len), 4);
    out := out + Ascii("WAVE");
    out := out + Ascii("fmt ");
    out := out + ToLE(16, 4);
    out := out + ToLE(1, 2);
    out := out + ToLE(cc, 2);
    out := out + ToLE(sound.sampleRate, 4);
    out := out + ToLE(ByteRate(w, sound.sampleRate, cc), 4);
    out := out + ToLE(BlockAlign(w, cc), 2);
    out := out + ToLE(w.Bits(), 2);
    out := out + Ascii("data");
    out := out + ToLE(DataSize(w, cc, len), 4);
    assert out == Header(w, sound.sampleRate, cc, len);
    var pcm := WritePcm(w, sound.channels, len);
    out := out + pcm;
  }

  /** Sound.Write: refuse a sound without channels or with channels of
      different lengths, writing nothing; otherwise serialize it. */
  method Write(sound: Sound) returns (r: Result<seq<byte>>)
    requires sound.Valid()
    ensures |sound.channels| == 0 ==> r == Err(NoChannel)
    ensures |sound.channels| > 0 && !SameLengths(sound.channels) ==> r == Err(ChannelLengthMismatch)
    ensures r.Ok? <==> |sound.channels| > 0 && SameLengths(sound.channels)
    ensures r.Ok? ==> r.value == Serialize(sound.Value())
  {
    if |sound.channels| == 0 {
      return Err(NoChannel);
    }
    for n := 1 to |sound.channels|
      invariant forall i :: 0 <= i < n ==> |sound.channels[i].samples| == |sound.channels[0].samples|
    {
      if sound.channels[n].Length() != sound.channels[0].Length() {
        return Err(ChannelLengthMismatch);
      }
    }
    var out := WriteWave(sound);
    return Ok(out);
  }
}
