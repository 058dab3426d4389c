/** What the writer and the readers promise together: a written sound reads
    back, at its own width unchanged and at another width converted sample by
    sample; the byte-array reader as written never gets that far. */
module RoundTrip {
  import opened Errors
  import opened LittleEndian
  import opened Samples
  import opened Pcm
  import opened Waveform
  import opened WaveReader

  /** A sound Sound.Write accepts: at least one channel, all of one length,
      every sample of the sound's width. */
  ghost predicate Writable(v: SoundValue) {
    |v.channels| > 0 && SameLengths(v.channels)
    && forall c :: 0 <= c < |v.channels| ==> Fits(v.width, v.channels[c])
  }

  /** The sound a reader at width `tgt` makes of `v` written at its own width. */
  function Reencoded(v: SoundValue, tgt: Width): SoundValue {
    SoundValue(tgt, v.sampleRate, ReencodeChannels(v.width, tgt, v.channels))
  }

  /** Reading at the written width changes no sample. */
  lemma ReencodedSameWidth(v: SoundValue)
    requires Writable(v)
    ensures Reencoded(v, v.width) == v
  {
    var e := ReencodeChannels(v.width, v.width, v.channels);
    forall c | 0 <= c < |v.channels| ensures e[c] == v.channels[c] {
      forall n | 0 <= n < |v.channels[c].samples| ensures e[c].samples[n] == v.channels[c].samples[n] {
        ReencodeValue(v.width, v.width, v.channels[c].samples[n]);
      }
    }
  }

  /** A slice inside a prefix is the slice of the prefix. */
  lemma PrefixSlice(s: seq<byte>, h: seq<byte>, i: nat, j: nat)
    requires |h| <= |s| && s[..|h|] == h && i <= j <= |h|
    ensures s[i..j] == h[i..j]
  {
    assert forall k :: i <= k < j ==> s[k] == s[..|h|][k];
  }

  /** The fields both readers take from a serialized sound, by position. */
  lemma SerializedFields(v: SoundValue, s: seq<byte>)
    requires |v.channels| > 0 && SameLengths(v.channels)
    requires |v.channels| < 0x1_0000
    requires s == Serialize(v)
    ensures |s| == 44 + DataSize(v.width, |v.channels|, v.channels[0].Length())
    ensures s[0..4] == Ascii("RIFF") && U32(s, 0) == RiffTag
    ensures s[8..12] == Ascii("WAVE") && U32(s, 8) == WaveTag
    ensures U16(s, 22) == |v.channels| && U32(s, 24) == v.sampleRate
    ensures U16(s, 34) == v.width.Bits()
    ensures U32(s, 36) == DataTag
    ensures U32(s, 40) == DataSize(v.width, |v.channels|, v.channels[0].Length()) % 0x1_0000_0000
    ensures s[44..] == Payload(v.width, v.channels, v.channels[0].Length())
  {
    var len, cc := v.channels[0].Length(), |v.channels|;
    SerializeLayout(v);
    var h := s[..44];
    HeaderLayout(v.width, v.sampleRate, cc, len, h);
    ModSmall(cc, 0x1_0000);
    PrefixSlice(s, h, 0, 4);
    PrefixSlice(s, h, 8, 12);
    PrefixSlice(s, h, 22, 24);
    PrefixSlice(s, h, 24, 28);
    PrefixSlice(s, h, 34, 36);
    PrefixSlice(s, h, 36, 40);
    PrefixSlice(s, h, 40, 44);
  }

  /** The sample count both readers derive from the serialized data size is
      the written channel length. */
  lemma WrittenSampleCount(fmt: Format, len: nat)
    requires fmt.channelCount > 0
    ensures SampleCount(fmt, DataSize(fmt.source, fmt.channelCount, len)) == len
    ensures FrameBytes(fmt, len) == DataSize(fmt.source, fmt.channelCount, len)
  {
    var cc, b := fmt.channelCount, fmt.source.Bytes();
    assert FrameSize(fmt) == cc * b;
    assert len * cc * b == len * (cc * b);
    DivModUnique(len * (cc * b), cc * b, len, 0);
  }

  /** The format both readers take from a serialized sound: its channel
      count, rate and width. */
  function WrittenFormat(v: SoundValue): (r: Format)
    ensures r.channelCount == |v.channels| && r.sampleRate == v.sampleRate && r.source == v.width
  {
    Format(|v.channels|, v.sampleRate, v.width)
  }

  /** The stream reader's header checks accept a written sound and recover
      its format. */
  lemma StreamFormatWritten(v: SoundValue)
    requires |v.channels| > 0 && SameLengths(v.channels)
    requires |v.channels| < 0x1_0000
    ensures StreamFormat(Serialize(v)) == Ok(WrittenFormat(v))
  {
    SerializedFields(v, Serialize(v));
    SourceWidthOfBits(v.width);
  }

  /** The stream reader's data size, sample count and decoder turn the
      written payload back into the written channels, converted to `tgt`. */
  lemma StreamSamplesWritten(v: SoundValue, tgt: Width)
    requires Writable(v)
    requires DataSize(v.width, |v.channels|, v.channels[0].Length()) < 0x8000_0000
    requires |v.channels| < 0x1_0000
    ensures StreamSamples(Serialize(v)[44..], WrittenFormat(v), U32(Serialize(v), 40), tgt) == Ok(Reencoded(v, tgt))
  {
    var s, len, cc := Serialize(v), v.channels[0].Length(), |v.channels|;
    var ds := DataSize(v.width, cc, len);
    var fmt := WrittenFormat(v);
    SerializedFields(v, Serialize(v));
    ModSmall(ds, 0x1_0000_0000);
    WrittenSampleCount(fmt, len);
    var rest := s[44..];
    assert rest[..ds] == rest;
    assert rest[0..0 + len * cc * v.width.Bytes()] == Payload(v.width, v.channels, len);
    DecodedWritten(v.width, tgt, rest[..ds], 0, v.channels, len);
  }

  /** Reading a written sound back from a stream, at any width, gives the same
      rate and channel count and each sample as the decoder for (written
      width, requested width) converts it. The data chunk sits right after
      the header, so the scan finds it at once; the payload must stay below
      2^31 bytes (ReadBytes takes an int) and the channel count below 2^16
      (it is written as a ushort). */
  lemma StreamRoundTrip(v: SoundValue, tgt: Width)
    requires Writable(v)
    requires |v.channels| < 0x1_0000
    requires DataSize(v.width, |v.channels|, v.channels[0].Length()) < 0x8000_0000
    ensures ParseStream(Serialize(v), tgt) == Ok(Reencoded(v, tgt))
  {
    var s := Serialize(v);
    SerializedFields(v, Serialize(v));
    StreamFormatWritten(v);
    assert FindData(s, 36) == Ok(36);
    StreamSamplesWritten(v, tgt);
  }

  /** Reading a written sound from a stream at its own width gives it back. */
  lemma StreamRoundTripSameWidth(v: SoundValue)
    requires Writable(v)
    requires |v.channels| < 0x1_0000
    requires DataSize(v.width, |v.channels|, v.channels[0].Length()) < 0x8000_0000
    ensures ParseStream(Serialize(v), v.width) == Ok(v)
  {
    StreamRoundTrip(v, v.width);
    ReencodedSameWidth(v);
  }

  /** The byte-array reader's header checks accept a written sound, skip its
      RIFF prefix and recover its format, leaving the scan at offset 36. */
  lemma BufferFormatWritten(v: SoundValue)
    requires |v.channels| > 0 && SameLengths(v.channels)
    requires |v.channels| < 0x1_0000
    ensures BufferFormat(Serialize(v), 0) == Ok((WrittenFormat(v), 36))
  {
    var s := Serialize(v);
    SerializedFields(v, s);
    MagicBytes();
    assert SkipRiff(s, 0) == Ok(8);
    assert SkipWave(s, 8) == Ok(12);
    assert U16At(s, 22) == Ok(|v.channels|);
    assert U32At(s, 24) == Ok(v.sampleRate);
    assert U16At(s, 34) == Ok(v.width.Bits());
    SourceWidthOfBits(v.width);
  }

  /** The byte-array reader's data size, truncation check and decoder turn
      the written payload back into the written channels, converted to `tgt`. */
  lemma BufferSamplesWritten(v: SoundValue, tgt: Width)
    requires Writable(v)
    requires |v.channels| < 0x1_0000
    requires DataSize(v.width, |v.channels|, v.channels[0].Length()) < 0x1_0000_0000
    ensures BufferSamples(Serialize(v), WrittenFormat(v), 36, tgt) == Ok(Reencoded(v, tgt))
  {
    var s, len, cc := Serialize(v), v.channels[0].Length(), |v.channels|;
    var ds := DataSize(v.width, cc, len);
    SerializedFields(v, Serialize(v));
    ModSmall(ds, 0x1_0000_0000);
    WrittenSampleCount(WrittenFormat(v), len);
    assert s[44..44 + len * cc * v.width.Bytes()] == Payload(v.width, v.channels, len);
    DecodedWritten(v.width, tgt, s, 44, v.channels, len);
  }

  /** The byte-array reader, with its scan comparing uint32 values, reads a
      written sound back like the stream reader does. */
  lemma BufferRoundTrip(v: SoundValue, tgt: Width)
    requires Writable(v)
    requires |v.channels| < 0x1_0000
    requires DataSize(v.width, |v.channels|, v.channels[0].Length()) < 0x1_0000_0000
    ensures ParseBuffer(Serialize(v), 0, tgt) == Ok(Reencoded(v, tgt))
  {
    SerializedFields(v, Serialize(v));
    BufferFormatWritten(v);
    assert FindData(Serialize(v), 36) == Ok(36);
    BufferSamplesWritten(v, tgt);
  }

  /** The byte-array reader as written rejects every written sound, which
      the corrected reader reads back unchanged. */
  lemma BufferAsWrittenRejectsWritten(v: SoundValue)
    requires Writable(v)
    requires |v.channels| < 0x1_0000
    requires DataSize(v.width, |v.channels|, v.channels[0].Length()) < 0x1_0000_0000
    ensures ParseBufferAsWritten(Serialize(v), 0, v.width) == Err(OutOfRange)
    ensures ParseBuffer(Serialize(v), 0, v.width) == Ok(v)
  {
    BufferRoundTrip(v, v.width);
    ReencodedSameWidth(v);
  }

  /** The RIFF prefix is optional in the byte-array reader: starting at a
      "RIFF" header or at the WAVE tag eight bytes later reads the same. */
  lemma RiffPrefixOptional(buf: seq<byte>, off: nat, tgt: Width)
    requires |buf| + off >= 22 && off + 8 < |buf|
    requires buf[off..off + 4] == RiffBytes && buf[off + 8] != 'R' as int
    ensures ParseBuffer(buf, off, tgt) == ParseBuffer(buf, off + 8, tgt)
  {
    assert BufferFormat(buf, off) == BufferFormat(buf, off + 8) by {
      assert SkipRiff(buf, off) == Ok(off + 8);
      assert SkipRiff(buf, off + 8) == Ok(off + 8);
    }
  }

  /** Narrowing a 16-bit channel to 8 bits keeps each sample's high byte. */
  lemma HighBytesOf16(ch: Channel)
    requires ch == Channel([0x0000, 0x00FF, 0xFF00, 0xFFFF])
    ensures Fits(W16, ch)
    ensures ReencodeChannels(W16, W8, [ch]) == [Channel([0x00, 0x00, 0xFF, 0xFF])]
  {
    var e := ReencodeChannels(W16, W8, [ch]);
    Pow256Values();
    forall n | 0 <= n < 4 ensures e[0].samples[n] == [0x00, 0x00, 0xFF, 0xFF][n] {
      ReencodeValue(W16, W8, ch.samples[n]);
    }
    assert e[0].samples == [0x00, 0x00, 0xFF, 0xFF];
    assert e == [e[0]];
  }

  /** A mono 8000 Hz 16-bit sound [0x0000, 0x00FF, 0xFF00, 0xFFFF], written
      and read back at 8 bits, keeps the high bytes [0x00, 0x00, 0xFF, 0xFF]. */
  lemma SixteenBitsReadAsEight(v: SoundValue)
    requires v == SoundValue(W16, 8000, [Channel([0x0000, 0x00FF, 0xFF00, 0xFFFF])])
    ensures ParseStream(Serialize(v), W8) == Ok(SoundValue(W8, 8000, [Channel([0x00, 0x00, 0xFF, 0xFF])]))
  {
    HighBytesOf16(v.channels[0]);
    assert DataSize(W16, 1, 4) == 8;
    StreamRoundTrip(v, W8);
  }
}
