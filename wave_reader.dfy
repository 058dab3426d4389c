/** The two readers of Waveform: Read<T>(Stream) and Read<T>(byte[], int).
    Both check the RIFF and WAVE magics, skip the `fmt ` chunk id, size and
    format tag unchecked, read the channel count, sample rate and bits per
    sample, scan forward in blind 4-byte steps for the `data` tag, derive the
    sample count and hand the interleaved bytes to the decoder for
    (source width, requested width). The stream is the sequence of bytes it
    would deliver. */
module WaveReader {
  import opened Errors
  import opened LittleEndian
  import opened Samples
  import opened Pcm
  import opened Waveform

  /** What the readers keep of the `fmt ` chunk. */
  datatype Format = Format(channelCount: nat, sampleRate: uint32, source: Width)

  /** The little-endian uint32 at `i` (BinaryReader.ReadUInt32). */
  function U32(s: seq<byte>, i: nat): (r: uint32)
    requires i + 4 <= |s|
  {
    Pow256Values();
    FromLE(s[i..i + 4])
  }

  /** The little-endian uint16 at `i` (BinaryReader.ReadUInt16). */
  function U16(s: seq<byte>, i: nat): (r: nat)
    requires i + 2 <= |s|
    ensures r < 0x1_0000
  {
    Pow256Values();
    FromLE(s[i..i + 2])
  }

  /** sampleCount: the whole frames the declared data size holds. */
  function SampleCount(fmt: Format, dataSize: nat): nat
    requires fmt.channelCount > 0
  {
    DivNat(dataSize, FrameSize(fmt));
    dataSize / FrameSize(fmt)
  }

  /** Bytes per frame, one sample of each channel: channelCount * bytes. */
  function FrameSize(fmt: Format): (r: nat)
    ensures fmt.channelCount > 0 ==> r > 0
  {
    match fmt.source
    case W8 => fmt.channelCount
    case W16 => 2 * fmt.channelCount
    case W32 => 4 * fmt.channelCount
  }

  /** The bytes `count` frames take: sampleCount * BytePerSample * channelCount. */
  function FrameBytes(fmt: Format, count: nat): nat {
    count * fmt.channelCount * fmt.source.Bytes()
  }

  /** The bits-per-sample check: a multiple of 8 whose byte count is 1, 2 or 4. */
  function SourceWidth(bits: nat): (r: Result<Width>)
    ensures r.Ok? <==> bits == 8 || bits == 16 || bits == 32
    ensures r.Ok? ==> r.value.Bits() == bits
    ensures r.Err? ==> r.error == InvalidBitsPerSample
  {
    var bytes := bits / 8;
    if bytes * 8 != bits then Err(InvalidBitsPerSample)
    else if bytes == 1 then Ok(W8)
    else if bytes == 2 then Ok(W16)
    else if bytes == 4 then Ok(W32)
    else Err(InvalidBitsPerSample)
  }

  /** The bits per sample a writer records name its width back. */
  lemma SourceWidthOfBits(w: Width)
    ensures SourceWidth(w.Bits()) == Ok(w)
  {
    match w
    case W8 => assert SourceWidth(8) == Ok(W8);
    case W16 => assert SourceWidth(16) == Ok(W16);
    case W32 => assert SourceWidth(32) == Ok(W32);
  }

  /** The scan for the `data` tag: uint32 values compared at pos, pos + 4, …
      until one equals the tag. It does not skip chunks by their declared
      size; it fails when no whole uint32 is left to read. */
  function FindData(s: seq<byte>, pos: nat): (r: Result<nat>)
    decreases |s| - pos
    ensures r.Ok? ==> pos <= r.value && r.value + 4 <= |s| && (r.value - pos) % 4 == 0
    ensures r.Ok? ==> U32(s, r.value) == DataTag
    ensures r.Ok? ==> forall q :: pos <= q < r.value && (q - pos) % 4 == 0 ==> U32(s, q) != DataTag
    ensures r.Err? ==> r.error == MissingDataChunk
    ensures r.Err? ==> forall q :: pos <= q && q + 4 <= |s| && (q - pos) % 4 == 0 ==> U32(s, q) != DataTag
  {
    if pos + 4 > |s| then Err(MissingDataChunk)
    else if U32(s, pos) == DataTag then Ok(pos)
    else FindData(s, pos + 4)
  }

  /** The scan loop of both readers: read a uint32, and while it is not the
      `data` tag step four bytes on and read the next one. */
  method ScanForData(s: seq<byte>, start: nat) returns (r: Result<nat>)
    ensures r == FindData(s, start)
  {
    if start + 4 > |s| {
      return Err(MissingDataChunk);
    }
    var pos := start;
    var data := U32(s, pos);
    while data != DataTag
      invariant start <= pos && pos + 4 <= |s| && data == U32(s, pos)
      invariant FindData(s, pos) == FindData(s, start)
      decreases |s| - pos
    {
      if pos + 8 > |s| {
        return Err(MissingDataChunk);
      }
      pos := pos + 4;
      data := U32(s, pos);
    }
    return Ok(pos);
  }

  // ---------------------------------------------------------------------------
  // Read<T>(Stream)

  /** Read<T>(Stream) up to the bits-per-sample check: "RIFF", the RIFF size,
      "WAVE", ten skipped bytes ("fmt ", its size, the format tag), then the
      channel count, sample rate, byte rate, block align and bits per sample.
      A read past the end of the stream throws. */
  function StreamFormat(s: seq<byte>): (r: Result<Format>)
    ensures |s| >= 4 && U32(s, 0) != RiffTag ==> r == Err(BadMagic)
    ensures |s| >= 12 && U32(s, 0) == RiffTag && U32(s, 8) != WaveTag ==> r == Err(BadMagic)
    ensures (|s| >= 36 && U32(s, 0) == RiffTag && U32(s, 8) == WaveTag
      && U16(s, 34) != 8 && U16(s, 34) != 16 && U16(s, 34) != 32) ==> r == Err(InvalidBitsPerSample)
    ensures r.Ok? <==> (|s| >= 36 && U32(s, 0) == RiffTag && U32(s, 8) == WaveTag
      && (U16(s, 34) == 8 || U16(s, 34) == 16 || U16(s, 34) == 32))
    ensures r.Ok? ==> (r.value.channelCount == U16(s, 22) && r.value.sampleRate == U32(s, 24)
      && r.value.source.Bits() == U16(s, 34))
    ensures |s| < 4 ==> r == Err(EndOfStream)
    ensures 4 <= |s| < 12 && U32(s, 0) == RiffTag ==> r == Err(EndOfStream)
    ensures 12 <= |s| < 36 && U32(s, 0) == RiffTag && U32(s, 8) == WaveTag ==> r == Err(EndOfStream)
  {
    if |s| < 4 then Err(EndOfStream)
    else if U32(s, 0) != RiffTag then Err(BadMagic)
    else if |s| < 12 then Err(EndOfStream)
    else if U32(s, 8) != WaveTag then Err(BadMagic)
    else if |s| < 36 then Err(EndOfStream)
    else
      var w :- SourceWidth(U16(s, 34));
      Ok(Format(U16(s, 22), U32(s, 24), w))
  }

  /** The end of Read<T>(Stream), given the bytes after the data size:
      sampleCount = dataSize / (channelCount * bytes), ReadBytes of that many
      whole frames (a count of 2^31 or more turns negative when cast to int
      and is refused), then the decoder at the requested width, which indexes
      past the end of a short read. */
  function StreamSamples(rest: seq<byte>, fmt: Format, dataSize: nat, tgt: Width): (r: Result<SoundValue>)
    ensures fmt.channelCount == 0 ==> r == Err(DivideByZero)
    ensures fmt.channelCount > 0 ==>
      (r.Ok? <==> (FrameBytes(fmt, SampleCount(fmt, dataSize)) <= |rest|
        && FrameBytes(fmt, SampleCount(fmt, dataSize)) < 0x8000_0000))
    ensures r.Err? ==> r.error == DivideByZero || r.error == OutOfRange
    ensures r.Ok? ==> (r.value.width == tgt && r.value.sampleRate == fmt.sampleRate
      && |r.value.channels| == fmt.channelCount
      && Rectangular(r.value.channels, SampleCount(fmt, dataSize))
      && forall c :: 0 <= c < fmt.channelCount ==> Fits(tgt, r.value.channels[c]))
    ensures r.Ok? ==> (fmt.channelCount > 0 && FrameBytes(fmt, SampleCount(fmt, dataSize)) <= |rest|
      && r.value.channels == Decoded(fmt.source, tgt, rest[..FrameBytes(fmt, SampleCount(fmt, dataSize))],
        fmt.channelCount, SampleCount(fmt, dataSize), 0))
  {
    if fmt.channelCount == 0 then Err(DivideByZero)
    else
      var count := SampleCount(fmt, dataSize);
      var want := FrameBytes(fmt, count);
      if want >= 0x8000_0000 then Err(OutOfRange)
      else if want > |rest| then Err(OutOfRange)
      else Ok(SoundValue(tgt, fmt.sampleRate, Decoded(fmt.source, tgt, rest[..want], fmt.channelCount, count, 0)))
  }

  /** Read<T>(Stream) at the requested width `tgt`. The first uint32 after the
      format fields is read outside the scan's try block, so a stream ending
      there reports the end of the stream rather than a missing data chunk. */
  function ParseStream(s: seq<byte>, tgt: Width): (r: Result<SoundValue>)
    ensures |s| >= 4 && U32(s, 0) != RiffTag ==> r == Err(BadMagic)
    ensures |s| >= 12 && U32(s, 0) == RiffTag && U32(s, 8) != WaveTag ==> r == Err(BadMagic)
    ensures (|s| >= 36 && U32(s, 0) == RiffTag && U32(s, 8) == WaveTag
      && U16(s, 34) != 8 && U16(s, 34) != 16 && U16(s, 34) != 32) ==> r == Err(InvalidBitsPerSample)
    ensures StreamFormat(s).Err? ==> r == Err(StreamFormat(s).error)
    ensures StreamFormat(s).Ok? && |s| < 40 ==> r == Err(EndOfStream)
    ensures StreamFormat(s).Ok? && |s| >= 40 && FindData(s, 36).Err? ==> r == Err(MissingDataChunk)
    ensures StreamFormat(s).Ok? && |s| >= 40 && FindData(s, 36).Ok? && FindData(s, 36).value + 8 > |s| ==>
      r == Err(EndOfStream)
    ensures StreamFormat(s).Ok? && |s| >= 40 && FindData(s, 36).Ok? && FindData(s, 36).value + 8 <= |s| ==>
      var fmt, p := StreamFormat(s).value, FindData(s, 36).value;
      (fmt.channelCount == 0 ==> r == Err(DivideByZero))
      && (fmt.channelCount > 0 ==>
        (r.Ok? <==> (FrameBytes(fmt, SampleCount(fmt, U32(s, p + 4))) <= |s| - (p + 8)
          && FrameBytes(fmt, SampleCount(fmt, U32(s, p + 4))) < 0x8000_0000))
        && (r.Err? ==> r.error == OutOfRange))
    ensures r.Ok? ==> |s| >= 40 && FindData(s, 36).Ok?
    ensures r.Ok? ==> (r.value.width == tgt && r.value.sampleRate == U32(s, 24)
      && |r.value.channels| == U16(s, 22) > 0 && SameLengths(r.value.channels)
      && forall c :: 0 <= c < |r.value.channels| ==> Fits(tgt, r.value.channels[c]))
    ensures r.Ok? ==> (StreamFormat(s).Ok? && FindData(s, 36).Ok? && FindData(s, 36).value + 8 <= |s|
      && var fmt, p := StreamFormat(s).value, FindData(s, 36).value;
      var count := SampleCount(fmt, U32(s, p + 4));
      FrameBytes(fmt, count) <= |s| - (p + 8)
      && r.value.channels == Decoded(fmt.source, tgt, s[p + 8..][..FrameBytes(fmt, count)], fmt.channelCount, count, 0)
      && Rectangular(r.value.channels, count))
  {
    var fmt :- StreamFormat(s);
    if |s| < 40 then Err(EndOfStream)
    else
      var p :- FindData(s, 36);
      if p + 8 > |s| then Err(EndOfStream)
      else StreamSamples(s[p + 8..], fmt, U32(s, p + 4), tgt)
  }

  /** Read<T>(Stream): the header reads, the scan loop, then the decoder. */
  method ReadStream(s: seq<byte>, tgt: Width) returns (r: Result<Sound>)
    ensures r.Err? <==> ParseStream(s, tgt).Err?
    ensures r.Err? ==> r.error == ParseStream(s, tgt).error
    ensures r.Ok? ==> fresh(r.value) && r.value.Valid() && r.value.Value() == ParseStream(s, tgt).value
  {
    var header := StreamFormat(s);
    if header.Err? {
      return Err(header.error);
    }
    var fmt := header.value;
    if |s| < 40 {
      return Err(EndOfStream);
    }
    var scan := ScanForData(s, 36);
    if scan.Err? {
      return Err(scan.error);
    }
    var pos := scan.value;
    if pos + 8 > |s| {
      return Err(EndOfStream);
    }
    var dataSize := U32(s, pos + 4);
    if fmt.channelCount == 0 {
      return Err(DivideByZero);
    }
    var count := SampleCount(fmt, dataSize);
    var want := FrameBytes(fmt, count);
    if want >= 0x8000_0000 {
      return Err(OutOfRange);
    }
    var rest := s[pos + 8..];
    var soundData := if want <= |rest| then rest[..want] else rest;
    if |soundData| < want {
      return Err(OutOfRange);
    }
    var sound := ReadPcm(fmt.source, tgt, soundData, fmt.channelCount, count, fmt.sampleRate, 0);
    return Ok(sound);
  }

  // ---------------------------------------------------------------------------
  // Read<T>(byte[], int)

  /** Bytes i … 3 of a four-character tag at `off`, compared as the C# `||`
      chain does: an index past the end throws, the first mismatch is a bad
      magic. */
  function TagRest(buf: seq<byte>, off: nat, tag: seq<byte>, i: nat): (r: Result<nat>)
    requires |tag| == 4 && 1 <= i <= 4 && off + i <= |buf|
    decreases 4 - i
    ensures r.Ok? <==> off + 4 <= |buf| && buf[off + i..off + 4] == tag[i..]
    ensures r.Ok? ==> r.value == off + 4
    ensures r.Err? ==> r.error == BadMagic || r.error == OutOfRange
    ensures off + 4 <= |buf| && buf[off + i..off + 4] != tag[i..] ==> r == Err(BadMagic)
    ensures off + 4 > |buf| && buf[off + i..] == tag[i..|buf| - off] ==> r == Err(OutOfRange)
  {
    if i == 4 then Ok(off + 4)
    else
      var c :- ByteAt(buf, off + i);
      if c != tag[i] then Err(BadMagic) else TagRest(buf, off, tag, i + 1)
  }

  /** The magics as the byte-array reader compares them, byte by byte: "RIFF" and "WAVE" in ASCII. */
  const RiffBytes: seq<byte> := [0x52, 0x49, 0x46, 0x46]
  const WaveBytes: seq<byte> := [0x57, 0x41, 0x56, 0x45]

  /** They are the bytes the writer emits for those tags. */
  lemma MagicBytes()
    ensures Ascii("RIFF") == RiffBytes && Ascii("WAVE") == WaveBytes
  {
  }

  /** The optional RIFF prefix: when the byte at `off` is not 'R' the reader
      goes straight on to the WAVE check; otherwise it must be "RIFF" followed
      by a uint32 size. */
  function SkipRiff(buf: seq<byte>, off: int): (r: Result<nat>)
    ensures 0 <= off < |buf| && buf[off] != 'R' as int ==> r == Ok(off)
    ensures r.Ok? ==> 0 <= off && (r.value == off || (r.value == off + 8 && r.value <= |buf| && buf[off..off + 4] == RiffBytes))
    ensures 0 <= off && off + 8 <= |buf| && buf[off..off + 4] == RiffBytes ==> r == Ok(off + 8)
    ensures 0 <= off && off + 4 <= |buf| && buf[off] == 'R' as int && buf[off..off + 4] != RiffBytes ==> r == Err(BadMagic)
  {
    var b0 :- ByteAt(buf, off);
    if b0 != 'R' as int then Ok(off)
    else
      var o :- TagRest(buf, off, RiffBytes, 1);
      var size :- U32At(buf, o);
      Ok(o + 4)
  }

  /** The mandatory WAVE magic. */
  function SkipWave(buf: seq<byte>, off: nat): (r: Result<nat>)
    ensures r.Ok? <==> off + 4 <= |buf| && buf[off..off + 4] == WaveBytes
    ensures r.Ok? ==> r.value == off + 4
    ensures off < |buf| && buf[off] != 'W' as int ==> r == Err(BadMagic)
    ensures off + 4 <= |buf| && buf[off..off + 4] != WaveBytes ==> r == Err(BadMagic)
  {
    var b0 :- ByteAt(buf, off);
    if b0 != 'W' as int then
      assert off + 4 <= |buf| ==> buf[off..off + 4][0] != WaveBytes[0];
      Err(BadMagic)
    else TagRest(buf, off, WaveBytes, 1)
  }

  /** The magics of Read<T>(byte[], int): the optional "RIFF" and its size,
      then the mandatory "WAVE". Returns the offset after the WAVE tag. */
  function SkipMagics(buf: seq<byte>, off: int): (r: Result<nat>)
    ensures r.Ok? ==> 0 <= off && 4 <= r.value <= |buf| && buf[r.value - 4..r.value] == WaveBytes
    ensures 0 <= off < |buf| && buf[off] != 'R' as int && buf[off] != 'W' as int ==> r == Err(BadMagic)
    ensures 0 <= off && off + 4 <= |buf| && buf[off] == 'R' as int && buf[off..off + 4] != RiffBytes ==> r == Err(BadMagic)
    ensures (0 <= off && off + 12 <= |buf| && buf[off..off + 4] == RiffBytes
      && buf[off + 8..off + 12] != WaveBytes) ==> r == Err(BadMagic)
    ensures 0 <= off && off + 4 <= |buf| && buf[off..off + 4] == WaveBytes ==> r == Ok(off + 4)
    ensures (0 <= off && off + 12 <= |buf| && buf[off..off + 4] == RiffBytes
      && buf[off + 8..off + 12] == WaveBytes) ==> r == Ok(off + 12)
  {
    var o :- SkipRiff(buf, off);
    assert 0 <= off && off + 4 <= |buf| && buf[off..off + 4] == WaveBytes ==> buf[off] == buf[off..off + 4][0];
    SkipWave(buf, o)
  }

  /** The bits per sample at `o + 22` are present and not 8, 16 or 32. */
  predicate BadBitsAt(buf: seq<byte>, o: nat) {
    o + 24 <= |buf| && U16(buf, o + 22) != 8 && U16(buf, o + 22) != 16 && U16(buf, o + 22) != 32
  }

  /** The format fields after the WAVE tag at `o - 4`: ten skipped bytes, the
      channel count, sample rate, byte rate, block align and bits per sample.
      Returns the format and the offset just after the bits per sample. */
  function FormatFields(buf: seq<byte>, o: nat): (r: Result<(Format, nat)>)
    ensures BadBitsAt(buf, o) ==> r == Err(InvalidBitsPerSample)
    ensures o + 24 > |buf| ==> r == Err(OutOfRange)
    ensures o + 24 <= |buf| && !BadBitsAt(buf, o) ==> r.Ok?
    ensures r.Ok? ==> (r.value.1 == o + 24 <= |buf|
      && r.value.0.channelCount == U16(buf, o + 10) && r.value.0.sampleRate == U32(buf, o + 12)
      && r.value.0.source.Bits() == U16(buf, o + 22))
  {
    var cc :- U16At(buf, o + 10);
    var rate :- U32At(buf, o + 12);
    var byteRate :- U32At(buf, o + 16);
    var blockAlign :- U16At(buf, o + 20);
    var bits :- U16At(buf, o + 22);
    var w :- SourceWidth(bits);
    Ok((Format(cc, rate, w), o + 24))
  }

  /** Read<T>(byte[], int) up to the bits-per-sample check: the length guard,
      the magics, ten skipped bytes and the format fields. Returns the format
      and the offset just after the bits per sample. */
  function BufferFormat(buf: seq<byte>, off: int): (r: Result<(Format, nat)>)
    ensures |buf| + off < 22 ==> r == Err(TooShort)
    ensures r.Ok? ==> 0 <= off && r.value.1 <= |buf|
    ensures r.Ok? ==> var o := r.value.1;
      o >= 28 && buf[o - 28..o - 24] == WaveBytes
      && r.value.0.channelCount == U16(buf, o - 14) && r.value.0.sampleRate == U32(buf, o - 12)
      && r.value.0.source.Bits() == U16(buf, o - 2)
    ensures |buf| + off >= 22 && SkipMagics(buf, off).Err? ==> r == Err(SkipMagics(buf, off).error)
    ensures 0 <= off < |buf| && |buf| + off >= 22 && buf[off] != 'R' as int && buf[off] != 'W' as int ==> r == Err(BadMagic)
    ensures |buf| + off >= 22 && SkipMagics(buf, off).Ok? && BadBitsAt(buf, SkipMagics(buf, off).value) ==>
      r == Err(InvalidBitsPerSample)
    ensures |buf| + off >= 22 && SkipMagics(buf, off).Ok? ==> var o := SkipMagics(buf, off).value;
      (o + 24 > |buf| ==> r == Err(OutOfRange)) && (o + 24 <= |buf| && !BadBitsAt(buf, o) ==> r.Ok?)
  {
    if |buf| + off < 22 then Err(TooShort)
    else
      var o :- SkipMagics(buf, off);
      FormatFields(buf, o)
  }

  /** A decoded sound carries the header's sample rate and channel count, as
      many samples per channel as the data size at `p` gives, and the samples
      the decoder reads from the whole frames after the data size. */
  predicate ReadShape(v: SoundValue, fmt: Format, buf: seq<byte>, p: nat) {
    p + 8 <= |buf| && fmt.channelCount > 0 && v.sampleRate == fmt.sampleRate
    && |v.channels| == fmt.channelCount && Rectangular(v.channels, SampleCount(fmt, U32(buf, p + 4)))
    && p + 8 + FrameBytes(fmt, SampleCount(fmt, U32(buf, p + 4))) <= |buf|
    && v.channels == Decoded(fmt.source, v.width, buf, fmt.channelCount, SampleCount(fmt, U32(buf, p + 4)), p + 8)
  }

  /** The declared data, counted in whole frames, runs past the end of the buffer. */
  predicate Truncates(buf: seq<byte>, fmt: Format, p: nat) {
    p + 8 <= |buf| && fmt.channelCount > 0 && p + 8 + FrameBytes(fmt, SampleCount(fmt, U32(buf, p + 4))) > |buf|
  }

  /** The end of Read<T>(byte[], int), from the position `p` of the `data`
      tag: the data size, sampleCount = dataSize / (channelCount * bytes), the
      truncation check, then the decoder reading the buffer in place. */
  function BufferSamples(buf: seq<byte>, fmt: Format, p: nat, tgt: Width): (r: Result<SoundValue>)
    ensures p + 8 > |buf| ==> r == Err(OutOfRange)
    ensures p + 8 <= |buf| && fmt.channelCount == 0 ==> r == Err(DivideByZero)
    ensures p + 8 <= |buf| && fmt.channelCount > 0 ==>
      ((r.Ok? <==> p + 8 + FrameBytes(fmt, SampleCount(fmt, U32(buf, p + 4))) <= |buf|)
      && (r.Err? ==> r.error == Truncated))
    ensures r.Ok? ==> (p + 8 <= |buf| && fmt.channelCount > 0
      && r.value.width == tgt && r.value.sampleRate == fmt.sampleRate
      && |r.value.channels| == fmt.channelCount
      && Rectangular(r.value.channels, SampleCount(fmt, U32(buf, p + 4)))
      && forall c :: 0 <= c < fmt.channelCount ==> Fits(tgt, r.value.channels[c]))
    ensures r.Ok? ==> (p + 8 + FrameBytes(fmt, SampleCount(fmt, U32(buf, p + 4))) <= |buf|
      && r.value.channels == Decoded(fmt.source, tgt, buf, fmt.channelCount, SampleCount(fmt, U32(buf, p + 4)), p + 8))
  {
    var dataSize :- U32At(buf, p + 4);
    if fmt.channelCount == 0 then Err(DivideByZero)
    else
      var count := SampleCount(fmt, dataSize);
      if FrameBytes(fmt, count) + (p + 8) > |buf| then Err(Truncated)
      else Ok(SoundValue(tgt, fmt.sampleRate, Decoded(fmt.source, tgt, buf, fmt.channelCount, count, p + 8)))
  }

  /** Read<T>(byte[], int) with the scan comparing uint32 values, as the
      stream reader does: what the byte-array reader evidently intends. */
  function ParseBuffer(buf: seq<byte>, off: int, tgt: Width): (r: Result<SoundValue>)
    ensures |buf| + off < 22 ==> r == Err(TooShort)
    ensures BufferFormat(buf, off).Err? ==> r == Err(BufferFormat(buf, off).error)
    ensures 0 <= off < |buf| && |buf| + off >= 22 && buf[off] != 'R' as int && buf[off] != 'W' as int ==> r == Err(BadMagic)
    ensures BufferFormat(buf, off).Ok? && FindData(buf, BufferFormat(buf, off).value.1).Err? ==> r == Err(MissingDataChunk)
    ensures BufferFormat(buf, off).Ok? && FindData(buf, BufferFormat(buf, off).value.1).Ok?
      && Truncates(buf, BufferFormat(buf, off).value.0, FindData(buf, BufferFormat(buf, off).value.1).value)
      ==> r == Err(Truncated)
    ensures |buf| + off >= 22 && SkipMagics(buf, off).Ok? && BadBitsAt(buf, SkipMagics(buf, off).value) ==>
      r == Err(InvalidBitsPerSample)
    ensures r.Ok? ==> BufferFormat(buf, off).Ok? && FindData(buf, BufferFormat(buf, off).value.1).Ok?
    ensures r.Ok? ==> (r.value.width == tgt && |r.value.channels| > 0 && SameLengths(r.value.channels)
      && forall c :: 0 <= c < |r.value.channels| ==> Fits(tgt, r.value.channels[c]))
    ensures r.Ok? ==> (BufferFormat(buf, off).Ok? && FindData(buf, BufferFormat(buf, off).value.1).Ok?
      && ReadShape(r.value, BufferFormat(buf, off).value.0, buf, FindData(buf, BufferFormat(buf, off).value.1).value))
  {
    var header :- BufferFormat(buf, off);
    BufferData(buf, header.0, header.1, tgt)
  }

  /** The rest of Read<T>(byte[], int) once the format is read: the scan for
      the `data` tag from `start`, then the data size, the truncation check
      and the decoder. */
  function BufferData(buf: seq<byte>, fmt: Format, start: nat, tgt: Width): (r: Result<SoundValue>)
    ensures FindData(buf, start).Err? ==> r == Err(MissingDataChunk)
    ensures FindData(buf, start).Ok? ==> var p := FindData(buf, start).value;
      (p + 8 > |buf| ==> r == Err(OutOfRange))
      && (p + 8 <= |buf| && fmt.channelCount == 0 ==> r == Err(DivideByZero))
      && (p + 8 <= |buf| && fmt.channelCount > 0 ==>
        (r.Ok? <==> p + 8 + FrameBytes(fmt, SampleCount(fmt, U32(buf, p + 4))) <= |buf|)
        && (r.Err? ==> r.error == Truncated))
    ensures FindData(buf, start).Ok? && Truncates(buf, fmt, FindData(buf, start).value) ==> r == Err(Truncated)
    ensures r.Ok? ==> (FindData(buf, start).Ok? && r.value.width == tgt && |r.value.channels| == fmt.channelCount > 0
      && SameLengths(r.value.channels)
      && forall c :: 0 <= c < |r.value.channels| ==> Fits(tgt, r.value.channels[c]))
    ensures r.Ok? ==> FindData(buf, start).Ok? && ReadShape(r.value, fmt, buf, FindData(buf, start).value)
  {
    var p :- FindData(buf, start);
    BufferSamples(buf, fmt, p, tgt)
  }

  /** Read<T>(byte[], int): the header reads, the scan loop, then the data
      size, the truncation check and the decoder. */
  method ReadBuffer(buf: seq<byte>, off: int, tgt: Width) returns (r: Result<Sound>)
    ensures r.Err? <==> ParseBuffer(buf, off, tgt).Err?
    ensures r.Err? ==> r.error == ParseBuffer(buf, off, tgt).error
    ensures r.Ok? ==> fresh(r.value) && r.value.Valid() && r.value.Value() == ParseBuffer(buf, off, tgt).value
  {
    var header := BufferFormat(buf, off);
    if header.Err? {
      return Err(header.error);
    }
    var scan := ScanForData(buf, header.value.1);
    if scan.Err? {
      return Err(scan.error);
    }
    r := ReadBufferSamples(buf, header.value.0, scan.value, tgt);
  }

  /** The end of Read<T>(byte[], int), from the position of the `data` tag. */
  method ReadBufferSamples(buf: seq<byte>, fmt: Format, pos: nat, tgt: Width) returns (r: Result<Sound>)
    ensures r.Err? <==> BufferSamples(buf, fmt, pos, tgt).Err?
    ensures r.Err? ==> r.error == BufferSamples(buf, fmt, pos, tgt).error
    ensures r.Ok? ==> fresh(r.value) && r.value.Valid() && r.value.Value() == BufferSamples(buf, fmt, pos, tgt).value
  {
    if pos + 8 > |buf| {
      return Err(OutOfRange);
    }
    var dataSize := U32(buf, pos + 4);
    if fmt.channelCount == 0 {
      return Err(DivideByZero);
    }
    var count := SampleCount(fmt, dataSize);
    if FrameBytes(fmt, count) + (pos + 8) > |buf| {
      return Err(Truncated);
    }
    assert (pos + 8) + count * fmt.channelCount * fmt.source.Bytes() <= |buf|;
    var sound := ReadPcm(fmt.source, tgt, buf, fmt.channelCount, count, fmt.sampleRate, pos + 8);
    return Ok(sound);
  }

  // ---------------------------------------------------------------------------
  // The byte-array scan as written

  /** The byte-array scan as written: it reads a uint16 at each step and
      compares it with the 32-bit `data` tag, while the offset is inside the
      buffer. */
  function ScanAsWritten(buf: seq<byte>, pos: nat): (r: Result<nat>)
    ensures r == Err(OutOfRange)
  {
    var data :- U16At(buf, pos);
    ScanLoopAsWritten(buf, pos, data)
  }

  /** The loop of the scan as written. It stops at `pos` only when the value
      in hand already is the tag; a uint16 read from the buffer never is, so
      from there on it steps until the read runs off the end of the buffer
      and BitConverter throws. */
  function ScanLoopAsWritten(buf: seq<byte>, pos: nat, data: nat): (r: Result<nat>)
    ensures r.Ok? <==> data == DataTag && pos < |buf|
    ensures r.Ok? ==> r.value == pos
    ensures data != DataTag && pos < |buf| ==> r == Err(OutOfRange)
    ensures pos >= |buf| ==> r == Err(MissingDataChunk)
    decreases |buf| - pos
  {
    if data != DataTag && pos < |buf| then
      var next :- U16At(buf, pos + 4);
      ScanLoopAsWritten(buf, pos + 4, next)
    else if pos >= |buf| then Err(MissingDataChunk)
    else Ok(pos)
  }

  /** Read<T>(byte[], int) as written: it never returns a sound, and every
      input with a well-formed header ends in an out-of-range read. */
  function ParseBufferAsWritten(buf: seq<byte>, off: int, tgt: Width): (r: Result<SoundValue>)
    ensures r.Err?
    ensures BufferFormat(buf, off).Err? ==> r == Err(BufferFormat(buf, off).error)
    ensures BufferFormat(buf, off).Ok? ==> r == Err(OutOfRange)
  {
    var header :- BufferFormat(buf, off);
    match ScanAsWritten(buf, header.1)
    case Err(e) => Err(e)
    case Ok(p) => BufferSamples(buf, header.0, p, tgt)
  }
}
