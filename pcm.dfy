/** The PCM layer (WaveformPcm): nine deinterleaving decoders, one per
    (source width, target width) pair, and three interleaving encoders. */
module Pcm {
  import opened LittleEndian
  import opened Samples

  /** The value the decoder for (src, tgt) stores for one source sample whose
      little-endian bytes are `b`. */
  function Convert(src: Width, tgt: Width, b: seq<byte>): (r: nat)
    requires |b| == src.Bytes()
    ensures r < tgt.Limit()
  {
    Pow256Values();
    match (src, tgt)
    case (W8, W8) => b[0]
    case (W16, W8) => b[1]
    case (W32, W8) => b[3]
    case (W8, W16) => b[0] as int * 0x100
    case (W16, W16) => b[0] as int + b[1] as int * 0x100
    case (W32, W16) => b[2] as int + b[3] as int * 0x100
    case (W8, W32) => b[0]
    case (W16, W32) => b[0] as int + b[1] as int * 0x100
    case (W32, W32) => b[0] as int + b[1] as int * 0x100 + b[2] as int * 0x10000 + b[3] as int * 0x100_0000
  }

  /** Narrowing to 8 bits keeps the most significant byte of the source sample:
      it is the little-endian value divided by 256^(bytes-1). */
  lemma NarrowTo8TakesHighByte(src: Width, b: seq<byte>)
    requires |b| == src.Bytes()
    ensures Convert(src, W8, b) == b[|b| - 1]
    ensures Convert(src, W8, b) == FromLE(b) / Pow256(src.Bytes() - 1)
  {
    Pow256Values();
    match src
    case W8 =>
    case W16 =>
      FromLE2(b);
      DivModUnique(FromLE(b), 0x100, b[1], b[0]);
    case W32 =>
      FromLE4(b);
      DivModUnique(FromLE(b), 0x100_0000, b[3], b[0] as int + b[1] as int * 0x100 + b[2] as int * 0x10000);
  }

  /** Decoding into 16 bits: 8-bit samples are scaled by 256, 16-bit samples kept,
      32-bit samples keep their upper 16 bits. */
  lemma To16Rule(src: Width, b: seq<byte>)
    requires |b| == src.Bytes()
    ensures src == W8 ==> Convert(src, W16, b) == FromLE(b) * 0x100
    ensures src == W16 ==> Convert(src, W16, b) == FromLE(b)
    ensures src == W32 ==> Convert(src, W16, b) == FromLE(b) / 0x1_0000
  {
    match src
    case W8 =>
    case W16 => FromLE2(b);
    case W32 =>
      FromLE4(b);
      DivModUnique(FromLE(b), 0x1_0000, b[2] as int + b[3] as int * 0x100, b[0] as int + b[1] as int * 0x100);
  }

  /** Decoding into 32 bits never scales: the stored value is the source sample
      itself, so 8-bit samples stay below 256 and 16-bit ones below 2^16. */
  lemma To32KeepsValue(src: Width, b: seq<byte>)
    requires |b| == src.Bytes()
    ensures Convert(src, W32, b) == FromLE(b)
    ensures Convert(src, W32, b) < src.Limit()
  {
    Pow256Values();
    match src
    case W8 =>
    case W16 => FromLE2(b);
    case W32 => FromLE4(b);
  }

  /** Decoding at the width the sample was stored in gives its value. */
  lemma SameWidthIsValue(w: Width, b: seq<byte>)
    requires |b| == w.Bytes()
    ensures Convert(w, w, b) == FromLE(b)
  {
    match w
    case W8 => NarrowTo8TakesHighByte(w, b);
    case W16 => To16Rule(w, b);
    case W32 => To32KeepsValue(w, b);
  }

  /** What a reader at width `tgt` makes of sample `x` written at width `src`. */
  function Reencode(src: Width, tgt: Width, x: nat): nat {
    Convert(src, tgt, ToLE(x, src.Bytes()))
  }

  /** Reencode in closed form, for every (src, tgt) pair. */
  lemma ReencodeValue(src: Width, tgt: Width, x: nat)
    requires x < src.Limit()
    ensures tgt == W8 ==> Reencode(src, tgt, x) == x / Pow256(src.Bytes() - 1)
    ensures tgt == W16 && src == W8 ==> Reencode(src, tgt, x) == x * 0x100
    ensures tgt == W16 && src == W16 ==> Reencode(src, tgt, x) == x
    ensures tgt == W16 && src == W32 ==> Reencode(src, tgt, x) == x / 0x1_0000
    ensures tgt == W32 ==> Reencode(src, tgt, x) == x
    ensures src == tgt ==> Reencode(src, tgt, x) == x
  {
    var b := ToLE(x, src.Bytes());
    LEIdentity(x, src.Bytes());
    NarrowTo8TakesHighByte(src, b);
    To16Rule(src, b);
    To32KeepsValue(src, b);
    SameWidthIsValue(src, b);
  }

  /** Widening a byte to 16 bits and narrowing it back recovers the byte. */
  lemma WidenThenNarrow(x: byte)
    ensures Reencode(W16, W8, Reencode(W8, W16, x)) == x
  {
    Pow256Values();
    ReencodeValue(W8, W16, x);
    ReencodeValue(W16, W8, x * 0x100);
  }

  // ---------------------------------------------------------------------------
  // Deinterleaving (Read8BitsPCM … Read32BitsPCM)

  /** Byte offset of channel `c`'s sample `n` in interleaved data starting at `offset`. */
  function SamplePos(offset: nat, cc: nat, b: nat, n: nat, c: nat): nat {
    offset + (n * cc + c) * b
  }

  /** The decoders' running offset: one sample on, or from the end of frame
      `n` to the start of frame `n + 1`. */
  lemma NextSample(offset: nat, cc: nat, b: nat, n: nat, c: nat)
    ensures SamplePos(offset, cc, b, n, c) + b == SamplePos(offset, cc, b, n, c + 1)
    ensures SamplePos(offset, cc, b, n, cc) == SamplePos(offset, cc, b, n + 1, 0)
  {
    assert (n * cc + c) * b + b == (n * cc + c + 1) * b;
    assert (n * cc + cc) * b == ((n + 1) * cc + 0) * b;
  }

  /** Every sample a decoder reads lies inside the `count * cc * b` bytes after `offset`. */
  lemma SampleInBounds(offset: nat, cc: nat, b: nat, count: nat, n: nat, c: nat)
    requires n < count && c < cc
    ensures SamplePos(offset, cc, b, n, c) + b <= offset + count * cc * b
  {
    assert n * cc + c + 1 <= count * cc by {
      MulMono(n + 1, count, cc);
    }
    MulMono(n * cc + c + 1, count * cc, b);
  }

  /** Channel `c`'s sample `n` as the decoder for (src, tgt) produces it. */
  function SampleAt(src: Width, tgt: Width, data: seq<byte>, cc: nat, count: nat, offset: nat, n: nat, c: nat): (r: nat)
    requires offset + count * cc * src.Bytes() <= |data|
    requires n < count && c < cc
    ensures r < tgt.Limit()
  {
    var p := SamplePos(offset, cc, src.Bytes(), n, c);
    SampleInBounds(offset, cc, src.Bytes(), count, n, c);
    Convert(src, tgt, data[p..p + src.Bytes()])
  }

  /** The channels a decoder builds from `count` interleaved frames of `cc` samples. */
  function Decoded(src: Width, tgt: Width, data: seq<byte>, cc: nat, count: nat, offset: nat): (r: seq<Channel>)
    requires offset + count * cc * src.Bytes() <= |data|
    ensures |r| == cc && Rectangular(r, count)
    ensures forall c :: 0 <= c < cc ==> Fits(tgt, r[c])
  {
    seq(cc, c requires 0 <= c < cc =>
      Channel(seq(count, n requires 0 <= n < count => SampleAt(src, tgt, data, cc, count, offset, n, c))))
  }

  /** The decoders' inner loop over the channels of frame `n`: each sample is
      converted from the bytes at the running offset into data[c][n], and the
      offset moves on by one sample. */
  method DecodeFrame(src: Width, tgt: Width, data: seq<byte>, cc: nat, count: nat, offset: nat,
                     table: array2<nat>, n: nat, start: nat) returns (pos: nat)
    requires offset + count * cc * src.Bytes() <= |data|
    requires table.Length0 == cc && table.Length1 == count && n < count
    requires start == SamplePos(offset, cc, src.Bytes(), n, 0)
    modifies table
    ensures pos == SamplePos(offset, cc, src.Bytes(), n + 1, 0)
    ensures forall n', c' :: 0 <= n' < count && 0 <= c' < cc && n' != n ==> table[c', n'] == old(table[c', n'])
    ensures forall c' :: 0 <= c' < cc ==> table[c', n] == SampleAt(src, tgt, data, cc, count, offset, n, c')
  {
    var b := src.Bytes();
    pos := start;
    for c := 0 to cc
      invariant pos == SamplePos(offset, cc, b, n, c)
      invariant forall n', c' :: 0 <= n' < count && 0 <= c' < cc && n' != n ==> table[c', n'] == old(table[c', n'])
      invariant forall c' :: 0 <= c' < c ==> table[c', n] == SampleAt(src, tgt, data, cc, count, offset, n, c')
    {
      SampleInBounds(offset, cc, b, count, n, c);
      table[c, n] := Convert(src, tgt, data[pos..pos + b]);
      NextSample(offset, cc, b, n, c);
      pos := pos + b;
    }
    NextSample(offset, cc, b, n, cc);
  }

  /** The decoders' nested loops: frame `n` outer, channel `c` inner, with a
      running byte offset, filling the channel-major table data[c][n]. */
  method Deinterleave(src: Width, tgt: Width, data: seq<byte>, cc: nat, count: nat, offset: nat)
    returns (rows: seq<Channel>)
    requires offset + count * cc * src.Bytes() <= |data|
    ensures rows == Decoded(src, tgt, data, cc, count, offset)
  {
    var table := new nat[cc, count];
    var pos := offset;
    for n := 0 to count
      invariant pos == SamplePos(offset, cc, src.Bytes(), n, 0)
      invariant forall n', c' :: 0 <= n' < n && 0 <= c' < cc ==>
        table[c', n'] == SampleAt(src, tgt, data, cc, count, offset, n', c')
    {
      pos := DecodeFrame(src, tgt, data, cc, count, offset, table, n, pos);
    }
    rows := seq(cc, c requires 0 <= c < cc reads table =>
      Channel(seq(count, n requires 0 <= n < count reads table => table[c, n])));
    forall c | 0 <= c < cc
      ensures rows[c].samples == Decoded(src, tgt, data, cc, count, offset)[c].samples
    {
    }
  }

  /** Read8BitsPCM … Read32BitsPCM: deinterleave, then create a sound at the
      target width and append one channel per row, in channel order. */
  method ReadPcm(src: Width, tgt: Width, data: seq<byte>, cc: nat, count: nat, sampleRate: uint32, offset: nat)
    returns (sound: Sound)
    requires offset + count * cc * src.Bytes() <= |data|
    ensures fresh(sound) && sound.Valid()
    ensures sound.Value() == SoundValue(tgt, sampleRate, Decoded(src, tgt, data, cc, count, offset))
  {
    var rows := Deinterleave(src, tgt, data, cc, count, offset);
    sound := new Sound(tgt, sampleRate);
    for c := 0 to cc
      invariant fresh(sound) && sound.Valid()
      invariant sound.width == tgt && sound.sampleRate == sampleRate
      invariant sound.channels == rows[..c]
    {
      sound.AddChannel(rows[c]);
    }
    assert rows[..cc] == rows;
  }

  // ---------------------------------------------------------------------------
  // Interleaving (Write8BitsPCM, Write16BitsPCM, Write32BitsPCM)

  /** Sample `n` of channels 0 … c-1, each as `w.Bytes()` little-endian bytes. */
  function Frame(w: Width, chans: seq<Channel>, n: nat, c: nat): seq<byte>
    requires c <= |chans|
    requires forall i :: 0 <= i < c ==> n < |chans[i].samples|
  {
    if c == 0 then [] else Frame(w, chans, n, c - 1) + ToLE(chans[c - 1].samples[n], w.Bytes())
  }

  /** Frames 0 … count-1, in order. */
  function Payload(w: Width, chans: seq<Channel>, count: nat): seq<byte>
    requires forall i :: 0 <= i < |chans| ==> count <= |chans[i].samples|
  {
    if count == 0 then [] else Payload(w, chans, count - 1) + Frame(w, chans, count - 1, |chans|)
  }

  lemma {:induction false} FrameLayout(w: Width, chans: seq<Channel>, n: nat, c: nat, i: nat)
    requires c <= |chans|
    requires forall j :: 0 <= j < c ==> n < |chans[j].samples|
    requires i < c
    ensures |Frame(w, chans, n, c)| == c * w.Bytes()
    ensures Frame(w, chans, n, c)[i * w.Bytes()..(i + 1) * w.Bytes()] == ToLE(chans[i].samples[n], w.Bytes())
  {
    FrameLength(w, chans, n, c);
    var b := w.Bytes();
    if i < c - 1 {
      FrameLayout(w, chans, n, c - 1, i);
      FrameLength(w, chans, n, c - 1);
      MulMono(i + 1, c - 1, b);
    } else {
      FrameLength(w, chans, n, c - 1);
    }
  }

  lemma {:induction false} FrameLength(w: Width, chans: seq<Channel>, n: nat, c: nat)
    requires c <= |chans|
    requires forall j :: 0 <= j < c ==> n < |chans[j].samples|
    ensures |Frame(w, chans, n, c)| == c * w.Bytes()
  {
    if c > 0 {
      FrameLength(w, chans, n, c - 1);
    }
  }

  lemma {:induction false} PayloadLength(w: Width, chans: seq<Channel>, count: nat)
    requires forall i :: 0 <= i < |chans| ==> count <= |chans[i].samples|
    ensures |Payload(w, chans, count)| == count * |chans| * w.Bytes()
  {
    if count > 0 {
      var k, cc, b := count - 1, |chans|, w.Bytes();
      PayloadLength(w, chans, k);
      FrameLength(w, chans, k, cc);
      assert count * cc * b == k * cc * b + cc * b by {
        PosSplit(k, cc, 0, b);
      }
    }
  }

  lemma SliceOfConcat(x: seq<byte>, y: seq<byte>, p: nat, len: nat)
    ensures p + len <= |x| ==> (x + y)[p..p + len] == x[p..p + len]
    ensures |x| <= p && p + len <= |x| + |y| ==> (x + y)[p..p + len] == y[p - |x|..p - |x| + len]
  {
  }

  lemma PosSplit(n: nat, cc: nat, c: nat, b: nat)
    ensures (n * cc + c) * b == n * cc * b + c * b
    ensures (n + 1) * cc * b == n * cc * b + cc * b
  {
  }

  lemma LastFrameSlice(prev: seq<byte>, last: seq<byte>, n: nat, cc: nat, c: nat, b: nat)
    requires |prev| == n * cc * b && |last| == cc * b && c < cc
    ensures var p := SamplePos(0, cc, b, n, c);
      p + b <= |prev + last| && (prev + last)[p..p + b] == last[c * b..(c + 1) * b]
  {
    PosSplit(n, cc, c, b);
    PosSplit(c, 1, 1, b);
    MulMono(c + 1, cc, b);
    SliceOfConcat(prev, last, SamplePos(0, cc, b, n, c), b);
  }

  /** The writers emit count * cc samples, frame-major and channel-minor: channel
      `c`'s sample `n` is the `w.Bytes()` little-endian bytes at (n * cc + c) * bytes. */
  lemma {:induction false} PayloadLayout(w: Width, chans: seq<Channel>, count: nat, n: nat, c: nat)
    requires forall i :: 0 <= i < |chans| ==> count <= |chans[i].samples|
    requires n < count && c < |chans|
    ensures var p := SamplePos(0, |chans|, w.Bytes(), n, c);
      p + w.Bytes() <= |Payload(w, chans, count)| &&
      Payload(w, chans, count)[p..p + w.Bytes()] == ToLE(chans[c].samples[n], w.Bytes())
  {
    if n < count - 1 {
      PayloadLayout(w, chans, count - 1, n, c);
      SampleInEarlierFrame(w, chans, count, n, c);
    } else {
      SampleInLastFrame(w, chans, count, c);
    }
  }

  /** A sample of an earlier frame keeps its place when the last frame is appended. */
  lemma SampleInEarlierFrame(w: Width, chans: seq<Channel>, count: nat, n: nat, c: nat)
    requires forall i :: 0 <= i < |chans| ==> count <= |chans[i].samples|
    requires n < count - 1 && c < |chans|
    requires var p := SamplePos(0, |chans|, w.Bytes(), n, c);
      p + w.Bytes() <= |Payload(w, chans, count - 1)| &&
      Payload(w, chans, count - 1)[p..p + w.Bytes()] == ToLE(chans[c].samples[n], w.Bytes())
    ensures var p := SamplePos(0, |chans|, w.Bytes(), n, c);
      p + w.Bytes() <= |Payload(w, chans, count)| &&
      Payload(w, chans, count)[p..p + w.Bytes()] == ToLE(chans[c].samples[n], w.Bytes())
  {
    var p := SamplePos(0, |chans|, w.Bytes(), n, c);
    assert Payload(w, chans, count) == Payload(w, chans, count - 1) + Frame(w, chans, count - 1, |chans|);
    SliceOfConcat(Payload(w, chans, count - 1), Frame(w, chans, count - 1, |chans|), p, w.Bytes());
  }

  /** A sample of the last frame sits at its place in the appended frame. */
  lemma SampleInLastFrame(w: Width, chans: seq<Channel>, count: nat, c: nat)
    requires forall i :: 0 <= i < |chans| ==> count <= |chans[i].samples|
    requires count > 0 && c < |chans|
    ensures var p := SamplePos(0, |chans|, w.Bytes(), count - 1, c);
      p + w.Bytes() <= |Payload(w, chans, count)| &&
      Payload(w, chans, count)[p..p + w.Bytes()] == ToLE(chans[c].samples[count - 1], w.Bytes())
  {
    var k, cc, b := count - 1, |chans|, w.Bytes();
    var prev, last := Payload(w, chans, k), Frame(w, chans, k, cc);
    assert Payload(w, chans, count) == prev + last;
    PayloadLength(w, chans, k);
    FrameLayout(w, chans, k, cc, c);
    LastFrameSlice(prev, last, k, cc, c, b);
  }

  /** The writers' loops: frame `n` outer (for the `count` samples of channel 0),
      channel `c` inner, each sample appended as `w.Bytes()` little-endian bytes. */
  method WritePcm(w: Width, chans: seq<Channel>, count: nat) returns (out: seq<byte>)
    requires forall i :: 0 <= i < |chans| ==> count <= |chans[i].samples|
    ensures out == Payload(w, chans, count)
  {
    out := [];
    for n := 0 to count
      invariant out == Payload(w, chans, n)
    {
      out := WriteFrame(w, chans, n, out);
      PayloadNext(w, chans, n);
    }
  }

  /** Frame `n` follows the first `n` frames. */
  lemma PayloadNext(w: Width, chans: seq<Channel>, n: nat)
    requires forall i :: 0 <= i < |chans| ==> n < |chans[i].samples|
    ensures Payload(w, chans, n + 1) == Payload(w, chans, n) + Frame(w, chans, n, |chans|)
  {
  }

  /** The writers' inner loop: sample `n` of every channel, in channel order,
      appended to what is already written. */
  method WriteFrame(w: Width, chans: seq<Channel>, n: nat, written: seq<byte>) returns (out: seq<byte>)
    requires forall i :: 0 <= i < |chans| ==> n < |chans[i].samples|
    ensures out == written + Frame(w, chans, n, |chans|)
  {
    out := written;
    for c := 0 to |chans|
      invariant out == written + Frame(w, chans, n, c)
    {
      out := out + ToLE(chans[c].samples[n], w.Bytes());
    }
  }

  lemma SliceOfSlice(s: seq<byte>, offset: nat, len: nat, p: nat, b: nat)
    requires offset + len <= |s| && p + b <= len
    ensures s[offset..offset + len][p..p + b] == s[offset + p..offset + p + b]
  {
    var t := s[offset..offset + len];
    var u := t[p..p + b];
    assert forall i :: 0 <= i < b ==> u[i] == s[offset + p + i];
  }

  lemma DecodedAt(src: Width, tgt: Width, data: seq<byte>, cc: nat, count: nat, offset: nat, n: nat, c: nat)
    requires offset + count * cc * src.Bytes() <= |data|
    requires n < count && c < cc
    ensures Decoded(src, tgt, data, cc, count, offset)[c].samples[n] == SampleAt(src, tgt, data, cc, count, offset, n, c)
  {
  }

  lemma SampleOfPayload(src: Width, tgt: Width, data: seq<byte>, offset: nat, chans: seq<Channel>, count: nat, n: nat, c: nat)
    requires forall i :: 0 <= i < |chans| ==> count <= |chans[i].samples|
    requires offset + count * |chans| * src.Bytes() <= |data|
    requires data[offset..offset + count * |chans| * src.Bytes()] == Payload(src, chans, count)
    requires n < count && c < |chans|
    ensures SampleAt(src, tgt, data, |chans|, count, offset, n, c) == Reencode(src, tgt, chans[c].samples[n])
  {
    var b := src.Bytes();
    var q := SamplePos(offset, |chans|, b, n, c);
    assert data[q..q + b] == ToLE(chans[c].samples[n], b) by {
      PayloadLength(src, chans, count);
      PayloadBytesAt(src, data, offset, chans, count, n, c);
      assert q == offset + SamplePos(0, |chans|, b, n, c);
    }
  }

  /** Inside a buffer holding the payload at `offset`, channel `c`'s sample
      `n` is the little-endian bytes the writer stored for it. */
  lemma PayloadBytesAt(src: Width, data: seq<byte>, offset: nat, chans: seq<Channel>, count: nat, n: nat, c: nat)
    requires forall i :: 0 <= i < |chans| ==> count <= |chans[i].samples|
    requires offset + |Payload(src, chans, count)| <= |data|
    requires data[offset..offset + |Payload(src, chans, count)|] == Payload(src, chans, count)
    requires n < count && c < |chans|
    ensures var p := SamplePos(0, |chans|, src.Bytes(), n, c);
      offset + p + src.Bytes() <= |data| &&
      data[offset + p..offset + p + src.Bytes()] == ToLE(chans[c].samples[n], src.Bytes())
  {
    PayloadLayout(src, chans, count, n, c);
    SliceOfSlice(data, offset, |Payload(src, chans, count)|, SamplePos(0, |chans|, src.Bytes(), n, c), src.Bytes());
  }

  /** Decoding the writers' payload at width `tgt` gives, sample by sample, what
      Reencode makes of each written sample. */
  lemma DecodedPayload(src: Width, tgt: Width, data: seq<byte>, offset: nat, chans: seq<Channel>, count: nat)
    requires forall i :: 0 <= i < |chans| ==> count <= |chans[i].samples|
    requires offset + count * |chans| * src.Bytes() <= |data|
    requires data[offset..offset + count * |chans| * src.Bytes()] == Payload(src, chans, count)
    ensures forall c, n :: 0 <= c < |chans| && 0 <= n < count ==>
      Decoded(src, tgt, data, |chans|, count, offset)[c].samples[n] == Reencode(src, tgt, chans[c].samples[n])
  {
    forall c, n | 0 <= c < |chans| && 0 <= n < count
      ensures Decoded(src, tgt, data, |chans|, count, offset)[c].samples[n] == Reencode(src, tgt, chans[c].samples[n])
    {
      DecodedAt(src, tgt, data, |chans|, count, offset, n, c);
      SampleOfPayload(src, tgt, data, offset, chans, count, n, c);
    }
  }

  /** Every sample of `chans` as a reader at width `tgt` sees it after the
      writer stored it at width `src`. */
  function ReencodeChannels(src: Width, tgt: Width, chans: seq<Channel>): (r: seq<Channel>)
    ensures |r| == |chans|
    ensures forall c :: 0 <= c < |chans| ==> |r[c].samples| == |chans[c].samples|
  {
    seq(|chans|, c requires 0 <= c < |chans| =>
      Channel(seq(|chans[c].samples|, n requires 0 <= n < |chans[c].samples| => Reencode(src, tgt, chans[c].samples[n]))))
  }

  /** Decoding, at any width, the bytes the writers produced at width `src`
      gives each written sample as Reencode converts it. */
  lemma DecodedWritten(src: Width, tgt: Width, data: seq<byte>, offset: nat, chans: seq<Channel>, count: nat)
    requires Rectangular(chans, count)
    requires offset + count * |chans| * src.Bytes() <= |data|
    requires data[offset..offset + count * |chans| * src.Bytes()] == Payload(src, chans, count)
    ensures Decoded(src, tgt, data, |chans|, count, offset) == ReencodeChannels(src, tgt, chans)
  {
    DecodedPayload(src, tgt, data, offset, chans, count);
    var d := Decoded(src, tgt, data, |chans|, count, offset);
    var e := ReencodeChannels(src, tgt, chans);
    forall c | 0 <= c < |chans| ensures d[c] == e[c] {
      assert d[c].samples == e[c].samples;
    }
  }

  /** Writing channels and decoding them back at the same width is the identity. */
  lemma DecodeAfterWrite(w: Width, chans: seq<Channel>, count: nat)
    requires Rectangular(chans, count)
    requires forall c :: 0 <= c < |chans| ==> Fits(w, chans[c])
    ensures |Payload(w, chans, count)| == count * |chans| * w.Bytes()
    ensures Decoded(w, w, Payload(w, chans, count), |chans|, count, 0) == chans
  {
    var data := Payload(w, chans, count);
    PayloadLength(w, chans, count);
    assert data[0..|data|] == data;
    DecodedWritten(w, w, data, 0, chans, count);
    var e := ReencodeChannels(w, w, chans);
    forall c | 0 <= c < |chans| ensures e[c] == chans[c] {
      forall n | 0 <= n < count ensures e[c].samples[n] == chans[c].samples[n] {
        ReencodeValue(w, w, chans[c].samples[n]);
      }
    }
  }
}
