/** Sample widths, channels and sounds (Waveform.Channel<T> and Waveform.Sound<T>).
    The element type T, one of Byte, UInt16 and UInt32, becomes the enum Width. */
module Samples {
  import opened Errors
  import opened LittleEndian

  datatype Width = W8 | W16 | W32 {
    /** Bytes per sample. */
    function Bytes(): nat {
      match this
      case W8 => 1
      case W16 => 2
      case W32 => 4
    }

    /** Bits per sample, the value of the `fmt ` chunk's last field. */
    function Bits(): nat { 8 * Bytes() }

    /** One more than the largest sample of this width. */
    function Limit(): nat { Pow256(Bytes()) }
  }

  /** A channel's samples, taken as the value they hold when the channel is
      read or written; changes made in place through the array a channel
      shares with its creator or its users are outside this model. */
  datatype Channel = Channel(samples: seq<nat>) {
    function Length(): nat { |samples| }
  }

  /** Every sample of `ch` is a value of width `w` (the C# element type guarantees it). */
  ghost predicate Fits(w: Width, ch: Channel) {
    forall i :: 0 <= i < |ch.samples| ==> ch.samples[i] < w.Limit()
  }

  /** Every channel holds exactly `count` samples. */
  predicate Rectangular(chans: seq<Channel>, count: nat) {
    forall i :: 0 <= i < |chans| ==> |chans[i].samples| == count
  }

  /** All channels have the length of channel 0 (what Sound.Write checks). */
  predicate SameLengths(chans: seq<Channel>) {
    |chans| == 0 || Rectangular(chans, |chans[0].samples|)
  }

  /** new Channel<T>(Samples): the samples are copied out of the caller's array. */
  method NewChannel(w: Width, samples: array<nat>) returns (ch: Channel)
    requires forall i :: 0 <= i < samples.Length ==> samples[i] < w.Limit()
    ensures ch.Length() == samples.Length
    ensures forall i :: 0 <= i < samples.Length ==> ch.samples[i] == samples[i]
    ensures Fits(w, ch)
  {
    ch := Channel(samples[..]);
  }

  /** A sound as a value: what a decoder produces and what the writer serializes. */
  datatype SoundValue = SoundValue(width: Width, sampleRate: uint32, channels: seq<Channel>)

  /** Waveform.Sound<T>: a sample rate fixed at construction and a list of
      channels that callers append to. The element type T is `width`. No
      concurrent mutation is assumed, so the C# `lock (this)` is left out. */
  class Sound {
    const width: Width
    var sampleRate: uint32
    var channels: seq<Channel>

    /** Every channel holds samples of the sound's width. */
    ghost predicate Valid()
      reads this
    {
      forall i :: 0 <= i < |channels| ==> Fits(width, channels[i])
    }

    function Value(): SoundValue
      reads this
    {
      SoundValue(width, sampleRate, channels)
    }

    constructor (width: Width, sampleRate: uint32)
      ensures this.width == width && this.sampleRate == sampleRate
      ensures channels == [] && Valid()
    {
      this.width := width;
      this.sampleRate := sampleRate;
      channels := [];
    }

    /** The number of samples in each channel: that of channel 0, or 0 without channels. */
    function Length(): (r: nat)
      reads this
      ensures |channels| == 0 ==> r == 0
      ensures |channels| > 0 ==> r == channels[0].Length()
      ensures SameLengths(channels) ==> Rectangular(channels, r)
    {
      if |channels| == 0 then 0 else channels[0].Length()
    }

    /** Channels.Add: append one channel. */
    method AddChannel(ch: Channel)
      requires Valid() && Fits(width, ch)
      modifies this`channels
      ensures Valid()
      ensures channels == old(channels) + [ch]
    {
      channels := channels + [ch];
    }

    /** Duration: see DurationOf. */
    function Duration(): (r: Result<(nat, nat)>)
      reads this
      ensures r.Ok? <==> sampleRate >= 1000
      ensures r.Ok? ==> r.value.0 * sampleRate <= Length() < (r.value.0 + 1) * sampleRate
    {
      DurationOf(Length(), sampleRate)
    }
  }

  /** The integer part of Sound.Duration for `len` samples at `rate` Hz: whole
      seconds and the milliseconds left over, counted in steps of rate / 1000
      samples. Both divisions throw when the rate is below 1000. */
  function DurationOf(len: nat, rate: uint32): (r: Result<(nat, nat)>)
    ensures r.Ok? <==> rate >= 1000
    ensures r.Err? ==> r.error == DivideByZero
    ensures r.Ok? ==> r.value.0 * rate <= len < (r.value.0 + 1) * rate
    ensures r.Ok? ==> r.value.1 * (rate / 1000) <= len - r.value.0 * rate < (r.value.1 + 1) * (rate / 1000)
    ensures r.Ok? && rate % 1000 == 0 ==> r.value.1 < 1000
  {
    if rate == 0 then Err(DivideByZero)
    else
      var second: nat := len / rate;
      if rate / 1000 == 0 then Err(DivideByZero)
      else
        FloorDiv(len, rate);
        var millisecond: nat := (len - second * rate) / (rate / 1000);
        DurationBounds(len, rate, second, millisecond);
        Ok((second, millisecond))
  }

  lemma FloorDiv(a: nat, d: nat)
    requires d > 0
    ensures (a / d) * d <= a < (a / d + 1) * d
    ensures a - (a / d) * d == a % d
  {
  }

  /** A quotient stays below `m` when the dividend is below `m * d`. */
  lemma QuotientBelow(a: nat, d: nat, m: nat)
    requires d > 0 && a < m * d
    ensures a / d < m
  {
    FloorDiv(a, d);
    if a / d >= m {
      MulMono(m, a / d, d);
      assert false;
    }
  }

  lemma DurationBounds(len: nat, rate: nat, second: nat, millisecond: nat)
    requires rate >= 1000 && second == len / rate
    requires millisecond == (len - second * rate) / (rate / 1000)
    ensures second * rate <= len < (second + 1) * rate
    ensures millisecond * (rate / 1000) <= len - second * rate < (millisecond + 1) * (rate / 1000)
    ensures rate % 1000 == 0 ==> millisecond < 1000
  {
    var k := rate / 1000;
    FloorDiv(len, rate);
    var rest := len - second * rate;
    FloorDiv(rest, k);
    if rate % 1000 == 0 {
      assert rate == 1000 * k;
      QuotientBelow(rest, k, 1000);
    }
  }
}
