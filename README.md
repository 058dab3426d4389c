# ratchet-waveform: the RIFF/WAVE PCM codec, modelled in Dafny

Ratchet's `Waveform` class writes a sound as an uncompressed RIFF/WAVE file and
reads such files back. The model has three parts:

- **The sound.** `Waveform.Sound<T>` has a sample rate and a list of channels.
  Each `Channel<T>` holds unsigned samples of 8, 16 or 32 bits.
- **The writer.** It emits the 44-byte `RIFF` / `WAVE` / `fmt ` / `data`
  header, then the samples interleaved frame by frame.
- **The two readers.** One reads a stream and the other a byte array. Each
  checks the magics and the bits per sample, then scans in 4-byte steps for
  the `data` tag. It derives the sample count from the data size and hands the
  interleaved bytes to one of the nine `WaveformPcm` decoders. There is one
  decoder per (stored width, requested width) pair, and it widens or narrows
  each sample.

The model keeps the source's own shapes:

- `Sound` is a class whose channel list is appended to.
- A channel is modelled as the value of its samples when it is written or
  read back. The C# channel does not own its array exclusively: `Samples`
  hands out the internal array, and the decoders give each channel the row
  they filled without copying it.
- The decoders are nested loops that fill a channel-by-sample table
  (`array2`). They are proved against the specification function
  `Pcm.Decoded`.
- The writers are nested loops that append bytes. They are proved against
  `Pcm.Payload`.
- Each reader is a method proved equal to a pure parse function. `ParseStream`
  and `ReadStream` are the stream reader. `ParseBuffer` and `ReadBuffer` are
  the byte-array reader with its `data` scan corrected (see Findings). The
  byte-array reader as written is the function `ParseBufferAsWritten`, which
  has no method. Every exception becomes an `Errors.Error`.
- Both the output stream and the input stream are the sequence of bytes
  written or delivered.

Files:

- `errors.dfy`: the error kinds and `Result`.
- `little_endian.dfy`: the byte codec used by `BinaryWriter`, `BinaryReader`
  and `BitConverter`.
- `samples.dfy`: widths, channels and `Sound`.
- `pcm.dfy`: the `WaveformPcm` decoders and writers.
- `waveform.dfy`: the header and `Write`.
- `wave_reader.dfy`: both readers.
- `round_trip.dfy`: write-then-read properties.

## Model

Source paths are in `ratchet-waveform/ratchet-waveform/`.

| member | source | states |
|---|---|---|
| LittleEndian.U16At | ratchet-waveform/ratchet-waveform/waveform.cs:282-286 | `BitConverter.ToUInt16` succeeds exactly when two bytes exist at the index. Its value is their little-endian number, below 2^16. |
| LittleEndian.U32At | ratchet-waveform/ratchet-waveform/waveform.cs:283-284 | `BitConverter.ToUInt32` succeeds exactly when four bytes exist at the index. Its value is their little-endian number, below 2^32. |
| LittleEndian.FromToLE | ratchet-waveform/ratchet-waveform/waveform.cs:110-111 | Writing an unsigned value in n bytes and reading it back gives the value modulo 256^n. This is the wrap-around of the unchecked `uint`/`ushort` header fields. |
| LittleEndian.ToFromLE | ratchet-waveform/ratchet-waveform/waveform.cs:283 | Reading n bytes as a little-endian number and writing that number in n bytes gives back the same bytes. |
| Samples.NewChannel | ratchet-waveform/ratchet-waveform/waveform.cs:45-48 | The channel holds a copy of the caller's array: the same length and the same sample at every index. |
| Samples.Sound.constructor | ratchet-waveform/ratchet-waveform/waveform.cs:101-105 | A new sound has the given width and rate and no channels. |
| Samples.Sound.Length | ratchet-waveform/ratchet-waveform/waveform.cs:59-69 | The length is 0 without channels and otherwise channel 0's length. When all channels have equal length, every channel has exactly that many samples. |
| Samples.Sound.AddChannel | ratchet-waveform/ratchet-waveform/waveform.cs:84-85 | `Channels.Add` appends the channel at the end and keeps every channel within the sound's width. |
| Samples.Sound.Duration | ratchet-waveform/ratchet-waveform/waveform.cs:74-82 | Succeeds iff the rate is at least 1000. The whole seconds `s` satisfy `s*rate <= Length < (s+1)*rate`. |
| Samples.DurationOf | ratchet-waveform/ratchet-waveform/waveform.cs:78-79 | Both divisions fail with divide-by-zero iff the rate is below 1000. The seconds and milliseconds are the floor quotients of the length and of the remainder. The milliseconds stay below 1000 when the rate is a multiple of 1000. |
| Pcm.Convert | ratchet-waveform/ratchet-waveform/waveform-pcm.cs:35-232 | The value each of the nine decoders stores for one sample (the assignments at lines 43, 65, 87, 109, 131, 153, 176, 198 and 220) fits the requested width. The per-pair rules are the lemmas below. |
| Pcm.NarrowTo8TakesHighByte | ratchet-waveform/ratchet-waveform/waveform-pcm.cs:35-99 | Decoding into 8 bits keeps the last (most significant) byte of the stored sample. This equals the sample's value divided by 256^(bytes-1). |
| Pcm.To16Rule | ratchet-waveform/ratchet-waveform/waveform-pcm.cs:101-165 | Decoding into 16 bits maps an 8-bit value to value*256 and keeps a 16-bit value. A 32-bit value becomes value / 2^16, its upper half. |
| Pcm.To32KeepsValue | ratchet-waveform/ratchet-waveform/waveform-pcm.cs:168-232 | Decoding into 32 bits stores the stored value itself, with no scaling. An 8-bit sample stays below 256. |
| Pcm.SameWidthIsValue | ratchet-waveform/ratchet-waveform/waveform-pcm.cs:35-232 | The three same-width decoders (`Read8BitsPCM` at lines 35-55, `Read16BitsPCM` at 123-143, `Read32BitsPCM` at 212-232) return the little-endian value of the sample's bytes. |
| Pcm.ReencodeValue | ratchet-waveform/ratchet-waveform/waveform-pcm.cs:35-232 | For each of the nine (stored, requested) pairs, gives in closed form what the decoder makes of a written value. At equal widths that is the value itself. |
| Pcm.WidenThenNarrow | ratchet-waveform/ratchet-waveform/waveform-pcm.cs:57-121 | Widening a byte to 16 bits and narrowing it back to 8 bits returns the byte. |
| Pcm.SampleInBounds | ratchet-waveform/ratchet-waveform/waveform-pcm.cs:39-45 | Every sample a decoder reads lies inside the `count * channelCount * bytes` bytes after the offset. |
| Pcm.Decoded | ratchet-waveform/ratchet-waveform/waveform-pcm.cs:35-55 | A decoder yields `channelCount` channels of `sampleCount` samples each, all within the requested width. |
| Pcm.DecodeFrame | ratchet-waveform/ratchet-waveform/waveform-pcm.cs:41-44 | The inner loop fills `data[c][n]` for every channel of frame n with the converted sample at `offset + (n*cc + c)*bytes`. The running offset ends at the next frame. Other frames are untouched. |
| Pcm.Deinterleave | ratchet-waveform/ratchet-waveform/waveform-pcm.cs:37-45 | The nested loops produce exactly `Decoded`: channel c's sample n is the converted sample at `offset + (n*cc + c)*bytes`. |
| Pcm.ReadPcm | ratchet-waveform/ratchet-waveform/waveform-pcm.cs:35-55 | The decoder returns a new sound of the requested width and the given rate, holding the deinterleaved channels in channel order. |
| Pcm.WriteFrame | ratchet-waveform/ratchet-waveform/waveform-pcm.cs:241-244 | The inner loop appends sample n of every channel, in channel order, as `bytes` little-endian bytes. |
| Pcm.WritePcm | ratchet-waveform/ratchet-waveform/waveform-pcm.cs:234-246 | The writer's output is exactly `Payload`: frames 0 … count-1 in order. |
| Pcm.FrameLayout | ratchet-waveform/ratchet-waveform/waveform-pcm.cs:241-244 | A frame has `cc*bytes` bytes. Channel i's sample is at `[i*bytes, (i+1)*bytes)`. |
| Pcm.PayloadLength | ratchet-waveform/ratchet-waveform/waveform-pcm.cs:248-260 | The writer emits `count * channelCount * bytes` bytes. |
| Pcm.PayloadLayout | ratchet-waveform/ratchet-waveform/waveform-pcm.cs:262-274 | Channel c's sample n is written as its little-endian bytes at `(n*cc + c)*bytes`. This is the layout the decoders read. |
| Pcm.DecodedWritten | ratchet-waveform/ratchet-waveform/waveform-pcm.cs:234-274 | Decoding a writer's payload, found at any offset in a buffer, at any requested width gives every written sample as `Reencode` converts it. |
| Pcm.DecodeAfterWrite | ratchet-waveform/ratchet-waveform/waveform-pcm.cs:248-260 | Writing channels and decoding them at the same width gives back the channels unchanged. |
| Waveform.TagValues | ratchet-waveform/ratchet-waveform/waveform.cs:192-196 | The characters "RIFF", "WAVE" and "data" the writer emits read back as the constants 0x46464952, 0x45564157 and 0x61746164 that the readers compare against. |
| Waveform.RiffSize | ratchet-waveform/ratchet-waveform/waveform.cs:130 | The RIFF size field is 36 plus the data size. |
| Waveform.HeaderLayout | ratchet-waveform/ratchet-waveform/waveform.cs:108-166 | The writer's 44-byte header, field by field: the three magics and `fmt `, the RIFF size (36 + data size), 16, format 1, the channel count, the rate, the byte rate (rate*cc*bytes), the block align (cc*bytes), the bits (8*bytes) and the data size (len*cc*bytes). uint fields wrap modulo 2^32 and ushort fields modulo 2^16. |
| Waveform.SerializeLayout | ratchet-waveform/ratchet-waveform/waveform.cs:168-175 | A written sound is the header followed by the interleaved payload, `44 + len*cc*bytes` bytes in all. |
| Waveform.WriteWave | ratchet-waveform/ratchet-waveform/waveform.cs:168-175 | Appending the header fields one by one and then the interleaved samples produces `Serialize` of the sound. |
| Waveform.Write | ratchet-waveform/ratchet-waveform/waveform.cs:91-99 | A sound with no channel or with unequal channel lengths is refused with the matching error. Otherwise the output is the serialized sound. Every sound it takes holds samples of its own width (`Sound.Valid`), as the C# element type guarantees. |
| WaveReader.FrameSize | ratchet-waveform/ratchet-waveform/waveform.cs:211 | The divisor `channelCount * BytePerSample` is positive whenever the channel count is. |
| WaveReader.SourceWidth | ratchet-waveform/ratchet-waveform/waveform.cs:203-206 | Bits per sample are accepted iff they are 8, 16 or 32, and then name the width. Anything else is an invalid bits-per-sample error. |
| WaveReader.SourceWidthOfBits | ratchet-waveform/ratchet-waveform/waveform.cs:120 | The bits per sample a writer records are accepted and name the written width back. |
| WaveReader.FindData | ratchet-waveform/ratchet-waveform/waveform.cs:207-208 | The scan finds the first 4-byte step from its start where the uint32 equals the `data` tag. If there is none before the end, it reports a missing data chunk. |
| WaveReader.ScanForData | ratchet-waveform/ratchet-waveform/waveform.cs:207-208 | The scan loop returns exactly what `FindData` specifies. |
| WaveReader.StreamFormat | ratchet-waveform/ratchet-waveform/waveform.cs:192-206 | A wrong RIFF or WAVE magic is a bad magic. Bits other than 8/16/32 are invalid. A stream ending before a field it reads is the end of the stream. Otherwise the format is the channel count at 22, the rate at 24 and the width named by the bits at 34. |
| WaveReader.StreamSamples | ratchet-waveform/ratchet-waveform/waveform.cs:210-240 | Channel count 0 divides by zero. Otherwise it succeeds iff `sampleCount*cc*bytes` bytes are available and the count is below 2^31. The result has `cc` channels of `dataSize / (cc*bytes)` samples within the requested width. The samples are `Pcm.Decoded` of those bytes. |
| WaveReader.ParseStream | ratchet-waveform/ratchet-waveform/waveform.cs:188-244 | Every exception of the stream reader, as an error kind. The header's errors are passed on. A stream ending before the first tag read or before the data size is the end of the stream. No `data` tag is a missing data chunk, and 0 channels is divide-by-zero. With channels present, it succeeds iff the whole frames fit in the rest of the stream and are below 2^31 bytes, else out of range. A success has the requested width, the header's rate and channel count, and `dataSize / (cc*bytes)` samples per channel. The samples are `Pcm.Decoded` of the bytes after the data size. |
| WaveReader.ReadStream | ratchet-waveform/ratchet-waveform/waveform.cs:188-244 | The stream reader fails exactly when `ParseStream` does, with the same error. Otherwise it returns a new sound whose value is `ParseStream`'s. |
| WaveReader.TagRest | ratchet-waveform/ratchet-waveform/waveform.cs:260 | The `||` chain over a tag's remaining bytes succeeds iff they match. A mismatch of bytes inside the buffer is a bad magic. A buffer that ends inside the tag, with every byte up to its end matching, is out of range. |
| WaveReader.SkipRiff | ratchet-waveform/ratchet-waveform/waveform.cs:258-268 | A first byte other than 'R' leaves the offset where it is. "RIFF" plus a 4-byte size moves it on by 8. An 'R' not followed by "IFF" is a bad magic. |
| WaveReader.SkipWave | ratchet-waveform/ratchet-waveform/waveform.cs:270-279 | The WAVE magic is mandatory. It succeeds iff "WAVE" is at the offset. A first byte other than 'W', or a 'W' not followed by "AVE", is a bad magic. |
| WaveReader.SkipMagics | ratchet-waveform/ratchet-waveform/waveform.cs:258-279 | The two magic checks together. A first byte that is neither 'R' nor 'W' is a bad magic, and so is a broken "RIFF" or a "RIFF" header not followed by "WAVE". "WAVE" alone moves the offset by 4, and "RIFF" plus size plus "WAVE" by 12. |
| WaveReader.FormatFields | ratchet-waveform/ratchet-waveform/waveform.cs:281-289 | The format is read at fixed distances after the WAVE tag: channel count at +10, rate at +12, bits at +22. Bits other than 8, 16 or 32 are refused as invalid, and a buffer too short for the fields is out of range. The read succeeds iff neither holds. |
| WaveReader.BufferFormat | ratchet-waveform/ratchet-waveform/waveform.cs:253-289 | Length plus offset below 22 is refused as too short. Otherwise every magic error is passed on: a first byte that is neither 'R' nor 'W' is a bad magic, and invalid bits per sample are refused. Once the magics pass, a field block cut short by the end of the buffer is out of range, and a complete block with 8, 16 or 32 bits is read successfully. A success has the WAVE tag and the format fields at their fixed distances. |
| WaveReader.BufferSamples | ratchet-waveform/ratchet-waveform/waveform.cs:293-324 | Reports out of range when the data size is missing, and divide-by-zero for 0 channels. Otherwise it succeeds iff the derived frames fit in the buffer, and a truncated file is reported when they do not. The result has `cc` channels of `sampleCount` samples. The samples are `Pcm.Decoded` of the whole frames after the data size, at the requested width. |
| WaveReader.ParseBuffer | ratchet-waveform/ratchet-waveform/waveform.cs:253-328 | The byte-array reader, with its scan comparing uint32 values. It refuses a short input, a bad magic (including a first byte that is neither 'R' nor 'W'), invalid bits per sample, a missing `data` tag and a truncated data chunk, each with its own error. A success has a valid header and a `data` tag, and equal-length channels of the requested width. It also has the header's rate and channel count, `dataSize / (cc*bytes)` samples per channel, and the samples `Pcm.Decoded` reads from the frames after the data size. |
| WaveReader.BufferData | ratchet-waveform/ratchet-waveform/waveform.cs:290-324 | After the format: a missing `data` tag is reported as such. Otherwise the data size and frame count decide, as in `BufferSamples`, and data running past the end of the buffer is reported as truncated. A success has the format's rate and channel count, `dataSize / (cc*bytes)` samples per channel, and the samples `Pcm.Decoded` reads from the frames after the data size. |
| WaveReader.ReadBuffer | ratchet-waveform/ratchet-waveform/waveform.cs:253-328 | The byte-array reader fails exactly when `ParseBuffer` does, with the same error. Otherwise it returns a new sound whose value is `ParseBuffer`'s. |
| WaveReader.ReadBufferSamples | ratchet-waveform/ratchet-waveform/waveform.cs:293-324 | The data-size read, the truncation check and the decoder agree with `BufferSamples`, error for error. |
| WaveReader.ParseBufferAsWritten | ratchet-waveform/ratchet-waveform/waveform.cs:253-328 | Read<T>(byte[], int) as written never returns a sound. Header errors are passed on, and every input with a valid header ends in an out-of-range read. |
| WaveReader.ScanAsWritten | ratchet-waveform/ratchet-waveform/waveform.cs:290-292 | The scan as written always ends in an out-of-range read, because a uint16 is never the 32-bit `data` tag. |
| WaveReader.ScanLoopAsWritten | ratchet-waveform/ratchet-waveform/waveform.cs:291-292 | The loop as written stops successfully iff the value in hand is already the tag and the offset is inside the buffer. An offset past the end is a missing data chunk. Any other value leads to an out-of-range read, since the next uint16 cannot be the tag either. |
| RoundTrip.ReencodedSameWidth | ratchet-waveform/ratchet-waveform/waveform-pcm.cs:212-232 | Reading back at the written width changes no sample. |
| RoundTrip.SerializedFields | ratchet-waveform/ratchet-waveform/waveform.cs:108-175 | In a written sound, the readers find the magics at 0 and 8, the channel count at 22, the rate at 24, the bits at 34, the `data` tag at 36 and the data size at 40. The payload starts at 44. |
| RoundTrip.WrittenSampleCount | ratchet-waveform/ratchet-waveform/waveform.cs:210-211 | The sample count a reader derives from a written data size is the written channel length. The frames it then takes are exactly the written data. |
| RoundTrip.StreamFormatWritten | ratchet-waveform/ratchet-waveform/waveform.cs:192-206 | The stream reader's header checks accept a written sound and recover its channel count, rate and width. |
| RoundTrip.StreamSamplesWritten | ratchet-waveform/ratchet-waveform/waveform.cs:210-240 | The stream reader's sample count, read and decoder turn the written payload into the written channels, converted to the requested width. |
| RoundTrip.StreamRoundTrip | ratchet-waveform/ratchet-waveform/waveform.cs:188-244 | Reading a written sound from a stream at any width gives its rate and channels, with every sample converted by that pair's decoder. |
| RoundTrip.StreamRoundTripSameWidth | ratchet-waveform/ratchet-waveform/waveform.cs:188-244 | Reading a written sound from a stream at its own width returns it unchanged. |
| RoundTrip.BufferFormatWritten | ratchet-waveform/ratchet-waveform/waveform.cs:253-289 | The byte-array reader skips a written sound's RIFF prefix, recovers its format and starts the scan at 36. |
| RoundTrip.BufferSamplesWritten | ratchet-waveform/ratchet-waveform/waveform.cs:293-324 | The byte-array reader's data size, truncation check and decoder turn the written payload into the written channels, converted to the requested width. |
| RoundTrip.BufferRoundTrip | ratchet-waveform/ratchet-waveform/waveform.cs:253-328 | With the corrected scan, the byte-array reader reads a written sound back like the stream reader does. |
| RoundTrip.BufferAsWrittenRejectsWritten | ratchet-waveform/ratchet-waveform/waveform.cs:290-292 | The byte-array reader as written rejects every written sound, which the corrected reader returns unchanged. |
| RoundTrip.RiffPrefixOptional | ratchet-waveform/ratchet-waveform/waveform.cs:258-268 | Starting the byte-array reader at a "RIFF" header or at the WAVE tag 8 bytes later gives the same result. |
| RoundTrip.SixteenBitsReadAsEight | ratchet-waveform/ratchet-waveform/waveform-pcm.cs:57-77 | A mono 16-bit sound [0x0000, 0x00FF, 0xFF00, 0xFFFF], written and read back at 8 bits, gives [0x00, 0x00, 0xFF, 0xFF]. |

## Left out

- Thread safety: the `lock (this)` blocks are left out, since the model assumes no concurrent mutation.
- `System.IO.Stream` mechanics:
  - Streams are byte sequences. Partial reads and `Flush` are not modelled.
  - The caller's stream is never closed, which needs no model.
- Host byte order: `BitConverter` is taken to run on a little-endian host.
- The element type T:
  - `Width` replaces the `typeof(T)` checks and the `as Sound<T>` casts, so an unsupported T cannot be written down.
  - So the constructor's and readers' "Sample type must be" exceptions and the final `return null` are unreachable and not modelled.
- Exceptions are error kinds only. Their messages and .NET exception types are not kept.
- The three writers `Write8BitsSound`, `Write16BitsSound` and `Write32BitsSound` are one parameterised `Header`. They differ only in the bytes per sample (1, 2 or 4). The size products are computed as `len * cc * bytes`, the same number as the source's `cc * len * bytes`.
- `Read<T>(byte[])` (waveform.cs:177-180) has no member of its own. It calls the offset reader at 0, so as written it is `ParseBufferAsWritten` at offset 0 and fails on every valid header. With the scan corrected, it is `ParseBuffer` at offset 0.
- Samples.Sound.Duration:
  - The `TimeSpan` built from the result is not modelled, nor are the `(int)` casts or the normalisation of milliseconds above 999.
  - Its own contract states the whole seconds only. It returns `DurationOf`, whose contract also states the milliseconds.
  - The quotients are unbounded: `(uint)Length` cannot wrap because a channel length is a non-negative `int`.
- The To8Bits sample program (resampling with floating point) is not part of the core and is not modelled.
- The 8-bit to 32-bit decoder (`Read8BitsPCMAs32BitsPCM`, waveform-pcm.cs:176) stores the raw byte without scaling it. The 8-bit to 16-bit decoder (waveform-pcm.cs:109) scales it by 0x100. The model follows the code: `Pcm.To32KeepsValue` proves the raw byte is stored.
- Round-trip limits:
  - The round-trip lemmas assume fewer than 2^16 channels, because the count is written as a ushort.
  - They also assume a data size below 2^31 bytes for the stream reader (`ReadBytes` takes an `int`) and below 2^32 for the byte-array reader (the field is a uint32).
  - The writer wraps its fields at 2^32 bytes of data and at 2^16 channels. `Waveform.HeaderLayout` states the wrapped fields.
  - The stream reader refuses data whose whole frames take 2^31 bytes or more: the `(int)` cast hands `ReadBytes` a negative count (waveform.cs:213), which throws. `WaveReader.StreamSamples` states this refusal as `OutOfRange`.
- WaveReader.ParseBuffer:
  - The scan is corrected to compare uint32 values, as the stream reader does.
  - When it runs out of input it reports `MissingDataChunk`. A corrected C# loop would end in a `BitConverter` range exception instead; both are failures.
- WaveReader.ParseStream: the exception messages are not kept. Every exception of waveform.cs:192-213 is stated as its error kind.
- Pcm.Decoded: the contract states the shape. The sample values are `SampleAt`, which `Pcm.Deinterleave` proves the loops compute.
- Channel aliasing: `Channel<T>.Samples` (waveform.cs:43) returns the channel's own array, and the decoders give each new channel the row they filled without copying it (waveform-pcm.cs:50, 72 and the like). Changes made in place through such an array are not modelled: a channel is the value of its samples.
- WaveReader.BufferFormat: `Offset` is an unbounded integer. In C# it is an `int`, and the sum `Waveform.Length + Offset` in the guard (waveform.cs:256) wraps. For `Offset > 2^31 - 1 - Waveform.Length` the C# sum is negative, so the source refuses the input at the guard (`TooShort`). The model's exact sum passes the guard, and the first byte read then reports `OutOfRange`.
- WaveReader.ParseBuffer: inherits the exact-sum length guard of `BufferFormat`, so the int32 wrap-around of `Length + Offset` is not modelled.
- Memory exhaustion from allocating `new T[SampleCount]` for a huge declared data size is not modelled.

## Findings

| source | as written | input that shows it | evidently intended | confidence | as-written member | corrected member |
|---|---|---|---|---|---|---|
| ratchet-waveform/ratchet-waveform/waveform.cs:290-291 | The byte-array reader's scan reads `BitConverter.ToUInt16` and compares it with the 32-bit tag 0x61746164. A 16-bit value never matches, so the loop steps 4 bytes at a time until the read runs past the end and throws. | Any buffer, for example the 44-byte header plus payload that `Write` produces for any sound | `ToUInt32`, as in the stream reader (waveform.cs:207-208), so that `data` is found at offset 36 of a written file | not executed | RoundTrip.BufferAsWrittenRejectsWritten | RoundTrip.BufferRoundTrip |
