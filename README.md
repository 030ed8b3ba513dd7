# Modulations from files, modelled in Dafny

This project models the file-based modulations of the AUTD3 ultrasound-array library:

- `RawPCM` loads headerless 8-bit PCM data at a sampling rate the caller gives.
- `Wav` loads a mono, linear-PCM RIFF/WAVE file with 8- or 16-bit samples, which records its own sampling rate.

The WAV loader reads the file through a bounded little-endian stream reader (`ReadFromStream`). The raw PCM loader calls the stream's own one-byte read until it fails; `ReadAllBytes` models that loop with one-byte `InputStream.Read` calls, which behave the same. The WAV loader checks the canonical 44-byte header field by field, in file order, and reduces every sample to an unsigned byte. Building a modulation then resamples its samples to the device's sampling rate:

- `Wav` decimates by nearest neighbour, clamped to the buffer capacity.
- `RawPCM` zero-stuffs by the truncated rate ratio, applies a 31-tap FIR filter with circular indexing, and normalises the filtered values onto [0, 255].

Modules:

- `Arithmetic`: facts about natural-number multiplication and division.
- `Types`: bytes, `uint32`, the `Result` type, and a file as either unreadable or its bytes.
- `ByteStream`: the `InputStream` class, with its bytes, cursor and fail flag, and its `Read`.
- `WavFormat`: `WavSpec`, a specification of WAV parsing by fixed offsets, and `ParseWav`, which reads through an `InputStream` and is proved to return `WavSpec`.
- `WavProperties`: what the WAV parser accepts and rejects, and what a successful parse records.
- `RawPcmFormat`: the byte-by-byte read loop of the raw PCM loader.
- `Decimation`: `Wav::calc`.
- `Upsampling` and `UpsamplingProperties`: the structure of `RawPCM::calc`.
- `Modulation`: the `RawPCM` and `Wav` classes with their constructors, `Create` and `Build`.

## Model

| member | source | states |
|---|---|---|
| ByteStream.LittleEndian | src/from_file_modulation.cpp:92-93 | the value decoded from k bytes is below 256^k |
| ByteStream.LittleEndianInjective | src/from_file_modulation.cpp:92-93 | two byte strings of one width that decode to the same value are equal, so comparing a decoded field with a tag value compares bytes |
| ByteStream.InputStream.constructor | src/from_file_modulation.cpp:99-100 | a freshly opened stream is positioned at the first byte and has not failed |
| ByteStream.InputStream.Read | src/from_file_modulation.cpp:88-95 | with enough bytes left on a stream that has not failed, yields the little-endian value of the next `width` bytes and advances by `width`; otherwise yields "Invalid data length." and leaves the stream failed at its end, so every later read fails too |
| WavFormat.AsInt16 | src/from_file_modulation.cpp:159 | the int16 read is the signed value in [-32768, 32767] congruent to the stored uint16 modulo 2^16 |
| WavFormat.Rescale16 | src/from_file_modulation.cpp:161-162 | a rescaled 16-bit sample always lies in [0, 255] |
| WavFormat.Sample | src/from_file_modulation.cpp:153-163 | defines sample k of the data chunk: the byte at 44 + k for 8 bits, the rescaled int16 at 44 + 2k for 16 bits |
| WavFormat.Samples | src/from_file_modulation.cpp:150-165 | the first `count` samples of the data chunk, one per sample slot |
| WavFormat.SamplesAt | src/from_file_modulation.cpp:153-163 | sample k of the data chunk lies inside the file and is the 8-bit byte or the rescaled int16 at offset 44 + k·(bits / 8) |
| WavFormat.ChunkTagsCheck | src/from_file_modulation.cpp:103-115 | the tag checks pass only on a file of at least 16 bytes |
| WavFormat.FormatCheck | src/from_file_modulation.cpp:117-128 | the format checks pass only on a file of at least 24 bytes |
| WavFormat.SampleFieldsSpec | src/from_file_modulation.cpp:130-146 | the remaining header fields are accepted only on a file holding the whole 44-byte header |
| WavFormat.HeaderSpec | src/from_file_modulation.cpp:103-146 | a header is accepted only when the file holds all 44 header bytes |
| WavFormat.DataSpec | src/from_file_modulation.cpp:148-165 | reading the data chunk succeeds only for 8 or 16 bits; it then keeps the header's rate, and every sample it returns lies inside the file |
| WavFormat.WavSpec | src/from_file_modulation.cpp:98-169 | a file parses only when it holds the 44-byte header and every sample returned |
| WavFormat.ReadChunkTags | src/from_file_modulation.cpp:103-115 | reading the tags through the stream gives exactly `ChunkTagsCheck`, with the unchecked chunk-size read in between; a wrong "RIFF" tag fails with no byte read past it (cursor at 4), and success leaves the cursor at 16 |
| WavFormat.ReadFormat | src/from_file_modulation.cpp:117-128 | reading the format fields gives exactly `FormatCheck` and on success leaves the cursor at 24 |
| WavFormat.ReadSampleFields | src/from_file_modulation.cpp:130-146 | reading the rate, the unchecked byte rate and block size, the bits, the data tag and the data size gives exactly `SampleFieldsSpec` and on success leaves the cursor at 44 |
| WavFormat.ReadSample | src/from_file_modulation.cpp:153-163 | reading sample k at the cursor yields that sample and advances past it when the file holds it, and "Invalid data length." otherwise |
| WavFormat.ReadSamples | src/from_file_modulation.cpp:148-165 | the bit-depth check and the sample loop give exactly `DataSpec`: data size / (bits / 8) samples, each byte copied or each int16 rescaled, or "Invalid data length." at the first short read |
| WavFormat.ParseWav | src/from_file_modulation.cpp:98-169 | parsing an opened file through the stream yields exactly `WavSpec` of its bytes |
| WavProperties.TagSpellings | src/from_file_modulation.cpp:105-142 | the four tag constants are the little-endian readings of "RIFF", "WAVE", "fmt " and "data" |
| WavProperties.TagCompare | src/from_file_modulation.cpp:103-115 | a u32 field equals a tag's value if and only if the four bytes spell the tag |
| WavProperties.TagChecks | src/from_file_modulation.cpp:103-142 | each of the four header tag comparisons holds if and only if the tag is spelt at its offset |
| WavProperties.RejectsBadChunkTags | src/from_file_modulation.cpp:103-115 | a wrong "RIFF", "WAVE" or "fmt " tag, checked in that order, is "Invalid data format." |
| WavProperties.RejectsUnsupportedFormat | src/from_file_modulation.cpp:117-128 | after good tags, a fmt size other than 16 is "Invalid data format.", a format code other than 1 the linear-PCM error, and a channel count other than 1 the monaural error |
| WavProperties.DataTagCheckedBeforeBitDepth | src/from_file_modulation.cpp:136-148 | a bad "data" tag is "Invalid data format." whatever the bit depth; with a good tag and a full header, a depth other than 8 or 16 is the bit-depth error |
| WavProperties.TruncatedFilesFail | src/from_file_modulation.cpp:89-91 | a file shorter than 44 bytes never parses; a good fmt chunk cut before offset 40 is "Invalid data length."; a data chunk shorter than declared is "Invalid data length." |
| WavProperties.WavSpecOkIff | src/from_file_modulation.cpp:98-169 | the parse succeeds if and only if every header field is as required and the file holds all declared samples |
| WavProperties.SuccessfulParse | src/from_file_modulation.cpp:130-165 | on success the rate is the u32 at offset 24, the sample count is data size / (bits / 8), 8-bit samples are the data bytes and 16-bit samples the rescaled int16 values |
| WavProperties.SamplesIgnoreTrailing | src/from_file_modulation.cpp:150-165 | bytes after the samples read do not change them |
| WavProperties.TrailingBytesIgnored | src/from_file_modulation.cpp:150-165 | appending bytes to a file that parses does not change the parse |
| WavProperties.Rescale16Monotone | src/from_file_modulation.cpp:161-162 | the 16-bit rescale is nondecreasing |
| WavProperties.Rescale16Endpoints | src/from_file_modulation.cpp:161-162 | -32768 rescales to 0 and 32767 to 255 |
| RawPcmFormat.ReadAllBytes | src/from_file_modulation.cpp:33-39 | reading one byte at a time until a read fails yields exactly the file's bytes, in order |
| Decimation.DecimatedLength | src/from_file_modulation.cpp:176-178 | the output length is the largest length whose slots fit n·M/S, clamped to the capacity: never above the capacity and never more than n·M/S |
| Decimation.SourceIndex | src/from_file_modulation.cpp:182 | the source index of every output slot lies inside the source buffer |
| Decimation.SourceIndexInRange | src/from_file_modulation.cpp:182-183 | floor(i·S/M) < n for every slot i below floor(n·M/S) |
| Decimation.Decimated | src/from_file_modulation.cpp:180-184 | the output has the decimated length, and every output value occurs in the source |
| Decimation.Decimate | src/from_file_modulation.cpp:175-186 | the slot-filling loop produces exactly `Decimated` |
| Decimation.SourceIndexMonotone | src/from_file_modulation.cpp:182 | later output slots copy source samples at the same or later positions |
| Decimation.DecimatedConstant | src/from_file_modulation.cpp:181-184 | a constant source gives a constant output |
| Decimation.DecimatedSameRate | src/from_file_modulation.cpp:176-184 | at equal rates the output is the source itself, when it fits the capacity |
| Upsampling.Frac | src/from_file_modulation.cpp:54 | the fractional part that fmod(v, 1) takes lies in [0, 1) |
| Upsampling.Ratio | src/from_file_modulation.cpp:50 | the rate ratio is non-negative and times the source rate gives the device rate |
| Upsampling.UpsampledLength | src/from_file_modulation.cpp:50-51 | the up-sampled length is 0 when the source rate exceeds the device rate, and at most n·M/S |
| Upsampling.StuffIndexInRange | src/from_file_modulation.cpp:53-54 | for every slot of the up-sampled buffer the ratio is at least 1 and the source index floor(i / ratio) lies inside the source |
| Upsampling.StuffedSample | src/from_file_modulation.cpp:53-55 | every zero-stuffed slot holds 0 or a source sample |
| Upsampling.ZeroStuffed | src/from_file_modulation.cpp:49-56 | the zero-stuffed buffer has n·trunc(M/S) slots |
| Upsampling.CircularIndex | src/from_file_modulation.cpp:73 | the circular index, computed with 64-bit size_t wrap-around, always lies inside the buffer |
| Upsampling.TapSum | src/from_file_modulation.cpp:72-74 | defines the sum over the first k taps at slot i, each tap weighting the sample at the circular index |
| Upsampling.Filtered | src/from_file_modulation.cpp:69-77 | the filtered buffer has one value per zero-stuffed slot |
| Upsampling.RunningMax | src/from_file_modulation.cpp:67-76 | the running maximum from DBL_MIN bounds every filtered value from above, is at least DBL_MIN, and is DBL_MIN or one of the values |
| Upsampling.RunningMin | src/from_file_modulation.cpp:68-76 | the running minimum from DBL_MAX bounds every filtered value from below, is at most DBL_MAX, and is DBL_MAX or one of the values |
| Upsampling.RunningStep | src/from_file_modulation.cpp:75-76 | one more filtered value updates the running maximum and minimum by `max` and `min` with that value |
| Upsampling.Round | src/from_file_modulation.cpp:82 | C's `round`: the result is within 1/2 of its argument, and halves round away from zero |
| Upsampling.Quantize | src/from_file_modulation.cpp:82 | a value inside [min, max] rescales and rounds into [0, 255] |
| Upsampling.Upper | src/from_file_modulation.cpp:79 | after the epsilon guard the top of the range lies strictly above the minimum and bounds every filtered value |
| Upsampling.Normalized | src/from_file_modulation.cpp:80-83 | the output has one byte per filtered value |
| Upsampling.UpsampledOutput | src/from_file_modulation.cpp:45-85 | the buffer `RawPCM::calc` produces: zero-stuffed, filtered and normalised, with the up-sampled length |
| Upsampling.ZeroStuff | src/from_file_modulation.cpp:49-56 | the up-sampling loop produces exactly `ZeroStuffed` |
| Upsampling.AccumulateTaps | src/from_file_modulation.cpp:72-74 | the tap loop adds the filter sum of slot i to slot i and changes no other slot |
| Upsampling.LowPass | src/from_file_modulation.cpp:67-77 | the filter loop produces exactly `Filtered`, with the running maximum and minimum of the filtered values |
| Upsampling.Normalize | src/from_file_modulation.cpp:79-83 | the epsilon guard and the rescaling loop produce exactly `Normalized` |
| UpsamplingProperties.OutputLength | src/from_file_modulation.cpp:50-51 | the output has n·trunc(M/S) samples, so it is empty when the source rate exceeds the device rate |
| UpsamplingProperties.IntegerRatioLength | src/from_file_modulation.cpp:50-51 | with an integer ratio r the output has n·r samples |
| UpsamplingProperties.IntegerRatioSlot | src/from_file_modulation.cpp:52-56 | with an integer ratio r, slot i holds `buf[i / r]` when r divides i and 0 otherwise |
| UpsamplingProperties.CircularIndexNoWrap | src/from_file_modulation.cpp:73 | when i - j + n does not wrap, the circular index is the true remainder (i - j) mod n |
| UpsamplingProperties.CircularIndexWrapsForShortBuffers | src/from_file_modulation.cpp:73 | for a 3-slot buffer, tap 30 around slot 0 reads slot 1, where (0 - 30) mod 3 is 0 |
| UpsamplingProperties.NormalizedAt | src/from_file_modulation.cpp:79-83 | each output slot is its filtered value quantised over [min, guarded max], and the value lies in that range |
| UpsamplingProperties.QuantizeEnds | src/from_file_modulation.cpp:82 | the bottom of the range quantises to 0 and the top to 255 |
| UpsamplingProperties.QuantizeNearBottom | src/from_file_modulation.cpp:79-82 | with the guarded range [min, min + 1], a value less than epsilon above min quantises to 0 |
| UpsamplingProperties.QuantizeMonotone | src/from_file_modulation.cpp:82 | quantisation keeps order |
| UpsamplingProperties.SilentWhenFlat | src/from_file_modulation.cpp:79-83 | when the filtered values span less than epsilon, every output sample is 0 |
| UpsamplingProperties.FullRangeWhenSpread | src/from_file_modulation.cpp:79-83 | when they span at least epsilon, the slot holding the minimum outputs 0 and the slot holding the running maximum outputs 255 |
| UpsamplingProperties.OutputSpansFullRange | src/from_file_modulation.cpp:67-83 | when some filtered value reaches DBL_MIN and the span is at least epsilon, both 0 and 255 occur in the output |
| UpsamplingProperties.NormalizedMonotone | src/from_file_modulation.cpp:82 | normalisation keeps the order of the filtered values |
| UpsamplingProperties.ConstantIsSilent | src/from_file_modulation.cpp:67-83 | a constant filtered signal comes out as all zeros |
| UpsamplingProperties.TapSumOfSilence | src/from_file_modulation.cpp:72-74 | the filter sum over an all-zero buffer is 0, whatever the taps |
| UpsamplingProperties.SilentSourceIsSilent | src/from_file_modulation.cpp:45-85 | a raw PCM source of all-zero bytes gives an all-zero buffer at any rates and for any taps |
| Modulation.RawPCM.constructor | include/from_file_modulation.hpp:38-42 | stores the given rate and samples unchanged, with an empty buffer |
| Modulation.RawPCM.Create | src/from_file_modulation.cpp:26-43 | an unopenable file is "Error on opening file"; otherwise a new modulation holds the given rate (0.0 by default) and exactly the file's bytes |
| Modulation.RawPCM.Build | src/from_file_modulation.cpp:45-85 | the buffer becomes the zero-stuffed, filtered and normalised samples; the rate and samples are constants fixed at construction |
| Modulation.Wav.constructor | include/from_file_modulation.hpp:61-65 | stores the given uint32 rate and samples unchanged, with an empty buffer |
| Modulation.Wav.Create | src/from_file_modulation.cpp:98-169 | an unopenable file is "Error on opening file."; a file the parser rejects gives the parser's error; otherwise a new modulation holds the parsed rate and samples |
| Modulation.Wav.Build | src/from_file_modulation.cpp:171-188 | the buffer becomes the decimated samples; the rate and samples are constants fixed at construction |
| Modulation.RawPcmRebuild | include/from_file_modulation.hpp:37 | building a raw PCM modulation twice with the same device rate and taps gives the same buffer, of n·trunc(M/S) samples |
| Modulation.WavRebuild | include/from_file_modulation.hpp:60 | building a WAV modulation twice with the same device rate and capacity gives the same buffer, never longer than the capacity |

## Left out

- Opening a file is not modelled. A file is given as `FileInput`: either unreadable, or all of its bytes.
- Reading assumes a little-endian host. The `memcpy` of the read bytes into the value is modelled as little-endian decoding.
- The raw PCM loader copies each byte into an `int` and stores that `int` in a byte vector. Only the low byte survives, so the model stores the byte itself.
- `core::Modulation`, `core::Configuration` and `MOD_BUF_SIZE_MAX` belong to the device library, which is not part of this model. The device sampling rate `modFreq` and the capacity `cap` are parameters of `Build`.
- The header declares `build(config)`, while the implementation defines `calc()`. `create` and the constructors take an extra `mod_sampling_freq_div` argument. The classes follow the header's shape and the implementation's bodies. `calc` always returns `Ok(true)`, so `Build` returns nothing.
- `Sinc` and the filter taps are not modelled. They need `sin` and floating point. The taps are any 31 reals, so no fact about the filter's frequency response is proved.
- Doubles are modelled as exact reals. `Upsampling.Filtered`, `Upsampling.Quantize` and `Upsampling.Normalized` therefore leave out rounding error in the accumulation and the rescale.
- WavFormat.Rescale16: computes trunc((s + 32768) · 255 / 65535) exactly. The double computation can misround at exact boundaries.
- Decimation.DecimatedLength: takes the ratio as the exact fraction M/S. The double ratio `mod_sf / sf` and the casts can round differently at exact boundaries.
- Decimation.SourceIndex: takes the ratio as the exact fraction M/S, with the same caveat as `DecimatedLength`.
- Upsampling.StuffedSample: casts `v` to `int` without overflow. For a source of more than 2^31 - 1 samples the cast in the code would overflow, which the model does not capture.
- Modulation.RawPCM.Build: requires a source rate above 0. The header's default rate of 0.0 makes the code divide by zero and cast an infinite ratio, which is undefined behaviour. The code has no substitution of the device rate for a rate of 0.
- Modulation.Wav.Build: requires a source rate above 0. A WAV file that records rate 0 leads the code into the same undefined behaviour.
- Modulation.Wav.Build: requires a device rate above 0. The device rate comes from the device library, which is not part of this model; a positive rate is taken as that library's contract. At device rate 0 the code would compute ratio 0 and build an empty buffer without undefined behaviour; the model does not cover that call.
- UpsamplingProperties.OutputSpansFullRange: requires some filtered value to reach DBL_MIN. The running maximum starts at DBL_MIN, the smallest positive double. When every filtered value lies below it, the top of the range is DBL_MIN, which is not one of the values. Then 255 occurs only if some value rounds up to it: the values [-4, -1] give only 0 and 191.
- The filtered signal is not shifted to undo the filter's delay. The model follows the code, which uses taps 0..30 backwards from each slot.
