# wav.js in Dafny

A model of the wav.js writer. It builds an uncompressed PCM RIFF/WAVE file in memory:

- `create` makes a writer for a channel count, a sample rate and 8 or 16 bits per sample.
- The writer starts from the 36-byte RIFF header with the `"fmt "` sub-chunk.
- `addSample` appends one sample. The first call also appends the `"data"` sub-chunk header.
- `addSampleToAllChannels` calls `addSample` once per channel.
- `toByteArray` back-patches the two size fields and hands out the writer's array.
- The getters report the configuration, the data size and the sample counts.

Files:

- `wav_format.dfy`, module `WavFormat`, holds the value-level definitions:
  - sample sizes and errors;
  - little-endian byte encoding;
  - the 16-bit two's-complement conversion;
  - the header bytes;
  - the back-patching of the size fields;
  - an independent reader of canonical WAVE files, which the writer's output is proved against.
- `wav.dfy`, module `Wav`, holds the writer itself:
  - `WaveFile` is a class whose array is a `ByteList` object, so the array `ToByteArray` returns is the writer's own;
  - `Create` is the module function `create`.
- `wav_scenarios.dfy`, module `WavScenarios`, states the exact results of concrete call sequences. One of them is the repository's test.

The central invariant is `WaveFile.Valid`, which is `WavFormat.Layout`. It says:

- The array is the constructor's header, apart from the RIFF size field.
- Before the first `addSample` call, nothing else is in the array.
- Afterwards come the `"data"` tag, a size field at index 40, and the encodings of the accepted samples, in order.

Every public method of `WaveFile` proves that it keeps this invariant. The exception is the helper `Store32`: it only rewrites four bytes, and `ToByteArray`'s proof covers it. `ToByteArray` also proves that the array it returns parses as a canonical WAVE file whose format chunk is the configured one and whose data is exactly the accepted samples' bytes. This holds whenever the length fits the 32-bit size field.

Points of the code's behaviour that the model keeps:

- **Header size.** The constructor's array (src/wav.js:99-120) is 36 bytes. The `"data"` sub-chunk header is appended by the first `addSample` (src/wav.js:164-181).
- **Test length.** Three 8-bit samples give a 47-byte file, 36 + 8 + 3, which is what the repository's test expects.
- **Data chunk size before any sample.** `getDataChunkSize` (src/wav.js:240) is the array length minus 44. Before the first sample that is -8.
- **Failed first sample.** The first `addSample` appends the data sub-chunk header before its range check, so a rejected first sample still leaves those 8 bytes behind.
- **Alias.** `toByteArray` returns the writer's own array (src/wav.js:228). Later calls change what the caller holds.
- **Division.** `getTotalSampleCount` and `getSampleCountInOneChannel` use `/`. The model gives a real quotient for a non-zero divisor and JavaScript's ±Infinity or NaN for a zero channel count. Its quotient is exact, where JavaScript rounds to a double; see `Wav.Divide` under "## Left out".

## Model

| member | source | states |
|---|---|---|
| WavFormat.SampleSize.Bits | src/wav.js:52-57 | The two supported sizes are 8 and 16 bits per sample, and `Eight` is the 8-bit one. |
| WavFormat.SampleSize.BytesPerSample | src/wav.js:95 | `bitsPerSample / 8` is a whole number of bytes for both sizes: 1 or 2. |
| WavFormat.SampleSizeOf | src/wav.js:85-89 | The constructor's check: a size exists exactly for 8 and 16 bits per sample, and it has that bit width. |
| WavFormat.ToTwosComplement16 | src/wav.js:59-81 | Fails with "too large" above 32767 and with "too small" below -32768, and succeeds exactly in between. The word is in [0, 2^16). A positive value maps to itself, and a negative value v to 2^16 + v. Zero maps to 0x8000. |
| WavFormat.ZeroSampleDecodesAsMinimum | src/wav.js:71-80 | The as-written conversion turns 0 into 0x8000. That is the bytes 00 80, which a reader decodes as -32768. |
| WavFormat.TwosComplementRoundTrip | src/wav.js:59-81 | For every in-range value, decoding the as-written word gives the value back if and only if the value is not 0. |
| WavFormat.ToTwosComplement16Fixed | src/wav.js:59-81 | The corrected conversion has the same range check. Its word decodes to the value itself and agrees with the value modulo 2^16. |
| WavFormat.LeRoundTrip | src/wav.js:106-119 | The source's `(x >> 8k) & 0xff` bytes, read back little-endian, give x modulo 256^n. |
| WavFormat.EncodeSample | src/wav.js:183-196 | The bytes one `addSample` pushes: one byte equal to the sample at 8 bits; two little-endian bytes of the corrected two's-complement word at 16 bits. That word equals the source's word for every sample but 0. The range violations give their errors, and it succeeds exactly on in-range samples. |
| WavFormat.SampleRoundTrip | src/wav.js:183-196 | A reader recovers every in-range sample from its encoding. |
| WavFormat.SampleBytesLength | src/wav.js:183-196 | n accepted samples occupy n times the bytes per sample. |
| WavFormat.DecodeSampleBytes | src/wav.js:183-196 | Reading the data bytes back yields exactly the accepted samples, in call order. |
| WavFormat.BlockAlign | src/wav.js:95 | `blockAlign` is channels × bits per sample / 8, the bytes of one frame. |
| WavFormat.ByteRate | src/wav.js:96 | `byteRate` is rate × channels × bits per sample / 8, the bytes of one second. |
| WavFormat.Header | src/wav.js:99-120 | The constructor's array, built field by field by `HeaderByte` in the source's order: 36 bytes. What a reader finds in it is stated by `HeaderTags` and `HeaderFormat`. |
| WavFormat.HeaderTags | src/wav.js:99-103 | The header holds "RIFF", "WAVE" and "fmt ", and a zero RIFF size placeholder. |
| WavFormat.HeaderFormat | src/wav.js:94-120 | The header's format chunk reads as size 16 and format 1 (PCM). It then holds the channel count, sample rate, byte rate = rate × channels × bytes per sample, block align = channels × bytes per sample, and bits per sample. Each field is reduced to its width, as the masks reduce it. |
| WavFormat.Finalized | src/wav.js:209-226 | `toByteArray`'s back-patch as a function of the array and the remembered size index. It writes the chunk size at 4, and the data size at the index only when the array extends past it. The length is kept. Its fields are stated by `FinalizedFields`. |
| WavFormat.FinalizedFields | src/wav.js:209-226 | After back-patching, the RIFF size is the length minus 8 and the data size is the length minus 44, both modulo 2^32. The data size is patched only once the data sub-chunk exists. The length and every other byte are unchanged. |
| WavFormat.FinalizedIdempotent | src/wav.js:204-229 | Serialising twice leaves the same bytes as serialising once. |
| WavFormat.FinalizedIsCanonicalWave | src/wav.js:204-229 | From any reachable writer state whose length fits 32 bits, the serialised bytes parse as a canonical WAVE file. It carries the configured format and exactly the accepted samples' bytes. |
| WavFormat.LayoutLength | src/wav.js:164-196 | A writer's array is the bare 36-byte header with no samples. Once there is a data chunk, it is 44 bytes plus one encoding per accepted sample. |
| WavFormat.LayoutAppendSample | src/wav.js:183-196 | Appending an in-range sample's encoding extends the invariant by that sample. |
| WavFormat.LayoutPatched | src/wav.js:215-226 | Rewriting only the size fields keeps the invariant, so samples may be added after `toByteArray`. |
| Wav.Create | src/wav.js:83-89 | Fails exactly for bits per sample other than 8 and 16. Otherwise it returns a fresh writer holding the header, with its getters reporting the arguments and a data chunk size of -8. |
| Wav.WaveFile.constructor | src/wav.js:91-122 | The new writer's array is the header, with no data index and no samples, and it satisfies the invariant. |
| Wav.WaveFile.GetFrequency | src/wav.js:129 | Returns the sample rate the writer was created with. |
| Wav.WaveFile.GetChannelCount | src/wav.js:134 | Returns the channel count the writer was created with. |
| Wav.WaveFile.GetSampleSize | src/wav.js:139 | Returns the bits per sample the writer was created with, which is 8 or 16. |
| Wav.WaveFile.RecordedFormat | src/wav.js:104-139 | In every writer state, the file's "fmt " sub-chunk records what the getters report: PCM, the channel count, the sample rate, the byte rate and block align derived from them, and the bits per sample, each reduced to its field width. |
| Wav.WaveFile.StartDataChunk | src/wav.js:163-181 | On the bare header it appends "data" and four zero bytes and records index 40. Otherwise it changes nothing. |
| Wav.WaveFile.AddSample | src/wav.js:160-197 | Passes exactly for in-range samples, and otherwise fails with the encoder's error. It always leaves the data sub-chunk header in place. The array grows by that header (first call only) and by the sample's encoding (on success only), and the accepted samples grow accordingly. The invariant is kept. |
| Wav.WaveFile.AddSampleToAllChannels | src/wav.js:148-153 | Passes when the channel count is not positive or the sample is in range. On success the sample is added once per channel. On failure only the data header is left behind, because the first call throws. |
| Wav.AfterCallsBytes | src/wav.js:148-153 | n successful identical calls append the data header once and then the encodings of n copies of the sample. |
| Wav.WaveFile.Store32 | src/wav.js:215-225 | Four index stores write the four little-endian bytes of the value at the given offset. |
| Wav.WaveFile.ToByteArray | src/wav.js:204-229 | Returns the writer's own array, back-patched as `Finalized` describes, keeps the invariant, and yields a canonical WAVE file of the configured format and the accepted samples. |
| Wav.WaveFile.DataChunkSize | src/wav.js:236-242 | -8 before the first sample. Afterwards, the number of accepted samples times the bytes per sample. |
| Wav.WaveFile.TotalSampleCount | src/wav.js:251-255 | The data size divided by the bytes per sample. Once the data chunk exists, it is the number of accepted samples. |
| Wav.Divide | src/wav.js:263 | Division by an integer as `/` gives it: for a non-zero divisor, a finite quotient that times the divisor is the dividend (the exact real, not JavaScript's rounded double). For a zero divisor, NaN, +Infinity or -Infinity according to the dividend's sign. |
| Wav.WaveFile.SampleCountInOneChannel | src/wav.js:262-266 | The total sample count divided by the channel count. With zero channels it is -Infinity before the first sample; after it, NaN when no sample was accepted and +Infinity when some were. |
| WavScenarios.BasicEightBitWavCreation | test/main_test.js:3-15 | A mono 44100 Hz 8-bit writer given the samples 0, 100 and 200 serialises to 47 bytes. |
| WavScenarios.RejectedFirstSample | src/wav.js:164-188 | A rejected first 8-bit sample (256) fails with its error but leaves a 44-byte file with a data chunk size of 0. |
| WavScenarios.NoSamples | src/wav.js:236-255 | Before any sample the data chunk size is -8, and the 16-bit total sample count is -4. |
| WavScenarios.StereoSixteenBit | src/wav.js:148-153 | Adding -2 to both channels of a 16-bit stereo writer appends FE FF FE FF, and gives one sample per channel. |
| WavScenarios.ZeroSixteenBitSample | src/wav.js:73-80 | With the corrected conversion, a 16-bit zero sample is written as 00 00. |
| WavScenarios.UnsupportedSampleSize | src/wav.js:85-89 | 24 bits per sample is refused. |

## Left out

- JavaScript packaging is not modelled: the module wrapper, the `create` and `SampleSize` exports, and the `exports` guard. `SampleSize` is the `WavFormat.SampleSize` datatype, and `create` is `Wav.Create`.
- Exceptions are modelled as `Outcome`/`Result` values carrying an `Error` constructor. The messages' text is not modelled.
- Samples and arguments are integers. Fractional, NaN and non-number inputs are not modelled. Neither are values beyond 2^53, where double arithmetic itself stops being exact: the inputs, and the products `blockAlign` and `byteRate` (src/wav.js:95-96). The `&` and `>>` masks are exact modulo 2^32 on any integral double, which is what `LeBytes` models.
- `channelCount` and `sampleRate` are not validated, neither in the source nor in the model. Their header fields wrap, as the masks make them wrap.
- A caller that writes into the array returned by `toByteArray` changes the writer's state. The model returns the same `ByteList` object, but such outside writes can break `WaveFile.Valid`. Every public `WaveFile` method other than the getters requires `Valid`.
- Wav.WaveFile.AddSampleToAllChannels: its contract gives the new array through `AfterCalls` (with `AfterCallsBytes` relating it to the samples' bytes) and the new sample sequence. It does not restate the resulting total sample count.
- Wav.WaveFile.ToByteArray: the canonical-file property is stated only for arrays shorter than 2^32 + 8 bytes. Beyond that the 32-bit size fields wrap, the reader rejects the file, and only the byte-level `Finalized` description applies.
- Wav.WaveFile.AddSample: a 16-bit zero sample is written as 00 00, not as the source's 00 80 (see Findings). Every other sample gets the source's bytes.
- WavFormat.EncodeSample: the same difference. A 16-bit zero is encoded as 00 00 through the corrected conversion, where src/wav.js:193-195 pushes 00 80.
- Wav.WaveFile.AddSampleToAllChannels: it calls `AddSample`, so a 16-bit zero is written as 00 00 on every channel, not as 00 80.
- WavScenarios.ZeroSixteenBitSample: it states the corrected writer's bytes 00 00. The source's bytes 00 80 are stated by `WavFormat.ZeroSampleDecodesAsMinimum`.
- Wav.Divide: for a non-zero divisor the model's quotient is the exact real. JavaScript's `/` returns the nearest double, so `getSampleCountInOneChannel` can differ in the last bits: 1 sample over 3 channels is 1/3 in the model and 0.3333333333333333 in JavaScript. `getTotalSampleCount` divides by 1 or 2, so there both agree.
- There is a bug in the repository's test: it passes `wav.BitSize.EIGHT`, but the module exports `SampleSize`. The scenario uses the 8-bit size that the test evidently means.

## Findings

| source | as written | input that shows it | evidently intended | confidence | as-written member | corrected member |
|---|---|---|---|---|---|---|
| src/wav.js:73 | the non-negative branch tests `value > 0`, so 0 takes the negative branch and becomes `0x8000` | `addSample(0)` on a 16-bit writer appends bytes 00 80, which a reader decodes as -32768 instead of 0 | `value >= 0`, which maps 0 to 0x0000 | not executed | WavFormat.ZeroSampleDecodesAsMinimum | WavFormat.ToTwosComplement16Fixed |

The writer encodes 16-bit samples with the corrected conversion, `WavFormat.ToTwosComplement16Fixed`. Its round trip is proved for every in-range value, and so is the round trip of the whole data chunk (`WavFormat.SampleRoundTrip`, `WavFormat.DecodeSampleBytes`). The as-written conversion, `WavFormat.ToTwosComplement16`, is kept next to it. `WavFormat.TwosComplementRoundTrip` proves that it fails the round trip exactly at 0. `WavFormat.EncodeSample`'s contract shows that the two conversions agree on every other sample.
