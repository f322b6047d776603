/**
  A model of the incremental PCM RIFF/WAVE writer of src/wav.js.

  The writer keeps one growing array of bytes. Construction fills in a
  36-byte header (the RIFF chunk descriptor and the 16-byte "fmt " sub-chunk);
  the first sample appends the "data" tag and a zeroed size field; every sample
  appends its encoding; serialisation back-patches the two size fields in place
  and hands out the array itself.
 */
module WavFormat {

  /** A byte of the output array: every value the writer stores is in 0..255. */
  type Byte = x: int | 0 <= x < 256

  datatype Option<T> = None | Some(value: T)

  /** The conditions under which the writer throws. */
  datatype Error =
    | UnsupportedBitsPerSample(bits: int)  // construction with a sample size other than 8 or 16
    | SampleOutOfRange8(sample: int)       // 8-bit sample outside 0..255
    | SampleTooLarge16(sample: int)        // 16-bit sample above 32767
    | SampleTooSmall16(sample: int)        // 16-bit sample below -32768

  datatype Result<T> = Ok(value: T) | Err(error: Error)

  /** The outcome of an operation that returns nothing or throws. */
  datatype Outcome = Pass | Fail(error: Error)

  /** The sample sizes the writer supports (its SampleSize enumeration). */
  datatype SampleSize = Eight | Sixteen {
    function Bits(): (r: int)
      ensures r == 8 || r == 16
      ensures this == Eight <==> r == 8
    {
      match this
      case Eight => 8
      case Sixteen => 16
    }

    /** `bitsPerSample / 8` of the source, which is whole for both sizes. */
    function BytesPerSample(): (r: nat)
      ensures r * 8 == Bits()
    {
      match this
      case Eight => 1
      case Sixteen => 2
    }
  }

  /** The check the constructor makes on `bitsPerSample`. */
  function SampleSizeOf(bits: int): (r: Option<SampleSize>)
    ensures r.Some? <==> bits == 8 || bits == 16
    ensures r.Some? ==> r.value.Bits() == bits && r.value.BytesPerSample() * 8 == bits
  {
    if bits == 8 then Some(Eight)
    else if bits == 16 then Some(Sixteen)
    else None
  }

  // ---------------------------------------------------------------------------
  // Little-endian bytes

  function Pow256(n: nat): (r: nat)
    ensures r > 0
  {
    if n == 0 then 1 else 256 * Pow256(n - 1)
  }

  /**
    The n low-order bytes of x, least significant first. Byte k is what the
    source computes as `(x >> 8k) & 0xff` for k < 4: bits 8k..8k+7 of x in
    two's complement, which Dafny's Euclidean `/` and `%` give for negative x too.
   */
  function LeBytes(x: int, n: nat): (r: seq<Byte>)
    ensures |r| == n
    decreases n
  {
    if n == 0 then [] else [x % 256] + LeBytes(x / 256, n - 1)
  }

  /** The unsigned value a reader decodes from little-endian bytes. */
  function LeValue(s: seq<Byte>): (r: nat)
    ensures r < Pow256(|s|)
  {
    if s == [] then 0 else s[0] + 256 * LeValue(s[1..])
  }

  /** Writing x and reading it back gives x modulo 256^n. */
  lemma {:induction false} LeRoundTrip(x: int, n: nat)
    ensures LeValue(LeBytes(x, n)) == x % Pow256(n)
    decreases n
  {
    if n > 0 {
      var s := LeBytes(x, n);
      assert s[1..] == LeBytes(x / 256, n - 1);
      LeRoundTrip(x / 256, n - 1);
      DivModStep(x, Pow256(n - 1));
    }
  }

  lemma DivModStep(x: int, p: nat)
    requires p > 0
    ensures x % (256 * p) == x % 256 + 256 * ((x / 256) % p)
  {
    var q, m := x / 256, x % 256;
    var a, b := q / p, q % p;
    var d := 256 * p;
    assert x == d * a + (256 * b + m) by {
      assert q == p * a + b;
      assert x == 256 * q + m;
    }
    ModUnique(x, d, a, 256 * b + m);
  }

  lemma ModUnique(x: int, d: int, a: int, m: int)
    requires d > 0 && 0 <= m < d && x == d * a + m
    ensures x % d == m
  {
    var k := x / d - a;
    assert d * k == m - x % d;
  }

  /** Bytes `bytes` written over b from offset `off` on, as a run of index stores does. */
  function Overwrite(b: seq<Byte>, off: nat, bytes: seq<Byte>): (r: seq<Byte>)
    requires off + |bytes| <= |b|
    ensures |r| == |b|
    ensures forall i :: off <= i < off + |bytes| ==> r[i] == bytes[i - off]
    ensures forall i :: 0 <= i < |b| && !(off <= i < off + |bytes|) ==> r[i] == b[i]
  {
    b[..off] + bytes + b[off + |bytes|..]
  }

  // ---------------------------------------------------------------------------
  // Samples

  /** The range the writer accepts for a sample of the given size. */
  predicate InRange(size: SampleSize, sample: int) {
    match size
    case Eight => 0 <= sample <= 255
    case Sixteen => -32768 <= sample <= 32767
  }

  /**
    toTwosComplement16 as written. `value & 0x7fff` is the Euclidean remainder
    by 0x8000, and `0x8000 | low15Bits` is a sum because the bits are disjoint.
    The non-negative branch tests `value > 0`, so 0 takes the negative branch
    and comes out as 0x8000.
   */
  function ToTwosComplement16(value: int): (r: Result<int>)
    ensures r.Ok? <==> -32768 <= value <= 32767
    ensures value > 32767 ==> r == Err(SampleTooLarge16(value))
    ensures value < -32768 ==> r == Err(SampleTooSmall16(value))
    ensures r.Ok? ==> 0 <= r.value < 0x1_0000
    ensures r.Ok? && value > 0 ==> r.value == value
    ensures r.Ok? && value < 0 ==> r.value == 0x1_0000 + value
    ensures r.Ok? && value == 0 ==> r.value == 0x8000
  {
    if value > 32767 then Err(SampleTooLarge16(value))
    else if value < -32768 then Err(SampleTooSmall16(value))
    else
      var low15Bits := value % 0x8000;
      if value > 0 then Ok(low15Bits) else Ok(0x8000 + low15Bits)
  }

  /** The signed value a reader recovers from a 16-bit two's-complement word. */
  function FromTwosComplement16(word: int): int {
    if word >= 0x8000 then word - 0x1_0000 else word
  }

  /**
    The discrepancy in ToTwosComplement16: a zero sample is written as the
    bytes 00 80 and read back as -32768.
   */
  lemma ZeroSampleDecodesAsMinimum()
    ensures ToTwosComplement16(0) == Ok(0x8000)
    ensures LeBytes(ToTwosComplement16(0).value, 2) == [0x00, 0x80]
    ensures FromTwosComplement16(ToTwosComplement16(0).value) == -32768
  {
  }

  /** Every in-range value other than 0 survives ToTwosComplement16. */
  lemma TwosComplementRoundTrip(value: int)
    requires -32768 <= value <= 32767
    ensures FromTwosComplement16(ToTwosComplement16(value).value) == value <==> value != 0
  {
  }

  /** toTwosComplement16 with the evidently intended test `value >= 0`. */
  function ToTwosComplement16Fixed(value: int): (r: Result<int>)
    ensures r.Ok? <==> -32768 <= value <= 32767
    ensures r.Ok? ==> 0 <= r.value < 0x1_0000 && FromTwosComplement16(r.value) == value
    ensures r.Ok? ==> r.value % 0x1_0000 == value % 0x1_0000
  {
    if value > 32767 then Err(SampleTooLarge16(value))
    else if value < -32768 then Err(SampleTooSmall16(value))
    else
      var low15Bits := value % 0x8000;
      if value >= 0 then Ok(low15Bits) else Ok(0x8000 + low15Bits)
  }

  /**
    The bytes one call of addSample appends for a sample, or the error it
    throws; 16-bit samples go through the corrected conversion, which differs
    from the source's only for a zero sample.
   */
  function EncodeSample(size: SampleSize, sample: int): (r: Result<seq<Byte>>)
    ensures r.Ok? <==> InRange(size, sample)
    ensures r.Ok? ==> |r.value| == size.BytesPerSample()
    ensures size == Eight && r.Ok? ==> r.value == [sample]
    ensures size == Eight && r.Err? ==> r.error == SampleOutOfRange8(sample)
    ensures size == Sixteen && r.Ok? ==> LeValue(r.value) == ToTwosComplement16Fixed(sample).value
    ensures size == Sixteen && r.Ok? && sample != 0 ==> LeValue(r.value) == ToTwosComplement16(sample).value
    ensures size == Sixteen && r.Err? ==> Err(r.error) == ToTwosComplement16(sample)
  {
    match size
    case Eight =>
      if sample < 0 || sample > 255 then Err(SampleOutOfRange8(sample)) else Ok([sample])
    case Sixteen =>
      match ToTwosComplement16Fixed(sample)
      case Err(e) => Err(e)
      case Ok(word) =>
        LeRoundTrip(word, 2);
        Ok(LeBytes(word, 2))
  }

  /** The sample a reader of a canonical WAVE file recovers from one sample's bytes. */
  function DecodeSample(size: SampleSize, bytes: seq<Byte>): int {
    match size
    case Eight => if |bytes| == 0 then 0 else bytes[0]
    case Sixteen => FromTwosComplement16(LeValue(bytes))
  }

  /** A reader recovers every in-range sample from its encoding. */
  lemma SampleRoundTrip(size: SampleSize, sample: int)
    requires InRange(size, sample)
    ensures DecodeSample(size, EncodeSample(size, sample).value) == sample
  {
  }

  predicate AllInRange(size: SampleSize, samples: seq<int>) {
    forall i :: 0 <= i < |samples| ==> InRange(size, samples[i])
  }

  /** The bytes a run of successful addSample calls appends, in call order. */
  function SampleBytes(size: SampleSize, samples: seq<int>): seq<Byte>
    decreases |samples|
  {
    if samples == [] then []
    else
      var last := samples[|samples| - 1];
      SampleBytes(size, samples[..|samples| - 1])
        + (match EncodeSample(size, last) case Ok(bytes) => bytes case Err(_) => [])
  }

  lemma {:induction false} SampleBytesLength(size: SampleSize, samples: seq<int>)
    requires AllInRange(size, samples)
    ensures |SampleBytes(size, samples)| == |samples| * size.BytesPerSample()
    decreases |samples|
  {
    if samples != [] {
      var init := samples[..|samples| - 1];
      assert AllInRange(size, init) by {
        forall i | 0 <= i < |init| ensures InRange(size, init[i]) {
          assert init[i] == samples[i];
        }
      }
      SampleBytesLength(size, init);
      assert InRange(size, samples[|samples| - 1]);
    }
  }

  lemma SampleBytesAppend(size: SampleSize, samples: seq<int>, sample: int)
    requires InRange(size, sample)
    ensures SampleBytes(size, samples + [sample]) == SampleBytes(size, samples) + EncodeSample(size, sample).value
  {
    assert (samples + [sample])[..|samples|] == samples;
  }

  /** A reader's view of the data bytes: one sample per `BytesPerSample()` bytes. */
  function DecodeSamples(size: SampleSize, bytes: seq<Byte>): seq<int>
    decreases |bytes|
  {
    var w := size.BytesPerSample();
    if |bytes| < w then []
    else DecodeSamples(size, bytes[..|bytes| - w]) + [DecodeSample(size, bytes[|bytes| - w..])]
  }

  /** Reading the data bytes back gives every sample written, in order. */
  lemma {:induction false} DecodeSampleBytes(size: SampleSize, samples: seq<int>)
    requires AllInRange(size, samples)
    ensures DecodeSamples(size, SampleBytes(size, samples)) == samples
    decreases |samples|
  {
    if samples != [] {
      var n := |samples|;
      var init, last := samples[..n - 1], samples[n - 1];
      assert samples == init + [last];
      assert AllInRange(size, init) by {
        forall i | 0 <= i < |init| ensures InRange(size, init[i]) {
          assert init[i] == samples[i];
        }
      }
      var enc := EncodeSample(size, last).value;
      var bytes := SampleBytes(size, samples);
      var w := size.BytesPerSample();
      assert bytes == SampleBytes(size, init) + enc;
      assert bytes[..|bytes| - w] == SampleBytes(size, init);
      assert bytes[|bytes| - w..] == enc;
      SampleRoundTrip(size, last);
      DecodeSampleBytes(size, init);
    }
  }

  // ---------------------------------------------------------------------------
  // File layout

  const RiffTag: seq<Byte> := [82, 73, 70, 70]      // "RIFF"
  const WaveTag: seq<Byte> := [87, 65, 86, 69]      // "WAVE"
  const FmtTag: seq<Byte> := [102, 109, 116, 32]    // "fmt "
  const DataTag: seq<Byte> := [100, 97, 116, 97]    // "data"

  /** Size of the "fmt " sub-chunk body (subChunk1Size). */
  const FmtChunkSize := 16
  /** Length of the array the constructor builds (headerSize). */
  const HeaderSize := 36
  /** Offset of the RIFF chunk size field (chunkSizeIndex). */
  const ChunkSizeIndex := 4
  /** Offset of the data sub-chunk size field, recorded on the first sample (subChunk2SizeIndex). */
  const DataSizeIndex := 40
  /** Offset of the first sample byte. */
  const DataStart := 44
  const TwoTo32 := 0x1_0000_0000

  /** The "data" tag and the zeroed size field the first addSample appends. */
  const DataChunkHeader: seq<Byte> := DataTag + [0, 0, 0, 0]

  /** blockAlign: the bytes one frame (one sample on every channel) takes. */
  function BlockAlign(channelCount: int, size: SampleSize): (r: int)
    ensures r * 8 == channelCount * size.Bits()
  {
    channelCount * size.BytesPerSample()
  }

  /** byteRate: the bytes one second of audio takes. */
  function ByteRate(channelCount: int, sampleRate: int, size: SampleSize): (r: int)
    ensures r * 8 == sampleRate * channelCount * size.Bits()
  {
    sampleRate * BlockAlign(channelCount, size)
  }

  /** The little-endian 16-bit field a WAVE reader decodes at offset off. */
  function U16(b: seq<Byte>, off: nat): nat
    requires off + 2 <= |b|
  {
    b[off] as nat + 256 * b[off + 1] as nat
  }

  /** The little-endian 32-bit field a WAVE reader decodes at offset off. */
  function U32(b: seq<Byte>, off: nat): nat
    requires off + 4 <= |b|
  {
    U16(b, off) + 0x1_0000 * U16(b, off + 2)
  }

  /** The four-byte tag at offset off. */
  predicate TagAt(b: seq<Byte>, off: nat, tag: seq<Byte>)
    requires off + 4 <= |b| && |tag| == 4
  {
    b[off] == tag[0] && b[off + 1] == tag[1] && b[off + 2] == tag[2] && b[off + 3] == tag[3]
  }

  /** A field holding the two little-endian bytes of x decodes to x modulo 2^16. */
  lemma Field16(b: seq<Byte>, off: nat, x: int)
    requires off + 2 <= |b|
    requires b[off] == LeBytes(x, 2)[0] && b[off + 1] == LeBytes(x, 2)[1]
    ensures U16(b, off) == x % 0x1_0000
  {
    var s := LeBytes(x, 2);
    LeRoundTrip(x, 2);
    assert LeValue(s) == s[0] as int + 256 * LeValue(s[1..]);
    assert LeValue(s[1..]) == s[1] as int + 256 * LeValue(s[2..]);
  }

  /** A field holding the four little-endian bytes of x decodes to x modulo 2^32. */
  lemma Field32(b: seq<Byte>, off: nat, x: int)
    requires off + 4 <= |b|
    requires var s := LeBytes(x, 4); b[off] == s[0] && b[off + 1] == s[1] && b[off + 2] == s[2] && b[off + 3] == s[3]
    ensures U32(b, off) == x % TwoTo32
  {
    var s := LeBytes(x, 4);
    LeRoundTrip(x, 4);
    assert LeValue(s) == s[0] as int + 256 * LeValue(s[1..]);
    assert LeValue(s[1..]) == s[1] as int + 256 * LeValue(s[2..]);
    assert LeValue(s[2..]) == s[2] as int + 256 * LeValue(s[3..]);
    assert LeValue(s[3..]) == s[3] as int + 256 * LeValue(s[4..]);
    assert Pow256(4) == TwoTo32 by {
      assert Pow256(2) == 0x1_0000;
    }
  }

  /**
    Byte i of the array the constructor builds, field by field as the source
    lists them; LeBytes(x, n)[k] is the source's `(x >> 8k) & 0xff`.
   */
  function HeaderByte(channelCount: int, sampleRate: int, size: SampleSize, i: nat): Byte
    requires i < HeaderSize
  {
    if i < 4 then RiffTag[i]                                                 // "RIFF"
    else if i < 8 then 0                                                     // chunk size, set by toByteArray
    else if i < 12 then WaveTag[i - 8]                                       // "WAVE"
    else if i < 16 then FmtTag[i - 12]                                       // "fmt "
    else if i < 20 then LeBytes(FmtChunkSize, 4)[i - 16]                     // sub-chunk 1 size
    else if i < 22 then LeBytes(1, 2)[i - 20]                                // audio format, 1 = PCM
    else if i < 24 then LeBytes(channelCount, 2)[i - 22]                     // number of channels
    else if i < 28 then LeBytes(sampleRate, 4)[i - 24]                       // sample rate
    else if i < 32 then LeBytes(ByteRate(channelCount, sampleRate, size), 4)[i - 28]  // byte rate
    else if i < 34 then LeBytes(BlockAlign(channelCount, size), 2)[i - 32]   // block align
    else LeBytes(size.Bits(), 2)[i - 34]                                     // bits per sample
  }

  /** The array the WaveFile constructor starts from. */
  function Header(channelCount: int, sampleRate: int, size: SampleSize): (h: seq<Byte>)
    ensures |h| == HeaderSize
  {
    seq(HeaderSize, i requires 0 <= i < HeaderSize => HeaderByte(channelCount, sampleRate, size, i))
  }

  /** The header holds the four tags and a zero RIFF size placeholder. */
  lemma HeaderTags(channelCount: int, sampleRate: int, size: SampleSize)
    ensures var h := Header(channelCount, sampleRate, size);
      TagAt(h, 0, RiffTag) && U32(h, ChunkSizeIndex) == 0 && TagAt(h, 8, WaveTag) && TagAt(h, 12, FmtTag)
  {
  }

  /** The "fmt " sub-chunk declares 16 bytes of PCM (format 1). */
  lemma HeaderFmtKind(channelCount: int, sampleRate: int, size: SampleSize)
    ensures var h := Header(channelCount, sampleRate, size);
      U32(h, 16) == FmtChunkSize && U16(h, 20) == 1
  {
    var h := Header(channelCount, sampleRate, size);
    Field32(h, 16, FmtChunkSize);
    Field16(h, 20, 1);
  }

  /** The sample rate and byte rate fields, reduced to 32 bits as the source's masks reduce them. */
  lemma HeaderRates(channelCount: int, sampleRate: int, size: SampleSize)
    ensures var h := Header(channelCount, sampleRate, size);
      U32(h, 24) == sampleRate % TwoTo32 &&
      U32(h, 28) == ByteRate(channelCount, sampleRate, size) % TwoTo32
  {
    var h := Header(channelCount, sampleRate, size);
    Field32(h, 24, sampleRate);
    Field32(h, 28, ByteRate(channelCount, sampleRate, size));
  }

  /** The channel count, block align and bits-per-sample fields, reduced to 16 bits. */
  lemma HeaderShape(channelCount: int, sampleRate: int, size: SampleSize)
    ensures var h := Header(channelCount, sampleRate, size);
      U16(h, 22) == channelCount % 0x1_0000 &&
      U16(h, 32) == BlockAlign(channelCount, size) % 0x1_0000 &&
      U16(h, 34) == size.Bits()
  {
    var h := Header(channelCount, sampleRate, size);
    Field16(h, 22, channelCount);
    Field16(h, 32, BlockAlign(channelCount, size));
    Field16(h, 34, size.Bits());
  }

  /**
    The "fmt " fields a reader decodes from the header: size 16, format 1
    (PCM), then the channel count, sample rate, byte rate, block align and
    bits per sample, each reduced to its field width as the source's masks
    reduce it.
   */
  lemma HeaderFormat(channelCount: int, sampleRate: int, size: SampleSize)
    ensures ReadFormat(Header(channelCount, sampleRate, size)) == ExpectedFormat(channelCount, sampleRate, size)
    ensures U32(Header(channelCount, sampleRate, size), 16) == FmtChunkSize
  {
    HeaderFmtKind(channelCount, sampleRate, size);
    HeaderRates(channelCount, sampleRate, size);
    HeaderShape(channelCount, sampleRate, size);
  }

  /** Whether byte i of the array is one of the four bytes of the RIFF size field. */
  predicate InChunkSizeField(i: int) {
    ChunkSizeIndex <= i < ChunkSizeIndex + 4
  }

  /**
    The array of a writer that started from header h and whose successful
    samples so far are `samples`; sizeIndex is the remembered
    subChunk2SizeIndex. The two size fields (bytes 4..7 and 40..43) are left
    free: they hold placeholders or the values of an earlier serialisation.
   */
  ghost predicate Layout(b: seq<Byte>, h: seq<Byte>, size: SampleSize, sizeIndex: Option<nat>, samples: seq<int>)
  {
    |b| >= HeaderSize && |h| == HeaderSize &&
    AgreesOutsideChunkSize(b, h) &&
    AllInRange(size, samples) &&
    match sizeIndex
    case None => |b| == HeaderSize && samples == []
    case Some(k) =>
      k == DataSizeIndex && |b| >= DataStart && TagAt(b, HeaderSize, DataTag) &&
      b[DataStart..] == SampleBytes(size, samples)
  }

  /** toByteArray's back-patching of the two size fields, as the source computes them. */
  function Finalized(b: seq<Byte>, sizeIndex: Option<nat>): (r: seq<Byte>)
    requires |b| >= ChunkSizeIndex + 4
    ensures |r| == |b|
  {
    var subChunk2Size := |b| - HeaderSize - 8;
    var chunkSize := 4 + (8 + FmtChunkSize) + (8 + subChunk2Size);
    var withChunkSize := Overwrite(b, ChunkSizeIndex, LeBytes(chunkSize, 4));
    if sizeIndex.Some? && |b| > sizeIndex.value + 3 then
      Overwrite(withChunkSize, sizeIndex.value, LeBytes(subChunk2Size, 4))
    else
      withChunkSize
  }

  /**
    After back-patching, the RIFF chunk size is the file length minus 8, the
    data size (when the data sub-chunk exists) is the length minus 44, both
    modulo 2^32, and no other byte and not the length has changed.
   */
  lemma FinalizedFields(b: seq<Byte>, sizeIndex: Option<nat>)
    requires |b| >= HeaderSize
    requires sizeIndex == None || sizeIndex == Some(DataSizeIndex)
    ensures var r := Finalized(b, sizeIndex);
      |r| == |b| &&
      U32(r, ChunkSizeIndex) == (|b| - 8) % TwoTo32 &&
      (sizeIndex.Some? && |b| >= DataStart ==> U32(r, DataSizeIndex) == (|b| - DataStart) % TwoTo32) &&
      (forall i :: (0 <= i < |b| && !InChunkSizeField(i) &&
                    !(sizeIndex.Some? && |b| >= DataStart && DataSizeIndex <= i < DataStart)) ==> r[i] == b[i])
  {
    var r := Finalized(b, sizeIndex);
    FinalizedAt(b, sizeIndex, 4);
    FinalizedAt(b, sizeIndex, 5);
    FinalizedAt(b, sizeIndex, 6);
    FinalizedAt(b, sizeIndex, 7);
    Field32(r, ChunkSizeIndex, |b| - 8);
    if sizeIndex.Some? && |b| >= DataStart {
      FinalizedAt(b, sizeIndex, 40);
      FinalizedAt(b, sizeIndex, 41);
      FinalizedAt(b, sizeIndex, 42);
      FinalizedAt(b, sizeIndex, 43);
      Field32(r, DataSizeIndex, |b| - DataStart);
    }
    forall i | 0 <= i < |b| && !InChunkSizeField(i) &&
               !(sizeIndex.Some? && |b| >= DataStart && DataSizeIndex <= i < DataStart)
      ensures r[i] == b[i]
    {
      FinalizedAt(b, sizeIndex, i);
    }
  }

  /** Byte i of the back-patched array: a size byte when i lies in a patched field, else unchanged. */
  lemma FinalizedAt(b: seq<Byte>, sizeIndex: Option<nat>, i: nat)
    requires |b| >= ChunkSizeIndex + 4 && i < |b|
    ensures var r := Finalized(b, sizeIndex);
      var patchData := sizeIndex.Some? && |b| > sizeIndex.value + 3;
      |r| == |b| &&
      r[i] == if patchData && sizeIndex.value <= i < sizeIndex.value + 4 then LeBytes(|b| - HeaderSize - 8, 4)[i - sizeIndex.value]
              else if InChunkSizeField(i) then LeBytes(|b| - 8, 4)[i - ChunkSizeIndex]
              else b[i]
  {
  }

  /** Calling toByteArray twice in a row leaves the same array as calling it once. */
  lemma FinalizedIdempotent(b: seq<Byte>, sizeIndex: Option<nat>)
    requires |b| >= ChunkSizeIndex + 4
    ensures Finalized(Finalized(b, sizeIndex), sizeIndex) == Finalized(b, sizeIndex)
  {
    var r := Finalized(b, sizeIndex);
    var rr := Finalized(r, sizeIndex);
    FinalizedAt(b, sizeIndex, 0);
    forall i | 0 <= i < |r| ensures rr[i] == r[i] {
      FinalizedAt(b, sizeIndex, i);
      FinalizedAt(r, sizeIndex, i);
    }
  }

  // ---------------------------------------------------------------------------
  // An independent reader of the canonical layout

  datatype FormatChunk = FormatChunk(audioFormat: nat, channels: nat, sampleRate: nat,
                                     byteRate: nat, blockAlign: nat, bitsPerSample: nat)

  datatype WaveContents = WaveContents(format: FormatChunk, data: seq<Byte>)

  /** The fixed part of a canonical WAVE file: tags, a consistent RIFF size and a 16-byte "fmt " sub-chunk. */
  predicate CanonicalPrefix(b: seq<Byte>) {
    |b| >= HeaderSize && TagAt(b, 0, RiffTag) && U32(b, ChunkSizeIndex) == |b| - 8 &&
    TagAt(b, 8, WaveTag) && TagAt(b, 12, FmtTag) && U32(b, 16) == FmtChunkSize
  }

  function ReadFormat(b: seq<Byte>): FormatChunk
    requires |b| >= HeaderSize
  {
    FormatChunk(U16(b, 20), U16(b, 22), U32(b, 24), U32(b, 28), U16(b, 32), U16(b, 34))
  }

  /**
    Reads a canonical RIFF/WAVE file: the fixed prefix, then either nothing
    or one "data" sub-chunk whose size field is the rest of the file.
   */
  function ReadCanonicalWave(b: seq<Byte>): Option<WaveContents> {
    if !CanonicalPrefix(b) then None
    else if |b| == HeaderSize then Some(WaveContents(ReadFormat(b), []))
    else if |b| < DataStart || !TagAt(b, HeaderSize, DataTag) || U32(b, DataSizeIndex) != |b| - DataStart then None
    else Some(WaveContents(ReadFormat(b), b[DataStart..]))
  }

  /** The format chunk a reader finds in a writer's file; the fields wrap as in the header. */
  function ExpectedFormat(channelCount: int, sampleRate: int, size: SampleSize): FormatChunk {
    FormatChunk(1, channelCount % 0x1_0000, sampleRate % TwoTo32,
                ByteRate(channelCount, sampleRate, size) % TwoTo32,
                BlockAlign(channelCount, size) % 0x1_0000, size.Bits())
  }

  /** Whether b agrees with h on the 36 header bytes outside the RIFF size field. */
  predicate AgreesOutsideChunkSize(b: seq<Byte>, h: seq<Byte>)
    requires |b| >= HeaderSize && |h| == HeaderSize
  {
    forall i :: 0 <= i < HeaderSize && !InChunkSizeField(i) ==> b[i] == h[i]
  }

  /** Bytes that agree with a header outside the RIFF size field read as that header's tags and format. */
  lemma AgreeingHeadersRead(b: seq<Byte>, h: seq<Byte>)
    requires |b| >= HeaderSize && |h| == HeaderSize && AgreesOutsideChunkSize(b, h)
    ensures TagAt(b, 0, RiffTag) == TagAt(h, 0, RiffTag)
    ensures TagAt(b, 8, WaveTag) == TagAt(h, 8, WaveTag) && TagAt(b, 12, FmtTag) == TagAt(h, 12, FmtTag)
    ensures U32(b, 16) == U32(h, 16)
    ensures ReadFormat(b) == ReadFormat(h)
  {
    assert b[0] == h[0] && b[1] == h[1] && b[2] == h[2] && b[3] == h[3];
    forall i | 8 <= i < HeaderSize ensures b[i] == h[i] {
      assert !InChunkSizeField(i);
    }
  }

  /** The header reads as the configured format. */
  lemma HeaderReads(channelCount: int, sampleRate: int, size: SampleSize)
    ensures var h := Header(channelCount, sampleRate, size);
      TagAt(h, 0, RiffTag) && TagAt(h, 8, WaveTag) && TagAt(h, 12, FmtTag) && U32(h, 16) == FmtChunkSize &&
      ReadFormat(h) == ExpectedFormat(channelCount, sampleRate, size)
  {
    HeaderTags(channelCount, sampleRate, size);
    HeaderFormat(channelCount, sampleRate, size);
  }

  /**
    An array r that differs from a layout b over header h only in the two
    size fields, and holds there the file length minus 8 and the data length,
    reads as h's format and exactly the bytes of the samples.
   */
  lemma PatchedLayoutReads(b: seq<Byte>, r: seq<Byte>, h: seq<Byte>, size: SampleSize,
                           sizeIndex: Option<nat>, samples: seq<int>)
    requires Layout(b, h, size, sizeIndex, samples)
    requires TagAt(h, 0, RiffTag) && TagAt(h, 8, WaveTag) && TagAt(h, 12, FmtTag) && U32(h, 16) == FmtChunkSize
    requires |r| == |b| && U32(r, ChunkSizeIndex) == |b| - 8
    requires sizeIndex.Some? ==> U32(r, DataSizeIndex) == |b| - DataStart
    requires forall i :: (0 <= i < |b| && !InChunkSizeField(i) &&
                          !(sizeIndex.Some? && DataSizeIndex <= i < DataStart)) ==> r[i] == b[i]
    ensures ReadCanonicalWave(r) == Some(WaveContents(ReadFormat(h), SampleBytes(size, samples)))
  {
    assert AgreesOutsideChunkSize(r, h) by {
      forall i | 0 <= i < HeaderSize && !InChunkSizeField(i) ensures r[i] == h[i] {
        assert r[i] == b[i];
      }
    }
    AgreeingHeadersRead(r, h);
    assert CanonicalPrefix(r);
    if sizeIndex.Some? {
      assert TagAt(r, HeaderSize, DataTag) by {
        assert r[36] == b[36] && r[37] == b[37] && r[38] == b[38] && r[39] == b[39];
      }
      assert r[DataStart..] == b[DataStart..];
    }
  }

  /** The array toByteArray produces from any layout over a tagged header h reads as h's format and the samples' bytes. */
  lemma FinalizedLayoutReads(b: seq<Byte>, h: seq<Byte>, size: SampleSize, sizeIndex: Option<nat>, samples: seq<int>)
    requires Layout(b, h, size, sizeIndex, samples)
    requires TagAt(h, 0, RiffTag) && TagAt(h, 8, WaveTag) && TagAt(h, 12, FmtTag) && U32(h, 16) == FmtChunkSize
    requires |b| - 8 < TwoTo32
    ensures ReadCanonicalWave(Finalized(b, sizeIndex)) == Some(WaveContents(ReadFormat(h), SampleBytes(size, samples)))
  {
    FinalizedFields(b, sizeIndex);
    SmallMod(|b| - 8, TwoTo32);
    if sizeIndex.Some? {
      SmallMod(|b| - DataStart, TwoTo32);
    }
    PatchedLayoutReads(b, Finalized(b, sizeIndex), h, size, sizeIndex, samples);
  }

  /**
    Whatever samples have been added, the array toByteArray produces is a
    canonical WAVE file (as long as its length fits the 32-bit size field)
    carrying the configured format and exactly the bytes of those samples.
   */
  lemma FinalizedIsCanonicalWave(b: seq<Byte>, channelCount: int, sampleRate: int, size: SampleSize,
                                 sizeIndex: Option<nat>, samples: seq<int>)
    requires Layout(b, Header(channelCount, sampleRate, size), size, sizeIndex, samples)
    requires |b| - 8 < TwoTo32
    ensures ReadCanonicalWave(Finalized(b, sizeIndex)) ==
      Some(WaveContents(ExpectedFormat(channelCount, sampleRate, size), SampleBytes(size, samples)))
  {
    HeaderReads(channelCount, sampleRate, size);
    FinalizedLayoutReads(b, Header(channelCount, sampleRate, size), size, sizeIndex, samples);
  }

  lemma SmallMod(x: int, d: int)
    requires 0 <= x < d
    ensures x % d == x
  {
  }

  /** The array is the bare header, or the header, the data sub-chunk header and one encoding per sample. */
  lemma LayoutLength(b: seq<Byte>, h: seq<Byte>, size: SampleSize, sizeIndex: Option<nat>, samples: seq<int>)
    requires Layout(b, h, size, sizeIndex, samples)
    ensures sizeIndex.None? ==> |b| == HeaderSize && samples == []
    ensures sizeIndex.Some? ==> |b| == DataStart + |samples| * size.BytesPerSample()
  {
    if sizeIndex.Some? {
      SampleBytesLength(size, samples);
    }
  }

  /** Appending the data sub-chunk header to a bare header keeps the layout and records index 40. */
  lemma LayoutStartData(b: seq<Byte>, h: seq<Byte>, size: SampleSize)
    requires Layout(b, h, size, None, [])
    ensures Layout(b + DataChunkHeader, h, size, Some(DataSizeIndex), [])
  {
    var b' := b + DataChunkHeader;
    assert b'[DataStart..] == [];
    forall i | 0 <= i < HeaderSize ensures b'[i] == b[i] {
    }
    assert b'[36] == 100 && b'[37] == 97 && b'[38] == 116 && b'[39] == 97;
  }

  /** Appending the encoding of an in-range sample extends the layout by that sample. */
  lemma LayoutAppendSample(b: seq<Byte>, h: seq<Byte>, size: SampleSize, samples: seq<int>, sample: int)
    requires Layout(b, h, size, Some(DataSizeIndex), samples)
    requires InRange(size, sample)
    ensures Layout(b + EncodeSample(size, sample).value, h, size, Some(DataSizeIndex), samples + [sample])
  {
    var e := EncodeSample(size, sample).value;
    var b' := b + e;
    forall i | 0 <= i < DataStart ensures b'[i] == b[i] {
    }
    assert b'[DataStart..] == b[DataStart..] + e;
    SampleBytesAppend(size, samples, sample);
    assert AllInRange(size, samples + [sample]) by {
      forall i | 0 <= i < |samples| + 1 ensures InRange(size, (samples + [sample])[i]) {
        if i < |samples| {
          assert (samples + [sample])[i] == samples[i];
        }
      }
    }
  }

  /** Rewriting only the two size fields keeps the layout: addSample may follow toByteArray. */
  lemma LayoutPatched(b: seq<Byte>, r: seq<Byte>, h: seq<Byte>, size: SampleSize,
                      sizeIndex: Option<nat>, samples: seq<int>)
    requires Layout(b, h, size, sizeIndex, samples)
    requires |r| == |b|
    requires forall i :: (0 <= i < |b| && !InChunkSizeField(i) &&
                          !(sizeIndex.Some? && DataSizeIndex <= i < DataStart)) ==> r[i] == b[i]
    ensures Layout(r, h, size, sizeIndex, samples)
  {
    assert AgreesOutsideChunkSize(r, h) by {
      forall i | 0 <= i < HeaderSize && !InChunkSizeField(i) ensures r[i] == h[i] {
        assert r[i] == b[i];
      }
    }
    if sizeIndex.Some? {
      assert r[36] == b[36] && r[37] == b[37] && r[38] == b[38] && r[39] == b[39];
      assert r[DataStart..] == b[DataStart..];
    }
  }

}
