module Wav {
  import opened WavFormat

  // ---------------------------------------------------------------------------
  // The writer

  /**
    The result of the source's `/`: a finite quotient, or what JavaScript
    gives for a zero divisor. The finite quotient is the exact real, which
    stands for JavaScript's nearest double.
   */
  datatype Number = Finite(value: real) | PositiveInfinity | NegativeInfinity | NaN

  function Divide(a: real, b: int): (r: Number)
    ensures b != 0 ==> r.Finite? && r.value * (b as real) == a
    ensures b == 0 ==> (r == NaN <==> a == 0.0) && (r == PositiveInfinity <==> a > 0.0) &&
                       (r == NegativeInfinity <==> a < 0.0)
  {
    if b != 0 then Finite(a / b as real)
    else if a > 0.0 then PositiveInfinity
    else if a < 0.0 then NegativeInfinity
    else NaN
  }

  /** The JavaScript array the writer builds: a reference, so a caller holding it sees later changes. */
  class ByteList {
    var elems: seq<Byte>

    constructor (elems: seq<Byte>)
      ensures this.elems == elems
    {
      this.elems := elems;
    }
  }

  lemma ConcatAssoc<T>(a: seq<T>, b: seq<T>, c: seq<T>)
    ensures a + b + c == a + (b + c)
  {
  }

  /** n copies of x. */
  function Repeat(x: int, n: nat): (r: seq<int>)
    ensures |r| == n && forall i :: 0 <= i < n ==> r[i] == x
  {
    if n == 0 then [] else Repeat(x, n - 1) + [x]
  }

  /**
    The array after n successful addSample calls with the same sample,
    starting from `start`; the first call also appends hdr, the data
    sub-chunk header (empty when it is already there).
   */
  function AfterCalls(start: seq<Byte>, hdr: seq<Byte>, size: SampleSize, sample: int, n: nat): seq<Byte>
  {
    if n == 0 then start
    else
      AfterCalls(start, hdr, size, sample, n - 1) + (if n == 1 then hdr else [])
        + (match EncodeSample(size, sample) case Ok(bytes) => bytes case Err(_) => [])
  }

  /** n successful calls append the header once and then the encoding of n copies of the sample. */
  lemma {:induction false} AfterCallsBytes(start: seq<Byte>, hdr: seq<Byte>, size: SampleSize, sample: int, n: nat)
    requires InRange(size, sample) || n == 0
    ensures AfterCalls(start, hdr, size, sample, n) ==
      start + (if n > 0 then hdr else []) + SampleBytes(size, Repeat(sample, n))
  {
    if n == 0 {
      assert SampleBytes(size, Repeat(sample, 0)) == [];
      assert start + [] + [] == start;
    } else {
      var e := EncodeSample(size, sample).value;
      AfterCallsBytes(start, hdr, size, sample, n - 1);
      assert Repeat(sample, n) == Repeat(sample, n - 1) + [sample];
      SampleBytesAppend(size, Repeat(sample, n - 1), sample);
      if n == 1 {
        assert SampleBytes(size, Repeat(sample, 0)) == [];
        assert start + [] + [] + hdr + e == start + hdr + ([] + e);
      } else {
        ConcatAssoc(start + hdr, SampleBytes(size, Repeat(sample, n - 1)), e);
        assert start + hdr + SampleBytes(size, Repeat(sample, n - 1)) + [] == start + hdr + SampleBytes(size, Repeat(sample, n - 1));
      }
    }
  }

  /** How many times addSampleToAllChannels calls addSample: its loop runs while i < channelCount. */
  function Calls(channelCount: int): nat {
    if channelCount > 0 then channelCount else 0
  }

  class WaveFile {
    const channelCount: int
    const sampleRate: int
    const size: SampleSize
    const data: ByteList
    var subChunk2SizeIndex: Option<nat>
    /** The samples added successfully so far, in order. */
    ghost var Samples: seq<int>

    ghost predicate Valid()
      reads this, data
    {
      Layout(data.elems, Header(channelCount, sampleRate, size), size, subChunk2SizeIndex, Samples)
    }

    constructor (channelCount: int, sampleRate: int, size: SampleSize)
      ensures Valid() && fresh(data)
      ensures this.channelCount == channelCount && this.sampleRate == sampleRate && this.size == size
      ensures data.elems == Header(channelCount, sampleRate, size)
      ensures subChunk2SizeIndex == None && Samples == []
    {
      this.channelCount := channelCount;
      this.sampleRate := sampleRate;
      this.size := size;
      data := new ByteList(Header(channelCount, sampleRate, size));
      subChunk2SizeIndex := None;
      Samples := [];
    }

    /** getFrequency: the sample rate the writer was created with. */
    function GetFrequency(): (r: int)
      ensures r == sampleRate
    {
      sampleRate
    }

    /** getChannelCount: the channel count the writer was created with. */
    function GetChannelCount(): (r: int)
      ensures r == channelCount
    {
      channelCount
    }

    /** getSampleSize: the bits per sample the writer was created with, 8 or 16. */
    function GetSampleSize(): (r: int)
      ensures r == 8 || r == 16
      ensures r == size.BytesPerSample() * 8
    {
      size.Bits()
    }

    /** What the getters report is what the file's "fmt " sub-chunk records, up to the fields' widths. */
    lemma RecordedFormat()
      requires Valid()
      ensures ReadFormat(data.elems) ==
        FormatChunk(1, GetChannelCount() % 0x1_0000, GetFrequency() % TwoTo32,
                    ByteRate(GetChannelCount(), GetFrequency(), size) % TwoTo32,
                    BlockAlign(GetChannelCount(), size) % 0x1_0000, GetSampleSize())
    {
      var h := Header(channelCount, sampleRate, size);
      AgreeingHeadersRead(data.elems, h);
      HeaderFormat(channelCount, sampleRate, size);
    }

    /** Stores the four little-endian bytes of value at index..index+3, one index store at a time. */
    method Store32(index: nat, value: int)
      requires index + 4 <= |data.elems|
      modifies data
      ensures data.elems == Overwrite(old(data.elems), index, LeBytes(value, 4))
    {
      var le := LeBytes(value, 4);
      data.elems := data.elems[index := le[0]];
      data.elems := data.elems[index + 1 := le[1]];
      data.elems := data.elems[index + 2 := le[2]];
      data.elems := data.elems[index + 3 := le[3]];
      assert data.elems == Overwrite(old(data.elems), index, le);
    }

    /**
      The first part of addSample: when the array is still exactly the
      header, push the "data" tag, remember the index of the size field that
      follows it, and push that field as four zeros.
     */
    method StartDataChunk()
      requires Valid()
      modifies this, data
      ensures Valid() && Samples == old(Samples)
      ensures subChunk2SizeIndex == Some(DataSizeIndex)
      ensures data.elems == old(data.elems) + (if old(subChunk2SizeIndex).None? then DataChunkHeader else [])
    {
      if |data.elems| == HeaderSize {
        LayoutStartData(data.elems, Header(channelCount, sampleRate, size), size);
        data.elems := data.elems + DataTag;
        subChunk2SizeIndex := Some(|data.elems|);
        data.elems := data.elems + [0, 0, 0, 0];
        assert data.elems == old(data.elems) + DataChunkHeader;
      }
    }

    /**
      addSample: the data sub-chunk header is appended before the range
      check, so it stays even when the first sample is rejected.
     */
    method AddSample(sample: int) returns (r: Outcome)
      requires Valid()
      modifies this, data
      ensures Valid()
      ensures r.Pass? <==> InRange(size, sample)
      ensures r.Fail? ==> EncodeSample(size, sample) == Err(r.error)
      ensures subChunk2SizeIndex == Some(DataSizeIndex)
      ensures data.elems == old(data.elems)
        + (if old(subChunk2SizeIndex).None? then DataChunkHeader else [])
        + (if r.Pass? then EncodeSample(size, sample).value else [])
      ensures Samples == old(Samples) + (if r.Pass? then [sample] else [])
    {
      StartDataChunk();
      ghost var prefix := data.elems;
      // The bytes this sample pushes, or the exception the source throws.
      var pushed: Result<seq<Byte>>;
      match size {
        case Eight =>
          if sample < 0 || sample > 255 {
            pushed := Err(SampleOutOfRange8(sample));
          } else {
            pushed := Ok([sample]);
          }
        case Sixteen =>
          var val := ToTwosComplement16Fixed(sample);
          if val.Err? {
            pushed := Err(val.error);
          } else {
            pushed := Ok(LeBytes(val.value, 2));
          }
      }
      assert pushed == EncodeSample(size, sample);
      if pushed.Err? {
        return Fail(pushed.error);
      }
      LayoutAppendSample(data.elems, Header(channelCount, sampleRate, size), size, Samples, sample);
      data.elems := data.elems + pushed.value;
      Samples := Samples + [sample];
      r := Pass;
      assert data.elems == prefix + EncodeSample(size, sample).value;
    }

    /**
      getDataChunkSize: the array length less the header and the 8 bytes of
      the data sub-chunk header. Before the first sample that is -8; after
      it, the number of bytes of the samples that were accepted.
     */
    function DataChunkSize(): (n: int)
      reads this, data
      requires Valid()
      ensures subChunk2SizeIndex.None? ==> n == -8
      ensures subChunk2SizeIndex.Some? ==> n == |Samples| * size.BytesPerSample()
    {
      LayoutLength(data.elems, Header(channelCount, sampleRate, size), size, subChunk2SizeIndex, Samples);
      |data.elems| - HeaderSize - 8
    }

    /**
      getTotalSampleCount: the data size divided by the bytes per sample, a
      real quotient as in JavaScript; -8 / bytes per sample before the first sample.
     */
    function TotalSampleCount(): (n: real)
      reads this, data
      requires Valid()
      ensures n * size.BytesPerSample() as real == DataChunkSize() as real
      ensures subChunk2SizeIndex.Some? ==> n == |Samples| as real
    {
      DataChunkSize() as real / size.BytesPerSample() as real
    }

    /**
      getSampleCountInOneChannel: the total sample count divided by the
      channel count, with JavaScript's results for a zero channel count.
     */
    function SampleCountInOneChannel(): (n: Number)
      reads this, data
      requires Valid()
      ensures channelCount != 0 ==> n.Finite? && n.value * channelCount as real == TotalSampleCount()
      ensures channelCount == 0 && subChunk2SizeIndex.None? ==> n == NegativeInfinity
      ensures channelCount == 0 && subChunk2SizeIndex.Some? ==> (n == NaN <==> Samples == [])
      ensures channelCount == 0 && Samples != [] ==> n == PositiveInfinity
    {
      Divide(TotalSampleCount(), channelCount)
    }

    /**
      toByteArray: back-patches the RIFF chunk size and, once the data
      sub-chunk exists, its size, then hands out the writer's own array.
     */
    method ToByteArray() returns (r: ByteList)
      requires Valid()
      modifies data
      ensures r == data
      ensures Valid()
      ensures data.elems == Finalized(old(data.elems), subChunk2SizeIndex)
      ensures |data.elems| - 8 < TwoTo32 ==>
        ReadCanonicalWave(data.elems) ==
          Some(WaveContents(ExpectedFormat(channelCount, sampleRate, size), SampleBytes(size, Samples)))
    {
      var subChunk2Size := DataChunkSize();
      var chunkSize := 4 + (8 + FmtChunkSize) + (8 + subChunk2Size);
      Store32(ChunkSizeIndex, chunkSize);
      if subChunk2SizeIndex.Some? && |data.elems| > subChunk2SizeIndex.value + 3 {
        Store32(subChunk2SizeIndex.value, subChunk2Size);
      }
      r := data;
      ghost var b := old(data.elems);
      assert data.elems == Finalized(b, subChunk2SizeIndex);
      FinalizedFields(b, subChunk2SizeIndex);
      LayoutPatched(b, data.elems, Header(channelCount, sampleRate, size), size, subChunk2SizeIndex, Samples);
      if |b| - 8 < TwoTo32 {
        FinalizedIsCanonicalWave(b, channelCount, sampleRate, size, subChunk2SizeIndex, Samples);
      }
    }

    /**
      addSampleToAllChannels: calls addSample once per channel; an exception
      from addSample ends the loop, and since every call adds the same
      sample that happens on the first call or not at all.
     */
    method AddSampleToAllChannels(sample: int) returns (r: Outcome)
      requires Valid()
      modifies this, data
      ensures Valid()
      ensures r.Pass? <==> Calls(channelCount) == 0 || InRange(size, sample)
      ensures r.Fail? ==> EncodeSample(size, sample) == Err(r.error)
      ensures Samples == old(Samples) + (if r.Pass? then Repeat(sample, Calls(channelCount)) else [])
      ensures var hdr := if old(subChunk2SizeIndex).None? then DataChunkHeader else [];
        data.elems == if r.Pass? then AfterCalls(old(data.elems), hdr, size, sample, Calls(channelCount))
                      else old(data.elems) + hdr
      ensures Calls(channelCount) == 0 ==> subChunk2SizeIndex == old(subChunk2SizeIndex)
      ensures Calls(channelCount) > 0 ==> subChunk2SizeIndex == Some(DataSizeIndex)
    {
      var i := 0;
      ghost var hdr := if old(subChunk2SizeIndex).None? then DataChunkHeader else [];
      while i < channelCount
        invariant 0 <= i <= Calls(channelCount)
        invariant Valid()
        invariant Samples == old(Samples) + Repeat(sample, i)
        invariant i > 0 ==> InRange(size, sample)
        invariant subChunk2SizeIndex == if i > 0 then Some(DataSizeIndex) else old(subChunk2SizeIndex)
        invariant data.elems == AfterCalls(old(data.elems), hdr, size, sample, i)
        decreases channelCount - i
      {
        r := AddSample(sample);
        if r.Fail? {
          assert Calls(channelCount) > 0 && !InRange(size, sample);
          assert data.elems == old(data.elems) + hdr + [];
          return;
        }
        assert Repeat(sample, i + 1) == Repeat(sample, i) + [sample];
        ConcatAssoc(old(Samples), Repeat(sample, i), [sample]);
        i := i + 1;
      }
      assert i == Calls(channelCount);
      assert Calls(channelCount) == 0 || InRange(size, sample);
      r := Pass;
    }
  }

  /** create: a writer for the given format, refusing any bits-per-sample other than 8 and 16. */
  method Create(channelCount: int, sampleRate: int, bitsPerSample: int) returns (r: Result<WaveFile>)
    ensures r.Err? <==> bitsPerSample != 8 && bitsPerSample != 16
    ensures r.Err? ==> r.error == UnsupportedBitsPerSample(bitsPerSample)
    ensures r.Ok? ==> var w := r.value;
      fresh(w) && fresh(w.data) && w.Valid() &&
      w.GetChannelCount() == channelCount && w.GetFrequency() == sampleRate && w.GetSampleSize() == bitsPerSample &&
      w.data.elems == Header(channelCount, sampleRate, w.size) && w.Samples == [] && w.DataChunkSize() == -8
  {
    var size := SampleSizeOf(bitsPerSample);
    if size.None? {
      return Err(UnsupportedBitsPerSample(bitsPerSample));
    }
    var w := new WaveFile(channelCount, sampleRate, size.value);
    return Ok(w);
  }
}
