/**
  Concrete uses of the writer: the repository's own test and a few edge
  cases, each with the exact result the model predicts.
 */
module WavScenarios {
  import opened WavFormat
  import opened Wav

  /** Mono, 44100 Hz, 8 bits, three samples: the serialised file is 47 bytes long. */
  method BasicEightBitWavCreation() returns (length: int)
    ensures length == 47
  {
    var created := Create(1, 44100, 8);
    var wave := created.value;
    var r0 := wave.AddSample(0);
    var r1 := wave.AddSample(100);
    var r2 := wave.AddSample(200);
    var bytes := wave.ToByteArray();
    length := |bytes.elems|;
  }

  /**
    A rejected first sample still leaves the data sub-chunk header behind:
    the file is 44 bytes long and its data chunk is empty.
   */
  method RejectedFirstSample() returns (outcome: Outcome, length: int, dataSize: int)
    ensures outcome == Fail(SampleOutOfRange8(256))
    ensures length == 44 && dataSize == 0
  {
    var created := Create(1, 8000, 8);
    var wave := created.value;
    outcome := wave.AddSample(256);
    dataSize := wave.DataChunkSize();
    var bytes := wave.ToByteArray();
    length := |bytes.elems|;
  }

  /** Before any sample the data chunk size is -8 and the total sample count is negative. */
  method NoSamples() returns (dataSize: int, total: real)
    ensures dataSize == -8 && total == -4.0
  {
    var created := Create(2, 22050, 16);
    var wave := created.value;
    dataSize := wave.DataChunkSize();
    total := wave.TotalSampleCount();
  }

  /** A stereo 16-bit sample on both channels: four bytes, two samples, one per channel. */
  method StereoSixteenBit() returns (data: seq<Byte>, perChannel: Number)
    ensures data == [254, 255, 254, 255]
    ensures perChannel == Finite(1.0)
  {
    var created := Create(2, 44100, 16);
    var wave := created.value;
    var outcome := wave.AddSampleToAllChannels(-2);
    assert outcome.Pass?;
    data := wave.data.elems[DataStart..];
    perChannel := wave.SampleCountInOneChannel();
  }

  /** At 16 bits a zero sample is written as 0x0000 by the corrected conversion. */
  method ZeroSixteenBitSample() returns (data: seq<Byte>)
    ensures data == [0x00, 0x00]
  {
    var created := Create(1, 8000, 16);
    var wave := created.value;
    var outcome := wave.AddSample(0);
    data := wave.data.elems[DataStart..];
  }

  /** Any bits-per-sample other than 8 and 16 is refused at construction. */
  method UnsupportedSampleSize() returns (refused: Option<Error>)
    ensures refused == Some(UnsupportedBitsPerSample(24))
  {
    var created := Create(1, 8000, 24);
    refused := if created.Err? then Some(created.error) else None;
  }
}
