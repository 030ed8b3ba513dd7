/**
 * The WAV container parser behind `Wav::create`: the canonical 44-byte
 * RIFF/WAVE header of a mono linear-PCM file, followed by 8- or 16-bit
 * samples that are reduced to unsigned 8-bit samples.
 *
 * `WavSpec` says, by fixed offsets, what parsing a file yields; `ParseWav`
 * reads the file field by field through an `InputStream`, in file order, and
 * is proved to yield exactly `WavSpec`.
 */
module WavFormat {
  import opened Types
  import opened ByteStream
  import opened Arithmetic

  const HeaderSize := 44

  /** The little-endian values of the four chunk tags. */
  const RiffTag := 0x4646_4952
  const WaveTag := 0x4556_4157
  const FmtTag := 0x2074_6d66
  const DataTag := 0x6174_6164

  /** The only accepted fmt chunk size, format code and channel count. */
  const FmtChunkSize := 16
  const LinearPcm := 1
  const Monaural := 1

  const InvalidFormat := "Invalid data format."
  const NotLinearPcm := "Invalid data format. This supports only uncompressed linear PCM data."
  const NotMonaural := "Invalid data format. This supports only monaural audio."
  const UnsupportedBits := "This only supports 8 or 16 bits per sampling data."

  /** What a successful parse keeps: the sampling rate and the 8-bit samples. */
  datatype WavData = WavData(samplingFreq: uint32, samples: seq<uint8>)

  /** The uint32 stored little-endian at `off`. */
  function U32At(f: seq<uint8>, off: nat): (v: nat)
    requires off + 4 <= |f|
    ensures v < 0x1_0000_0000
  {
    assert Pow256(4) == 0x1_0000_0000 by {
      assert Pow256(2) == 0x1_0000;
    }
    LittleEndian(f[off..off + 4])
  }

  /** The uint16 stored little-endian at `off`. */
  function U16At(f: seq<uint8>, off: nat): (v: nat)
    requires off + 2 <= |f|
    ensures v < 0x1_0000
  {
    LittleEndian(f[off..off + 2])
  }

  /** The int16 whose two's-complement bit pattern is `v`. */
  function AsInt16(v: nat): (s: int)
    requires v < 0x1_0000
    ensures -32768 <= s < 32768
    ensures s % 0x1_0000 == v
  {
    if v < 0x8000 then v else v - 0x1_0000
  }

  /**
   * A signed 16-bit sample shifted to [0, 65535] and rescaled to [0, 255]:
   * trunc((s + 32768) / 65535 * 255), with exact arithmetic.
   */
  function Rescale16(s: int): (d: int)
    requires -32768 <= s < 32768
    ensures 0 <= d <= 255
  {
    (s + 32768) * 255 / 65535
  }

  /** Bytes per sample for a supported bit depth. */
  function SampleWidth(bits: nat): nat {
    bits / 8
  }

  /** The k-th sample of the data chunk, reduced to 8 bits. */
  function Sample(f: seq<uint8>, bits: nat, k: nat): uint8
    requires bits == 8 || bits == 16
    requires HeaderSize + (k + 1) * SampleWidth(bits) <= |f|
  {
    if bits == 8 then f[HeaderSize + k]
    else Rescale16(AsInt16(U16At(f, HeaderSize + 2 * k)))
  }

  /** The first `count` samples of the data chunk, each reduced to 8 bits. */
  function Samples(f: seq<uint8>, bits: nat, count: nat): (s: seq<uint8>)
    requires bits == 8 || bits == 16
    requires HeaderSize + count * SampleWidth(bits) <= |f|
    ensures |s| == count
  {
    if count == 0 then []
    else
      MulLeq(count - 1, count, SampleWidth(bits));
      Samples(f, bits, count - 1) + [Sample(f, bits, count - 1)]
  }

  /** Sample k of the first `count` samples is the k-th sample of the data chunk. */
  lemma {:induction false} SamplesAt(f: seq<uint8>, bits: nat, count: nat, k: nat)
    requires bits == 8 || bits == 16
    requires HeaderSize + count * SampleWidth(bits) <= |f|
    requires k < count
    ensures HeaderSize + (k + 1) * SampleWidth(bits) <= |f|
    ensures Samples(f, bits, count)[k] == Sample(f, bits, k)
  {
    MulLeq(count - 1, count, SampleWidth(bits));
    if k < count - 1 {
      SamplesAt(f, bits, count - 1, k);
    }
  }

  /** The header fields a successful header parse keeps. */
  datatype Header = Header(samplingFreq: uint32, bitsPerSample: nat, dataChunkSize: nat)

  /** The outcome of a run of header checks that keeps no value. */
  datatype Check = Pass | Fail(error: string)

  /*
   * Reading the 44-byte header checks each field in file order: the first
   * failing check decides the error, and a checked field that lies past the
   * end of the file is a length error. The chunk size (offset 4), byte rate
   * (28) and block align (32) are read without a check, so a file that ends
   * inside them fails at the next checked field. The header is split into
   * three runs of fields: the chunk tags, the format fields and the rest.
   */

  /** The "RIFF" tag at 0, the "WAVE" form type at 8 and the "fmt " tag at 12. */
  function ChunkTagsCheck(f: seq<uint8>): (c: Check)
    ensures c.Pass? ==> |f| >= 16
  {
    if |f| < 4 then Fail(InvalidLength)
    else if U32At(f, 0) != RiffTag then Fail(InvalidFormat)
    else if |f| < 12 then Fail(InvalidLength)
    else if U32At(f, 8) != WaveTag then Fail(InvalidFormat)
    else if |f| < 16 then Fail(InvalidLength)
    else if U32At(f, 12) != FmtTag then Fail(InvalidFormat)
    else Pass
  }

  /** The fmt chunk size at 16, the format code at 20 and the channel count at 22. */
  function FormatCheck(f: seq<uint8>): (c: Check)
    requires |f| >= 16
    ensures c.Pass? ==> |f| >= 24
  {
    if |f| < 20 then Fail(InvalidLength)
    else if U32At(f, 16) != FmtChunkSize then Fail(InvalidFormat)
    else if |f| < 22 then Fail(InvalidLength)
    else if U16At(f, 20) != LinearPcm then Fail(NotLinearPcm)
    else if |f| < 24 then Fail(InvalidLength)
    else if U16At(f, 22) != Monaural then Fail(NotMonaural)
    else Pass
  }

  /** The rate at 24, the bits per sample at 34, the "data" tag at 36 and the data size at 40. */
  function SampleFieldsSpec(f: seq<uint8>): (r: Result<Header>)
    requires |f| >= 24
    ensures r.Ok? ==> |f| >= HeaderSize
  {
    if |f| < 28 then Err(InvalidLength)
    else if |f| < 36 then Err(InvalidLength)
    else if |f| < 40 then Err(InvalidLength)
    else if U32At(f, 36) != DataTag then Err(InvalidFormat)
    else if |f| < HeaderSize then Err(InvalidLength)
    else Ok(Header(U32At(f, 24), U16At(f, 34), U32At(f, 40)))
  }

  /** The result of reading the whole header of `f`. */
  function HeaderSpec(f: seq<uint8>): (r: Result<Header>)
    ensures r.Ok? ==> |f| >= HeaderSize
  {
    match ChunkTagsCheck(f)
    case Fail(e) => Err(e)
    case Pass =>
      match FormatCheck(f)
      case Fail(e) => Err(e)
      case Pass => SampleFieldsSpec(f)
  }

  /**
   * The result of reading the data chunk of `f` once its header `h` has been
   * read: the bit depth must be 8 or 16, and the file must hold every sample
   * the data chunk size announces.
   */
  function DataSpec(f: seq<uint8>, h: Header): (r: Result<WavData>)
    ensures r.Ok? ==> h.bitsPerSample == 8 || h.bitsPerSample == 16
    ensures r.Ok? ==> r.value.samplingFreq == h.samplingFreq
    ensures r.Ok? ==> HeaderSize + |r.value.samples| * SampleWidth(h.bitsPerSample) <= |f|
  {
    var bits := h.bitsPerSample;
    if bits != 8 && bits != 16 then Err(UnsupportedBits)
    else
      var count := h.dataChunkSize / SampleWidth(bits);
      if |f| < HeaderSize + count * SampleWidth(bits) then Err(InvalidLength)
      else Ok(WavData(h.samplingFreq, Samples(f, bits, count)))
  }

  /** The result of parsing the whole file `f`. */
  function WavSpec(f: seq<uint8>): (r: Result<WavData>)
    ensures r.Ok? ==> |f| >= HeaderSize
    ensures r.Ok? ==> HeaderSize + |r.value.samples| * SampleWidth(U16At(f, 34)) <= |f|
  {
    match HeaderSpec(f)
    case Err(e) => Err(e)
    case Ok(h) => DataSpec(f, h)
  }

  /** Reads and checks the chunk tags. */
  method ReadChunkTags(fs: InputStream) returns (c: Check)
    requires fs.Valid() && fs.pos == 0 && !fs.failed
    modifies fs
    ensures fs.Valid()
    ensures c == ChunkTagsCheck(fs.bytes)
    ensures c.Pass? ==> fs.pos == 16 && !fs.failed
    ensures |fs.bytes| >= 4 && U32At(fs.bytes, 0) != RiffTag ==> fs.pos == 4 && !fs.failed
  {
    var res := fs.Read(4);
    if res.Err? { return Fail(res.error); }
    if res.value != RiffTag { return Fail(InvalidFormat); }
    var chunkSize := fs.Read(4);  // read without a check

    res := fs.Read(4);
    if res.Err? { return Fail(res.error); }
    if res.value != WaveTag { return Fail(InvalidFormat); }

    res := fs.Read(4);
    if res.Err? { return Fail(res.error); }
    if res.value != FmtTag { return Fail(InvalidFormat); }
    return Pass;
  }

  /** Reads and checks the fmt chunk size, the format code and the channel count. */
  method ReadFormat(fs: InputStream) returns (c: Check)
    requires fs.Valid() && fs.pos == 16 && !fs.failed
    modifies fs
    ensures fs.Valid()
    ensures c == FormatCheck(fs.bytes)
    ensures c.Pass? ==> fs.pos == 24 && !fs.failed
  {
    var res := fs.Read(4);
    if res.Err? { return Fail(res.error); }
    if res.value != FmtChunkSize { return Fail(InvalidFormat); }

    var res16 := fs.Read(2);
    if res16.Err? { return Fail(res16.error); }
    if res16.value != LinearPcm { return Fail(NotLinearPcm); }

    res16 := fs.Read(2);
    if res16.Err? { return Fail(res16.error); }
    if res16.value != Monaural { return Fail(NotMonaural); }
    return Pass;
  }

  /** Reads the rate, the bits per sample, the "data" tag and the data size. */
  method ReadSampleFields(fs: InputStream) returns (r: Result<Header>)
    requires fs.Valid() && fs.pos == 24 && !fs.failed
    modifies fs
    ensures fs.Valid()
    ensures r == SampleFieldsSpec(fs.bytes)
    ensures r.Ok? ==> fs.pos == HeaderSize && !fs.failed
  {
    var res := fs.Read(4);
    if res.Err? { return Err(res.error); }
    var sampleFreq := res.value;
    var bytesPerSec := fs.Read(4);  // read without a check
    var blockSize := fs.Read(2);    // read without a check

    var res16 := fs.Read(2);
    if res16.Err? { return Err(res16.error); }
    var bitsPerSample := res16.value;

    res := fs.Read(4);
    if res.Err? { return Err(res.error); }
    if res.value != DataTag { return Err(InvalidFormat); }

    res := fs.Read(4);
    if res.Err? { return Err(res.error); }
    var dataChunkSize := res.value;
    return Ok(Header(sampleFreq, bitsPerSample, dataChunkSize));
  }

  /** Reads sample k of the data chunk at the cursor and reduces it to 8 bits. */
  method ReadSample(fs: InputStream, bits: nat, k: nat) returns (r: Result<uint8>)
    requires bits == 8 || bits == 16
    requires fs.Valid() && !fs.failed && fs.pos == HeaderSize + k * SampleWidth(bits)
    modifies fs
    ensures fs.Valid()
    ensures HeaderSize + (k + 1) * SampleWidth(bits) <= |fs.bytes| ==>
      r == Ok(Sample(fs.bytes, bits, k)) && fs.pos == HeaderSize + (k + 1) * SampleWidth(bits) && !fs.failed
    ensures HeaderSize + (k + 1) * SampleWidth(bits) > |fs.bytes| ==> r == Err(InvalidLength)
  {
    if bits == 8 {
      var res8 := fs.Read(1);
      if res8.Err? { return Err(res8.error); }
      return Ok(res8.value);
    } else {
      var res16i := fs.Read(2);
      if res16i.Err? { return Err(res16i.error); }
      return Ok(Rescale16(AsInt16(res16i.value)));
    }
  }

  /** Reads the samples of the data chunk and reduces each to 8 bits. */
  method ReadSamples(fs: InputStream, h: Header) returns (r: Result<WavData>)
    requires fs.Valid() && fs.pos == HeaderSize && !fs.failed
    modifies fs
    ensures r == DataSpec(fs.bytes, h)
  {
    var bitsPerSample := h.bitsPerSample;
    if bitsPerSample != 8 && bitsPerSample != 16 { return Err(UnsupportedBits); }

    ghost var file := fs.bytes;
    var width := SampleWidth(bitsPerSample);
    var dataSize := h.dataChunkSize / width;
    var tmp: seq<uint8> := [];
    var i := 0;
    while i < dataSize
      invariant 0 <= i <= dataSize
      invariant fs.Valid() && fs.bytes == file && !fs.failed
      invariant fs.pos == HeaderSize + i * width
      invariant |tmp| == i
      invariant HeaderSize + i * width <= |file|
      invariant tmp == Samples(file, bitsPerSample, i)
    {
      var res := ReadSample(fs, bitsPerSample, i);
      if res.Err? {
        MulLeq(i + 1, dataSize, width);
        return Err(res.error);
      }
      tmp := tmp + [res.value];
      i := i + 1;
    }
    return Ok(WavData(h.samplingFreq, tmp));
  }

  /** `Wav::create` once the file is open: the header, then the samples. */
  method ParseWav(file: seq<uint8>) returns (r: Result<WavData>)
    ensures r == WavSpec(file)
  {
    var fs := new InputStream(file);
    var tags := ReadChunkTags(fs);
    if tags.Fail? { return Err(tags.error); }
    var format := ReadFormat(fs);
    if format.Fail? { return Err(format.error); }
    var header := ReadSampleFields(fs);
    if header.Err? { return Err(header.error); }
    r := ReadSamples(fs, header.value);
  }
}
