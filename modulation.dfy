/**
 * The two modulations built from files: `RawPCM`, from headerless 8-bit PCM
 * at a caller-given rate, and `Wav`, from a WAV file that records its own
 * rate. Each keeps the source rate and the samples it was created with and,
 * when built, fills its modulation buffer for the device's sampling rate:
 * `RawPCM` up-samples and filters, `Wav` decimates.
 *
 * The device's sampling rate and the buffer capacity belong to the device
 * library and are parameters of `Build` here.
 */
module Modulation {
  import opened Types
  import opened WavFormat
  import opened RawPcmFormat
  import opened Decimation
  import opened Upsampling

  const RawOpenError := "Error on opening file"
  const WavOpenError := "Error on opening file."

  /** A modulation from raw PCM data: one unsigned byte per sample. */
  class RawPCM {
    /** The rate the samples were recorded at, in Hz. */
    const samplingFreq: real
    /** The samples, as read from the file. */
    const buf: seq<uint8>
    /** The modulation buffer that `Build` fills. */
    var buffer: seq<uint8>

    /** Stores the rate and the samples as given; the buffer starts empty. */
    constructor (samplingFreq: real, buf: seq<uint8>)
      ensures this.samplingFreq == samplingFreq && this.buf == buf
      ensures buffer == []
    {
      this.samplingFreq := samplingFreq;
      this.buf := buf;
      buffer := [];
    }

    /**
     * Fails when the file cannot be opened; otherwise every byte of the
     * file becomes one sample, in order, at the given rate.
     */
    static method Create(file: FileInput, samplingFreq: real := 0.0) returns (r: Result<RawPCM>)
      ensures file.Unreadable? ==> r == Err(RawOpenError)
      ensures file.Readable? ==>
        && r.Ok? && fresh(r.value)
        && r.value.samplingFreq == samplingFreq
        && r.value.buf == file.bytes
        && r.value.buffer == []
    {
      if file.Unreadable? {
        return Err(RawOpenError);
      }
      var tmp := ReadAllBytes(file.bytes);
      var m := new RawPCM(samplingFreq, tmp);
      return Ok(m);
    }

    /**
     * Up-samples the samples to `modFreq`, filters them with `taps` and
     * normalises the result into the buffer.
     */
    method Build(modFreq: nat, taps: seq<real>)
      requires samplingFreq > 0.0 && |taps| == NumTap
      modifies this`buffer
      ensures buffer == UpsampledOutput(buf, samplingFreq, modFreq, taps)
    {
      var sampleBuf := ZeroStuff(buf, samplingFreq, modFreq);
      var lpfBuf, maxV, minV := LowPass(sampleBuf, taps);
      buffer := Normalize(lpfBuf, maxV, minV);
    }
  }

  /** A modulation from a mono linear-PCM WAV file. */
  class Wav {
    /** The rate the WAV header records, in Hz. */
    const samplingFreq: uint32
    /** The samples, reduced to 8 bits. */
    const buf: seq<uint8>
    /** The modulation buffer that `Build` fills. */
    var buffer: seq<uint8>

    /** Stores the rate and the samples as given; the buffer starts empty. */
    constructor (samplingFreq: uint32, buf: seq<uint8>)
      ensures this.samplingFreq == samplingFreq && this.buf == buf
      ensures buffer == []
    {
      this.samplingFreq := samplingFreq;
      this.buf := buf;
      buffer := [];
    }

    /**
     * Fails when the file cannot be opened, and with the parser's error
     * when the file is not a supported WAV file; otherwise keeps the rate
     * and the samples the parser read.
     */
    static method Create(file: FileInput) returns (r: Result<Wav>)
      ensures file.Unreadable? ==> r == Err(WavOpenError)
      ensures file.Readable? && WavSpec(file.bytes).Err? ==> r == Err(WavSpec(file.bytes).error)
      ensures file.Readable? && WavSpec(file.bytes).Ok? ==>
        && r.Ok? && fresh(r.value)
        && r.value.samplingFreq == WavSpec(file.bytes).value.samplingFreq
        && r.value.buf == WavSpec(file.bytes).value.samples
        && r.value.buffer == []
    {
      if file.Unreadable? {
        return Err(WavOpenError);
      }
      var parsed := ParseWav(file.bytes);
      if parsed.Err? {
        return Err(parsed.error);
      }
      var m := new Wav(parsed.value.samplingFreq, parsed.value.samples);
      return Ok(m);
    }

    /**
     * Decimates the samples to `modFreq` into the buffer, keeping at most
     * `cap` samples. The rate and the samples are only read.
     */
    method Build(modFreq: nat, cap: nat)
      requires samplingFreq > 0 && modFreq > 0
      modifies this`buffer
      ensures buffer == Decimated(buf, samplingFreq, modFreq, cap)
    {
      buffer := Decimate(buf, samplingFreq, modFreq, cap);
    }
  }

  /**
   * Building a raw PCM modulation twice with the same device parameters
   * gives the same buffer both times, of n·trunc(M/S) samples.
   */
  method RawPcmRebuild(samplingFreq: real, samples: seq<uint8>, modFreq: nat, taps: seq<real>)
    returns (first: seq<uint8>, second: seq<uint8>)
    requires samplingFreq > 0.0 && |taps| == NumTap
    ensures first == second
    ensures |first| == |samples| * (modFreq as real / samplingFreq).Floor
  {
    var m := new RawPCM(samplingFreq, samples);
    m.Build(modFreq, taps);
    first := m.buffer;
    m.Build(modFreq, taps);
    second := m.buffer;
  }

  /**
   * Building a WAV modulation twice with the same device parameters gives
   * the same buffer both times, never longer than the capacity.
   */
  method WavRebuild(samplingFreq: uint32, samples: seq<uint8>, modFreq: nat, cap: nat)
    returns (first: seq<uint8>, second: seq<uint8>)
    requires samplingFreq > 0 && modFreq > 0
    ensures first == second
    ensures |first| <= cap
  {
    var m := new Wav(samplingFreq, samples);
    m.Build(modFreq, cap);
    first := m.buffer;
    m.Build(modFreq, cap);
    second := m.buffer;
  }
}
