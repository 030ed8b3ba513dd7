/**
 * What the WAV parser promises, stated over the bytes of the file: which
 * files it accepts, which error the first failing check reports, and what a
 * successful parse records.
 */
module WavProperties {
  import opened Types
  import opened ByteStream
  import opened WavFormat
  import opened Arithmetic

  /** The four ASCII characters `tag` stand at offset `off` of `f`. */
  predicate HasTag(f: seq<uint8>, off: nat, tag: string)
    requires IsAscii(tag)
  {
    off + |tag| <= |f| && f[off..off + |tag|] == Ascii(tag)
  }

  /** "RIFF" at 0, "WAVE" at 8 and "fmt " at 12. */
  predicate IsRiffWaveFmt(f: seq<uint8>) {
    HasTag(f, 0, "RIFF") && HasTag(f, 8, "WAVE") && HasTag(f, 12, "fmt ")
  }

  /** A 16-byte fmt chunk describing monaural linear PCM. */
  predicate IsMonoPcmFormat(f: seq<uint8>) {
    |f| >= 24 && U32At(f, 16) == 16 && U16At(f, 20) == 1 && U16At(f, 22) == 1
  }

  /** The files the parser accepts, described field by field. */
  predicate WellFormedWav(f: seq<uint8>) {
    && IsRiffWaveFmt(f)
    && IsMonoPcmFormat(f)
    && |f| >= HeaderSize
    && HasTag(f, 36, "data")
    && (U16At(f, 34) == 8 || U16At(f, 34) == 16)
    && HeaderSize + U32At(f, 40) / (U16At(f, 34) / 8) * (U16At(f, 34) / 8) <= |f|
  }

  /** The value of a four-byte little-endian field. */
  lemma LittleEndian4(s: seq<uint8>)
    requires |s| == 4
    ensures LittleEndian(s) == s[0] as int + 0x100 * (s[1] as int) + 0x1_0000 * (s[2] as int) + 0x100_0000 * (s[3] as int)
  {
    assert s[3..][1..] == [];
    assert LittleEndian(s[3..]) == s[3];
    assert s[2..][1..] == s[3..];
    assert LittleEndian(s[2..]) == s[2] as int + 0x100 * (s[3] as int);
    assert s[1..][1..] == s[2..];
    assert LittleEndian(s[1..]) == s[1] as int + 0x100 * (s[2] as int) + 0x1_0000 * (s[3] as int);
  }

  /** A four-character tag read little-endian. */
  lemma TagValue(tag: string)
    requires |tag| == 4 && IsAscii(tag)
    ensures LittleEndian(Ascii(tag)) ==
      tag[0] as int + 0x100 * (tag[1] as int) + 0x1_0000 * (tag[2] as int) + 0x100_0000 * (tag[3] as int)
  {
    LittleEndian4(Ascii(tag));
  }

  /** The four tag constants are the little-endian readings of their ASCII names. */
  lemma TagSpellings()
    ensures RiffTag == LittleEndian(Ascii("RIFF"))
    ensures WaveTag == LittleEndian(Ascii("WAVE"))
    ensures FmtTag == LittleEndian(Ascii("fmt "))
    ensures DataTag == LittleEndian(Ascii("data"))
  {
    TagValue("RIFF");
    TagValue("WAVE");
    TagValue("fmt ");
    TagValue("data");
  }

  /** Comparing the uint32 at `off` with a tag's value compares the four bytes. */
  lemma TagCompare(f: seq<uint8>, off: nat, tag: string)
    requires IsAscii(tag) && |tag| == 4 && off + 4 <= |f|
    ensures U32At(f, off) == LittleEndian(Ascii(tag)) <==> HasTag(f, off, tag)
  {
    if U32At(f, off) == LittleEndian(Ascii(tag)) {
      LittleEndianInjective(f[off..off + 4], Ascii(tag));
    }
  }

  /** The tag checks of the header, stated on the bytes. */
  lemma TagChecks(f: seq<uint8>)
    ensures |f| >= 4 ==> (U32At(f, 0) == RiffTag <==> HasTag(f, 0, "RIFF"))
    ensures |f| >= 12 ==> (U32At(f, 8) == WaveTag <==> HasTag(f, 8, "WAVE"))
    ensures |f| >= 16 ==> (U32At(f, 12) == FmtTag <==> HasTag(f, 12, "fmt "))
    ensures |f| >= 40 ==> (U32At(f, 36) == DataTag <==> HasTag(f, 36, "data"))
  {
    TagSpellings();
    if |f| >= 4 { TagCompare(f, 0, "RIFF"); }
    if |f| >= 12 { TagCompare(f, 8, "WAVE"); }
    if |f| >= 16 { TagCompare(f, 12, "fmt "); }
    if |f| >= 40 { TagCompare(f, 36, "data"); }
  }

  /** A wrong "RIFF", "WAVE" or "fmt " tag is an invalid-format error, checked in that order. */
  lemma RejectsBadChunkTags(f: seq<uint8>)
    ensures |f| >= 4 && !HasTag(f, 0, "RIFF") ==> WavSpec(f) == Err(InvalidFormat)
    ensures |f| >= 12 && HasTag(f, 0, "RIFF") && !HasTag(f, 8, "WAVE") ==>
      WavSpec(f) == Err(InvalidFormat)
    ensures |f| >= 16 && HasTag(f, 0, "RIFF") && HasTag(f, 8, "WAVE") && !HasTag(f, 12, "fmt ") ==>
      WavSpec(f) == Err(InvalidFormat)
  {
    TagChecks(f);
  }

  /**
   * After good tags: a fmt chunk size other than 16 is an invalid-format
   * error, a format code other than 1 reports that only linear PCM is
   * supported, and a channel count other than 1 that only mono is.
   */
  lemma RejectsUnsupportedFormat(f: seq<uint8>)
    requires IsRiffWaveFmt(f)
    ensures |f| >= 20 && U32At(f, 16) != 16 ==> WavSpec(f) == Err(InvalidFormat)
    ensures |f| >= 22 && U32At(f, 16) == 16 && U16At(f, 20) != 1 ==> WavSpec(f) == Err(NotLinearPcm)
    ensures |f| >= 24 && U32At(f, 16) == 16 && U16At(f, 20) == 1 && U16At(f, 22) != 1 ==>
      WavSpec(f) == Err(NotMonaural)
  {
    TagChecks(f);
  }

  /**
   * The "data" tag is checked before the bit depth: a bad tag is an
   * invalid-format error whatever the bits-per-sample field holds, and only
   * with a good tag and a complete header does a bit depth other than 8 or
   * 16 decide the error.
   */
  lemma DataTagCheckedBeforeBitDepth(f: seq<uint8>)
    requires IsRiffWaveFmt(f) && IsMonoPcmFormat(f)
    ensures |f| >= 40 && !HasTag(f, 36, "data") ==> WavSpec(f) == Err(InvalidFormat)
    ensures |f| >= HeaderSize && HasTag(f, 36, "data") && U16At(f, 34) != 8 && U16At(f, 34) != 16 ==>
      WavSpec(f) == Err(UnsupportedBits)
  {
    TagChecks(f);
  }

  /**
   * A file shorter than the 44-byte header never parses, and a data chunk
   * shorter than its declared size is a length error.
   */
  lemma TruncatedFilesFail(f: seq<uint8>)
    ensures |f| < HeaderSize ==> WavSpec(f).Err?
    ensures |f| < 40 && IsRiffWaveFmt(f) && IsMonoPcmFormat(f) ==> WavSpec(f) == Err(InvalidLength)
    ensures |f| >= HeaderSize && IsRiffWaveFmt(f) && IsMonoPcmFormat(f) && HasTag(f, 36, "data")
      && (U16At(f, 34) == 8 || U16At(f, 34) == 16)
      && |f| < HeaderSize + U32At(f, 40) / (U16At(f, 34) / 8) * (U16At(f, 34) / 8)
      ==> WavSpec(f) == Err(InvalidLength)
  {
    TagChecks(f);
  }

  /** The parser accepts exactly the well-formed files. */
  lemma WavSpecOkIff(f: seq<uint8>)
    ensures WavSpec(f).Ok? <==> WellFormedWav(f)
  {
    TagChecks(f);
  }

  /**
   * A successful parse records the rate at offset 24 and data size / (bits
   * / 8) samples: an 8-bit sample is the byte itself, a 16-bit sample the
   * rescaled signed little-endian value.
   */
  lemma SuccessfulParse(f: seq<uint8>)
    requires WavSpec(f).Ok?
    ensures |f| >= HeaderSize
    ensures WavSpec(f).value.samplingFreq == U32At(f, 24)
    ensures |WavSpec(f).value.samples| == U32At(f, 40) / (U16At(f, 34) / 8)
    ensures U16At(f, 34) == 8 ==>
      forall k :: 0 <= k < |WavSpec(f).value.samples| ==> WavSpec(f).value.samples[k] == f[HeaderSize + k]
    ensures U16At(f, 34) == 16 ==>
      forall k :: 0 <= k < |WavSpec(f).value.samples| ==>
        HeaderSize + 2 * k + 2 <= |f| &&
        WavSpec(f).value.samples[k] == Rescale16(AsInt16(U16At(f, HeaderSize + 2 * k)))
  {
    var h := HeaderSpec(f).value;
    var bits := h.bitsPerSample;
    var count := h.dataChunkSize / SampleWidth(bits);
    forall k | 0 <= k < count
      ensures HeaderSize + (k + 1) * SampleWidth(bits) <= |f|
      ensures WavSpec(f).value.samples[k] == Sample(f, bits, k)
    {
      SamplesAt(f, bits, count, k);
    }
  }

  /** Bytes after the samples read do not change them. */
  lemma {:induction false} SamplesIgnoreTrailing(f: seq<uint8>, extra: seq<uint8>, bits: nat, count: nat)
    requires bits == 8 || bits == 16
    requires HeaderSize + count * SampleWidth(bits) <= |f|
    ensures Samples(f + extra, bits, count) == Samples(f, bits, count)
  {
    if count > 0 {
      MulLeq(count - 1, count, SampleWidth(bits));
      SamplesIgnoreTrailing(f, extra, bits, count - 1);
      var g := f + extra;
      var off := HeaderSize + 2 * (count - 1);
      if bits == 16 {
        assert g[off..off + 2] == f[off..off + 2];
      }
    }
  }

  /** Bytes after the declared data chunk do not change the parse. */
  lemma TrailingBytesIgnored(f: seq<uint8>, extra: seq<uint8>)
    requires WavSpec(f).Ok?
    ensures WavSpec(f + extra) == WavSpec(f)
  {
    var g := f + extra;
    forall off: nat | off + 4 <= |f|
      ensures U32At(g, off) == U32At(f, off)
    {
      assert g[off..off + 4] == f[off..off + 4];
    }
    forall off: nat | off + 2 <= |f|
      ensures U16At(g, off) == U16At(f, off)
    {
      assert g[off..off + 2] == f[off..off + 2];
    }
    assert ChunkTagsCheck(g) == ChunkTagsCheck(f);
    assert FormatCheck(g) == FormatCheck(f);
    assert SampleFieldsSpec(g) == SampleFieldsSpec(f);
    var h := HeaderSpec(f).value;
    var bits := h.bitsPerSample;
    var count := h.dataChunkSize / SampleWidth(bits);
    SamplesIgnoreTrailing(f, extra, bits, count);
    assert DataSpec(g, h) == DataSpec(f, h);
  }

  /** The 16-bit rescale keeps the order of samples. */
  lemma Rescale16Monotone(a: int, b: int)
    requires -32768 <= a <= b < 32768
    ensures Rescale16(a) <= Rescale16(b)
  {
  }

  /** The 16-bit extremes map to the 8-bit extremes. */
  lemma Rescale16Endpoints()
    ensures Rescale16(-32768) == 0
    ensures Rescale16(32767) == 255
  {
  }
}
