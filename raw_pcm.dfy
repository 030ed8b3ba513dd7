/**
 * The raw PCM loader behind `RawPCM::create`: no header, every byte of the
 * file is one unsigned 8-bit sample.
 */
module RawPcmFormat {
  import opened Types
  import opened ByteStream

  /**
   * Reads one byte at a time until a read fails, appending each to the
   * sample vector: the samples are exactly the file's bytes, in order.
   */
  method ReadAllBytes(file: seq<uint8>) returns (samples: seq<uint8>)
    ensures samples == file
  {
    var fs := new InputStream(file);
    samples := [];
    var res := fs.Read(1);
    while res.Ok?
      invariant fs.Valid() && fs.bytes == file
      invariant res.Ok? ==> !fs.failed && 1 <= fs.pos && res.value < 256
      invariant res.Ok? ==> samples + [res.value as uint8] == file[..fs.pos]
      invariant res.Err? ==> samples == file
      decreases |file| - fs.pos + (if res.Ok? then 1 else 0)
    {
      samples := samples + [res.value as uint8];
      res := fs.Read(1);
      if res.Ok? {
        assert file[..fs.pos] == file[..fs.pos - 1] + [file[fs.pos - 1]];
      }
    }
  }
}
