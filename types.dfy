/** Value types shared by every part of the audio ingestion pipeline. */
module Types {

  /** An unsigned 8-bit value: one byte of a file or one modulation sample. */
  type uint8 = x: int | 0 <= x < 256

  /** An unsigned 32-bit value: the sampling rate a WAV header records. */
  type uint32 = x: int | 0 <= x < 0x1_0000_0000

  /** The `Result<T, std::string>` the loaders and the stream reader return. */
  datatype Result<+T> = Ok(value: T) | Err(error: string)

  /**
   * A file as the loaders see it: either it cannot be opened, or it can and
   * these are all of its bytes in file order.
   */
  datatype FileInput = Unreadable | Readable(bytes: seq<uint8>)

  /** True when every character of `s` fits in one byte. */
  predicate IsAscii(s: string) {
    forall i :: 0 <= i < |s| ==> s[i] as int < 256
  }

  /** The bytes that spell `s`, one byte per character. */
  function Ascii(s: string): (b: seq<uint8>)
    requires IsAscii(s)
    ensures |b| == |s|
    ensures forall i :: 0 <= i < |s| ==> b[i] == s[i] as int
  {
    if s == [] then [] else [s[0] as int as uint8] + Ascii(s[1..])
  }
}
