/**
 * The binary stream reader: `ReadFromStream<T>` over a `std::ifstream`
 * opened in binary mode. The stream is a byte sequence with a cursor and the
 * stream's fail flag; a read of `sizeof(T)` bytes decodes them little-endian.
 */
module ByteStream {
  import opened Types

  /** The error every short read reports. */
  const InvalidLength := "Invalid data length."

  /** 256 to the power k: one more than the largest k-byte unsigned value. */
  function Pow256(k: nat): (p: nat)
    ensures p >= 1
  {
    if k == 0 then 1 else 256 * Pow256(k - 1)
  }

  /** The unsigned integer whose little-endian encoding is `s`. */
  function LittleEndian(s: seq<uint8>): (v: nat)
    ensures v < Pow256(|s|)
  {
    if s == [] then 0 else s[0] + 256 * LittleEndian(s[1..])
  }

  /** Two encodings of the same width that decode to the same value are the same bytes. */
  lemma {:induction false} LittleEndianInjective(a: seq<uint8>, b: seq<uint8>)
    requires |a| == |b|
    requires LittleEndian(a) == LittleEndian(b)
    ensures a == b
  {
    if a != [] {
      assert a[0] == LittleEndian(a) % 256;
      assert b[0] == LittleEndian(b) % 256;
      LittleEndianInjective(a[1..], b[1..]);
      assert a == [a[0]] + a[1..];
      assert b == [b[0]] + b[1..];
    }
  }

  /**
   * An input file stream: the file's bytes, the read position and the fail
   * flag. Once a read has failed every later read fails too, and a failed
   * read leaves the position at the end of the file.
   */
  class InputStream {
    const bytes: seq<uint8>
    var pos: nat
    var failed: bool

    ghost predicate Valid()
      reads this
    {
      pos <= |bytes| && (failed ==> pos == |bytes|)
    }

    /** A freshly opened stream, positioned at the first byte. */
    constructor (bytes: seq<uint8>)
      ensures Valid()
      ensures this.bytes == bytes && pos == 0 && !failed
    {
      this.bytes := bytes;
      pos := 0;
      failed := false;
    }

    /**
     * Reads `width` bytes at the cursor and decodes them little-endian, or
     * fails with "Invalid data length." when the stream has already failed
     * or fewer than `width` bytes remain.
     */
    method Read(width: nat) returns (r: Result<nat>)
      requires Valid()
      modifies this
      ensures Valid()
      ensures old(!failed && pos + width <= |bytes|) ==>
        && r == Ok(LittleEndian(bytes[old(pos)..old(pos) + width]))
        && pos == old(pos) + width
        && !failed
      ensures !old(!failed && pos + width <= |bytes|) ==>
        r == Err(InvalidLength) && failed && pos == |bytes|
    {
      if failed || pos + width > |bytes| {
        failed := true;
        pos := |bytes|;
        return Err(InvalidLength);
      }
      r := Ok(LittleEndian(bytes[pos..pos + width]));
      pos := pos + width;
    }
  }
}
