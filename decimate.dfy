/**
 * The down-sampling path of `Wav::calc`: nearest-neighbour decimation with
 * no filter. The ratio M/S of the device rate M to the source rate S is
 * taken as an exact fraction; the output has floor(n·M/S) samples, clamped
 * to the buffer capacity, and slot i copies source sample floor(i·S/M).
 */
module Decimation {
  import opened Types
  import opened Arithmetic

  function Min(a: nat, b: nat): nat {
    if a <= b then a else b
  }

  /** The output length: floor(n·M/S), but never more than `cap`. */
  function DecimatedLength(n: nat, srcFreq: nat, modFreq: nat, cap: nat): (len: nat)
    requires srcFreq > 0
    ensures len <= cap
    ensures len * srcFreq <= n * modFreq
    ensures len == cap || (len + 1) * srcFreq > n * modFreq
  {
    var naive := n * modFreq / srcFreq;
    DivMulLeq(n * modFreq, srcFreq);
    MulLeq(Min(naive, cap), naive, srcFreq);
    Min(naive, cap)
  }

  /** The source sample that output slot i copies: floor(i·S/M), always inside the source. */
  function SourceIndex(i: nat, n: nat, srcFreq: nat, modFreq: nat): (k: nat)
    requires srcFreq > 0 && modFreq > 0
    requires i < n * modFreq / srcFreq
    ensures k < n
  {
    SourceIndexInRange(i, n, srcFreq, modFreq);
    i * srcFreq / modFreq
  }

  lemma SourceIndexInRange(i: nat, n: nat, srcFreq: nat, modFreq: nat)
    requires srcFreq > 0 && modFreq > 0
    requires i < n * modFreq / srcFreq
    ensures i * srcFreq / modFreq < n
  {
    var k := i * srcFreq / modFreq;
    SlotFits(i, n, srcFreq, modFreq);
    assert (i + 1) * srcFreq == i * srcFreq + srcFreq;
    DivMulLeq(i * srcFreq, modFreq);
    if k >= n {
      MulLeq(n, k, modFreq);
    }
  }

  /** Slot i below floor(n·M/S) ends within the source: (i + 1)·S <= n·M. */
  lemma SlotFits(i: nat, n: nat, srcFreq: nat, modFreq: nat)
    requires srcFreq > 0
    requires i < n * modFreq / srcFreq
    ensures (i + 1) * srcFreq <= n * modFreq
  {
    MulLeq(i + 1, n * modFreq / srcFreq, srcFreq);
    DivMulLeq(n * modFreq, srcFreq);
  }

  /** The decimated buffer. */
  function Decimated(src: seq<uint8>, srcFreq: nat, modFreq: nat, cap: nat): (out: seq<uint8>)
    requires srcFreq > 0 && modFreq > 0
    ensures |out| == DecimatedLength(|src|, srcFreq, modFreq, cap)
    ensures forall i :: 0 <= i < |out| ==> out[i] in src
  {
    var len := DecimatedLength(|src|, srcFreq, modFreq, cap);
    seq(len, i requires 0 <= i < len => src[SourceIndex(i, |src|, srcFreq, modFreq)])
  }

  /** Fills the output buffer slot by slot, as `Wav::calc` does. */
  method Decimate(src: seq<uint8>, srcFreq: nat, modFreq: nat, cap: nat) returns (out: seq<uint8>)
    requires srcFreq > 0 && modFreq > 0
    ensures out == Decimated(src, srcFreq, modFreq, cap)
  {
    ghost var naive := |src| * modFreq / srcFreq;
    var bufferSize := |src| * modFreq / srcFreq;
    bufferSize := Min(bufferSize, cap);
    var sampleBuf := new uint8[bufferSize];
    for i := 0 to bufferSize
      invariant bufferSize <= naive
      invariant forall k :: 0 <= k < i ==> sampleBuf[k] == src[SourceIndex(k, |src|, srcFreq, modFreq)]
    {
      SourceIndexInRange(i, |src|, srcFreq, modFreq);
      sampleBuf[i] := src[i * srcFreq / modFreq];
    }
    out := sampleBuf[..];
  }

  /** Later output slots never copy earlier source samples. */
  lemma SourceIndexMonotone(i: nat, j: nat, n: nat, srcFreq: nat, modFreq: nat)
    requires srcFreq > 0 && modFreq > 0 && i <= j
    requires j < n * modFreq / srcFreq
    ensures i < n * modFreq / srcFreq
    ensures SourceIndex(i, n, srcFreq, modFreq) <= SourceIndex(j, n, srcFreq, modFreq)
  {
    MulLeq(i, j, srcFreq);
    var a, b := i * srcFreq / modFreq, j * srcFreq / modFreq;
    DivMulLeq(i * srcFreq, modFreq);
    if a > b {
      MulLeq(b + 1, a, modFreq);
    }
  }

  /** A constant source decimates to a constant buffer. */
  lemma DecimatedConstant(src: seq<uint8>, srcFreq: nat, modFreq: nat, cap: nat, v: uint8)
    requires srcFreq > 0 && modFreq > 0
    requires forall k :: 0 <= k < |src| ==> src[k] == v
    ensures forall i :: 0 <= i < |Decimated(src, srcFreq, modFreq, cap)| ==>
      Decimated(src, srcFreq, modFreq, cap)[i] == v
  {
  }

  /** At equal rates decimation copies the source, as long as it fits the capacity. */
  lemma {:induction false} DecimatedSameRate(src: seq<uint8>, freq: nat, cap: nat)
    requires freq > 0 && |src| <= cap
    ensures Decimated(src, freq, freq, cap) == src
  {
    MulDivCancel(|src|, freq);
    var out := Decimated(src, freq, freq, cap);
    forall i | 0 <= i < |src|
      ensures out[i] == src[i]
    {
      MulDivCancel(i, freq);
    }
  }
}
