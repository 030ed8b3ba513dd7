/**
 * What the up-sampling path promises: the output length, where the
 * zero-stuffed samples land for an integer ratio, that circular indices stay
 * inside the buffer, and how normalisation maps the filtered values onto
 * [0, 255].
 */
module UpsamplingProperties {
  import opened Types
  import opened Upsampling

  /**
   * The output has n·trunc(M/S) samples: the ratio is truncated first, so a
   * source rate above the device rate gives an empty buffer.
   */
  lemma OutputLength(buf: seq<uint8>, srcFreq: real, modFreq: nat, taps: seq<real>)
    requires srcFreq > 0.0 && |taps| == NumTap
    ensures |UpsampledOutput(buf, srcFreq, modFreq, taps)| == |buf| * (modFreq as real / srcFreq).Floor
    ensures srcFreq > modFreq as real ==> UpsampledOutput(buf, srcFreq, modFreq, taps) == []
  {
  }

  lemma RealOfProduct(a: int, b: int)
    ensures (a * b) as real == a as real * b as real
  {
  }

  /** With an integer ratio r the up-sampled buffer is r times as long as the source. */
  lemma IntegerRatioLength(n: nat, srcFreq: real, modFreq: nat, r: nat)
    requires srcFreq > 0.0 && r >= 1 && modFreq as real == r as real * srcFreq
    ensures Ratio(srcFreq, modFreq) == r as real
    ensures UpsampledLength(n, srcFreq, modFreq) == n * r
  {
  }

  /**
   * With an integer ratio r, slot i holds source sample i / r when i is a
   * multiple of r and 0 otherwise.
   */
  lemma IntegerRatioSlot(buf: seq<uint8>, srcFreq: real, modFreq: nat, r: nat, i: nat)
    requires srcFreq > 0.0 && r >= 1 && modFreq as real == r as real * srcFreq
    requires i < |buf| * r
    ensures i / r < |buf|
    ensures i < |ZeroStuffed(buf, srcFreq, modFreq)|
    ensures ZeroStuffed(buf, srcFreq, modFreq)[i] == if i % r == 0 then buf[i / r] else 0
  {
    IntegerRatioLength(|buf|, srcFreq, modFreq, r);
    QuotientBelow(i, r, |buf|);
    var v := i as real / Ratio(srcFreq, modFreq);
    assert v == i as real / r as real;
    RealDivision(i, r);
    BelowReciprocal(i % r, r);
    assert ZeroStuffed(buf, srcFreq, modFreq)[i] == StuffedSample(buf, srcFreq, modFreq, i);
  }

  lemma QuotientBelow(i: nat, r: nat, n: nat)
    requires r >= 1 && i < n * r
    ensures i / r < n
  {
  }

  /** Dividing naturals as reals: the floor is the integer quotient, the fraction the remainder over r. */
  lemma RealDivision(i: nat, r: nat)
    requires r >= 1
    ensures (i as real / r as real).Floor == i / r
    ensures Frac(i as real / r as real) == (i % r) as real / r as real
  {
    var q, m := i / r, i % r;
    RealOfProduct(q, r);
    var f := m as real / r as real;
    assert 0.0 <= f < 1.0 by {
      assert f * r as real == m as real;
    }
    assert i as real / r as real == q as real + f by {
      assert i as real == q as real * r as real + m as real;
    }
  }

  /** m / r lies below 1 / r exactly when m is 0. */
  lemma BelowReciprocal(m: nat, r: nat)
    requires r >= 1
    ensures m as real / r as real < 1.0 / r as real <==> m == 0
  {
    assert m as real / r as real == m as real * (1.0 / r as real);
  }

  lemma ModUnique(y: int, n: int, q: int, r: int)
    requires n > 0 && y == q * n + r && 0 <= r < n
    ensures y % n == r
  {
    var q', r' := y / n, y % n;
    var d := q - q';
    assert d * n == r' - r;
  }

  lemma ModOfShift(x: int, n: nat)
    requires n > 0
    ensures (x + n) % n == x % n
  {
    var q, r := x / n, x % n;
    assert x + n == (q + 1) * n + r;
    ModUnique(x + n, n, q + 1, r);
  }

  /**
   * The circular index is the true remainder (i - j) mod n whenever
   * i - j + n does not wrap around, in particular whenever n >= j.
   */
  lemma CircularIndexNoWrap(i: nat, j: nat, n: nat)
    requires n > 0 && j <= i + n && i + n < SizeMod
    ensures CircularIndex(i, j, n) == (i - j) % n
  {
    assert (i - j + n) % SizeMod == i - j + n;
    ModOfShift(i - j, n);
  }

  /**
   * For a buffer shorter than the filter, the size_t wrap-around makes the
   * index differ from the true remainder: tap 30 around slot 0 of a 3-slot
   * buffer reads slot 1, where (0 - 30) mod 3 is 0. The index stays inside
   * the buffer all the same.
   */
  lemma CircularIndexWrapsForShortBuffers()
    ensures CircularIndex(0, 30, 3) == 1
    ensures (0 - 30) % 3 == 0
  {
  }

  /** Rounding a value in [0, 1/2) gives 0; rounding an integer gives itself. */
  lemma RoundFacts(y: real, z: int)
    ensures 0.0 <= y < 0.5 ==> Round(y) == 0
    ensures z >= 0 ==> Round(z as real) == z
  {
  }

  /** Slot i of the normalised buffer is filtered value i quantised over [min, upper]. */
  lemma NormalizedAt(v: seq<real>, i: nat)
    requires i < |v|
    ensures RunningMin(v) <= v[i] <= Upper(v) && RunningMin(v) < Upper(v)
    ensures Normalized(v)[i] == Quantize(v[i], RunningMin(v), Upper(v))
  {
  }

  /** The bottom of the range quantises to 0 and the top to 255. */
  lemma QuantizeEnds(lo: real, hi: real)
    requires lo < hi
    ensures Quantize(lo, lo, hi) == 0
    ensures Quantize(hi, lo, hi) == 255
  {
    assert (hi - lo) / (hi - lo) == 1.0;
    RoundFacts(0.0, 0);
    RoundFacts(255.0, 255);
  }

  /** Over a range one unit wide, a value less than epsilon above the bottom quantises to 0. */
  lemma QuantizeNearBottom(x: real, lo: real)
    requires lo <= x < lo + Epsilon
    ensures Quantize(x, lo, lo + 1.0) == 0
  {
    var t := (x - lo) / (lo + 1.0 - lo);
    assert t == x - lo;
    RoundFacts(255.0 * t, 0);
  }

  /** Quantisation keeps order. */
  lemma QuantizeMonotone(x: real, y: real, lo: real, hi: real)
    requires lo <= x <= y <= hi && lo < hi
    ensures Quantize(x, lo, hi) <= Quantize(y, lo, hi)
  {
    var tx, ty := (x - lo) / (hi - lo), (y - lo) / (hi - lo);
    assert tx <= ty by {
      assert tx * (hi - lo) == x - lo;
      assert ty * (hi - lo) == y - lo;
    }
    assert 255.0 * tx + 0.5 <= 255.0 * ty + 0.5;
  }

  /** When the filtered values span less than epsilon, every output sample is 0. */
  lemma SilentWhenFlat(v: seq<real>)
    requires RunningMax(v) - RunningMin(v) < Epsilon
    ensures forall i :: 0 <= i < |v| ==> Normalized(v)[i] == 0
  {
    forall i | 0 <= i < |v|
      ensures Normalized(v)[i] == 0
    {
      NormalizedAt(v, i);
      QuantizeNearBottom(v[i], RunningMin(v));
    }
  }

  /**
   * When the span is at least epsilon, the slot holding the minimum becomes 0
   * and the slot holding the maximum becomes 255.
   */
  lemma FullRangeWhenSpread(v: seq<real>, k: nat)
    requires k < |v| && RunningMax(v) - RunningMin(v) >= Epsilon
    ensures v[k] == RunningMin(v) ==> Normalized(v)[k] == 0
    ensures v[k] == RunningMax(v) ==> Normalized(v)[k] == 255
  {
    NormalizedAt(v, k);
    QuantizeEnds(RunningMin(v), Upper(v));
  }

  /**
   * Whenever some filtered value reaches DBL_MIN, none exceeds DBL_MAX and the
   * span is at least epsilon, both 0 and 255 occur in the output.
   */
  lemma OutputSpansFullRange(v: seq<real>, top: nat)
    requires top < |v| && v[top] >= DblMin
    requires forall i :: 0 <= i < |v| ==> v[i] <= DblMax
    requires RunningMax(v) - RunningMin(v) >= Epsilon
    ensures exists k :: 0 <= k < |v| && Normalized(v)[k] == 0
    ensures exists k :: 0 <= k < |v| && Normalized(v)[k] == 255
  {
    var lo, hi := RunningMin(v), RunningMax(v);
    if hi == DblMin {
      assert v[top] == hi;
    }
    assert hi in v && lo in v;
    var kHi :| 0 <= kHi < |v| && v[kHi] == hi;
    var kLo :| 0 <= kLo < |v| && v[kLo] == lo;
    FullRangeWhenSpread(v, kLo);
    FullRangeWhenSpread(v, kHi);
  }

  /** Normalisation keeps the order of the filtered values. */
  lemma NormalizedMonotone(v: seq<real>, a: nat, b: nat)
    requires a < |v| && b < |v| && v[a] <= v[b]
    ensures Normalized(v)[a] <= Normalized(v)[b]
  {
    NormalizedAt(v, a);
    NormalizedAt(v, b);
    QuantizeMonotone(v[a], v[b], RunningMin(v), Upper(v));
  }

  /** A constant filtered signal (a double) comes out as all zeros. */
  lemma ConstantIsSilent(v: seq<real>, c: real)
    requires c <= DblMax
    requires forall i :: 0 <= i < |v| ==> v[i] == c
    ensures forall i :: 0 <= i < |v| ==> Normalized(v)[i] == 0
  {
    forall i | 0 <= i < |v|
      ensures Normalized(v)[i] == 0
    {
      NormalizedAt(v, i);
      assert RunningMin(v) == c;
      QuantizeEnds(c, Upper(v));
    }
  }

  /** The filter's running sum over an all-zero buffer is 0, whatever the taps. */
  lemma {:induction false} TapSumOfSilence(x: seq<int>, taps: seq<real>, i: nat, k: nat)
    requires i < |x| && k <= |taps|
    requires forall j :: 0 <= j < |x| ==> x[j] == 0
    ensures TapSum(x, taps, i, k) == 0.0
  {
    if k > 0 {
      TapSumOfSilence(x, taps, i, k - 1);
    }
  }

  /**
   * A silent raw PCM source, every byte 0, comes out silent at any rates and
   * for any taps: the zero-stuffed buffer is all zeros, so is the filtered
   * one, and a constant filtered signal normalises to zeros.
   */
  lemma SilentSourceIsSilent(buf: seq<uint8>, srcFreq: real, modFreq: nat, taps: seq<real>)
    requires srcFreq > 0.0 && |taps| == NumTap
    requires forall k :: 0 <= k < |buf| ==> buf[k] == 0
    ensures forall i :: 0 <= i < |UpsampledOutput(buf, srcFreq, modFreq, taps)| ==>
      UpsampledOutput(buf, srcFreq, modFreq, taps)[i] == 0
  {
    var x := ZeroStuffed(buf, srcFreq, modFreq);
    forall j | 0 <= j < |x|
      ensures x[j] == 0
    {
      assert x[j] == StuffedSample(buf, srcFreq, modFreq, j);
    }
    var v := Filtered(x, taps);
    forall i | 0 <= i < |v|
      ensures v[i] == 0.0
    {
      TapSumOfSilence(x, taps, i, NumTap);
    }
    ConstantIsSilent(v, 0.0);
  }
}
