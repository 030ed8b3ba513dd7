/**
 * The up-sampling path of `RawPCM::calc`: zero-stuffing by the truncated
 * ratio M/S of the device rate M to the source rate S, a 31-tap FIR filter
 * with circular indexing, and min/max normalisation into [0, 255].
 *
 * Doubles are idealised as exact reals. The filter taps are a parameter: the
 * source derives them from sin, which is not modelled, so only structural
 * and bound facts are proved about the filter.
 */
module Upsampling {
  import opened Types

  /** The number of filter taps. */
  const NumTap := 31

  /** One more than the largest size_t (64-bit): index arithmetic wraps here. */
  const SizeMod := 0x1_0000_0000_0000_0000

  /** DBL_EPSILON, 2^-52: the narrowest span of filtered values that is normalised. */
  const Epsilon: real := 1.0 / 4503599627370496.0

  /** DBL_MIN, 2^-1022: the smallest positive normal double, where the running maximum starts. */
  const DblMin: real := 1.0 / 44942328371557897693232629769725618340449424473557664318357520289433168951375240783177119330601884005280028469967848339414697442203604155623211857659868531094441973356216371319075554900311523529863270738021251442209537670585615720368478277635206809290837627671146574559986811484619929076208839082406056034304.0

  /** DBL_MAX, (2^53 - 1)·2^971: the largest double, where the running minimum starts. */
  const DblMax: real := 179769313486231570814527423731704356798070567525844996598917476803157260780028538760589558632766878171540458953514382464234321326889464182768467546703537516986049910576551282076245490090389328944075868508455133942304583236903222948165808559332123348274797826204144723168738177180919299881250404026184124858368.0

  /** The ratio of the device rate to the source rate. */
  function Ratio(srcFreq: real, modFreq: nat): (r: real)
    requires srcFreq > 0.0
    ensures r >= 0.0 && r * srcFreq == modFreq as real
  {
    modFreq as real / srcFreq
  }

  /** The fractional part of a non-negative value, as fmod(v, 1) gives it. */
  function Frac(v: real): (f: real)
    requires v >= 0.0
    ensures 0.0 <= f < 1.0
  {
    v - v.Floor as real
  }

  /**
   * The length of the up-sampled buffer: n times the ratio truncated to an
   * integer. The ratio is truncated before the multiplication, and there is
   * no capacity clamp.
   */
  function UpsampledLength(n: nat, srcFreq: real, modFreq: nat): (len: nat)
    requires srcFreq > 0.0
    ensures srcFreq > modFreq as real ==> len == 0
    ensures len as real <= n as real * Ratio(srcFreq, modFreq)
  {
    var q := Ratio(srcFreq, modFreq).Floor;
    FloorProduct(n, Ratio(srcFreq, modFreq));
    n * q
  }

  lemma FloorProduct(n: nat, r: real)
    requires r >= 0.0
    ensures r.Floor >= 0
    ensures (n * r.Floor) as real <= n as real * r
  {
    var q := r.Floor;
    assert (n * q) as real == n as real * q as real;
    assert q as real <= r;
  }

  /** Slot i of the up-sampled buffer maps back to a source sample inside the buffer. */
  lemma StuffIndexInRange(n: nat, srcFreq: real, modFreq: nat, i: nat)
    requires srcFreq > 0.0
    requires i < UpsampledLength(n, srcFreq, modFreq)
    ensures Ratio(srcFreq, modFreq) >= 1.0
    ensures 0 <= (i as real / Ratio(srcFreq, modFreq)).Floor < n
  {
    var ratio := Ratio(srcFreq, modFreq);
    var q := ratio.Floor;
    assert q >= 1;
    var v := i as real / ratio;
    assert v * ratio == i as real;
    assert i as real < n as real * ratio;
  }

  /**
   * Slot i of the zero-stuffed buffer: with v = i / ratio, the source sample
   * floor(v) when the fractional part of v is below 1 / ratio, else 0.
   */
  function StuffedSample(buf: seq<uint8>, srcFreq: real, modFreq: nat, i: nat): (x: int)
    requires srcFreq > 0.0
    requires i < UpsampledLength(|buf|, srcFreq, modFreq)
    ensures x == 0 || x in buf
  {
    StuffIndexInRange(|buf|, srcFreq, modFreq, i);
    var ratio := Ratio(srcFreq, modFreq);
    var v := i as real / ratio;
    if Frac(v) < 1.0 / ratio then buf[v.Floor] else 0
  }

  /** The zero-stuffed buffer. */
  function ZeroStuffed(buf: seq<uint8>, srcFreq: real, modFreq: nat): (x: seq<int>)
    requires srcFreq > 0.0
    ensures |x| == UpsampledLength(|buf|, srcFreq, modFreq)
  {
    var len := UpsampledLength(|buf|, srcFreq, modFreq);
    seq(len, i requires 0 <= i < len => StuffedSample(buf, srcFreq, modFreq, i))
  }

  /**
   * The circular index of tap j around slot i of an n-slot buffer, computed
   * as (i - j + n) % n in size_t arithmetic: the subtraction wraps modulo
   * 2^64 before the remainder is taken.
   */
  function CircularIndex(i: nat, j: nat, n: nat): (k: nat)
    requires n > 0
    ensures k < n
  {
    ((i - j + n) % SizeMod) % n
  }

  /** The filter's running sum over the first k taps at slot i. */
  function TapSum(x: seq<int>, taps: seq<real>, i: nat, k: nat): real
    requires i < |x| && k <= |taps|
  {
    if k == 0 then 0.0
    else TapSum(x, taps, i, k - 1) + x[CircularIndex(i, k - 1, |x|)] as real * taps[k - 1]
  }

  /** The filtered buffer: every slot summed over all taps. */
  function Filtered(x: seq<int>, taps: seq<real>): (y: seq<real>)
    requires |taps| == NumTap
    ensures |y| == |x|
  {
    seq(|x|, i requires 0 <= i < |x| => TapSum(x, taps, i, NumTap))
  }

  function Max(a: real, b: real): real {
    if a >= b then a else b
  }

  function Min(a: real, b: real): real {
    if a <= b then a else b
  }

  /** The running maximum of `v`, started at DBL_MIN. */
  function RunningMax(v: seq<real>): (m: real)
    ensures m >= DblMin
    ensures forall i :: 0 <= i < |v| ==> v[i] <= m
    ensures m == DblMin || m in v
  {
    if v == [] then DblMin else Max(RunningMax(v[..|v| - 1]), v[|v| - 1])
  }

  /** The running minimum of `v`, started at DBL_MAX. */
  function RunningMin(v: seq<real>): (m: real)
    ensures m <= DblMax
    ensures forall i :: 0 <= i < |v| ==> m <= v[i]
    ensures m == DblMax || m in v
  {
    if v == [] then DblMax else Min(RunningMin(v[..|v| - 1]), v[|v| - 1])
  }

  /** Extending the values by one updates the running maximum and minimum by that value. */
  lemma RunningStep(v: seq<real>, x: real)
    ensures RunningMax(v + [x]) == Max(RunningMax(v), x)
    ensures RunningMin(v + [x]) == Min(RunningMin(v), x)
  {
    assert (v + [x])[..|v|] == v;
  }

  /** The running maximum and minimum of a prefix one longer. */
  lemma RunningPrefixStep(v: seq<real>, i: nat)
    requires i < |v|
    ensures RunningMax(v[..i + 1]) == Max(RunningMax(v[..i]), v[i])
    ensures RunningMin(v[..i + 1]) == Min(RunningMin(v[..i]), v[i])
  {
    assert v[..i + 1] == v[..i] + [v[i]];
    RunningStep(v[..i], v[i]);
  }

  /** C's round: to the nearest integer, halves away from zero. */
  function Round(y: real): (r: int)
    ensures r as real - 0.5 <= y <= r as real + 0.5
    ensures y >= 0.0 ==> y < r as real + 0.5
    ensures y < 0.0 ==> r as real - 0.5 < y
  {
    if y >= 0.0 then (y + 0.5).Floor else -((-y + 0.5).Floor)
  }

  /** One filtered value rescaled from [lo, hi] to [0, 255] and rounded. */
  function Quantize(x: real, lo: real, hi: real): (q: int)
    requires lo <= x <= hi && lo < hi
    ensures 0 <= q <= 255
  {
    var t := (x - lo) / (hi - lo);
    assert t <= 1.0 by {
      assert t * (hi - lo) == x - lo;
    }
    Round(255.0 * t)
  }

  /** The top of the normalisation range: the maximum, or min + 1 when the span is below epsilon. */
  function Upper(v: seq<real>): (hi: real)
    ensures hi > RunningMin(v)
    ensures forall i :: 0 <= i < |v| ==> v[i] <= hi
  {
    var lo, hi := RunningMin(v), RunningMax(v);
    if hi - lo < Epsilon then lo + 1.0 else hi
  }

  /** The normalised output buffer. */
  function Normalized(v: seq<real>): (out: seq<uint8>)
    ensures |out| == |v|
  {
    var lo, hi := RunningMin(v), Upper(v);
    seq(|v|, i requires 0 <= i < |v| => Quantize(v[i], lo, hi))
  }

  /** The buffer `RawPCM::calc` produces. */
  function UpsampledOutput(buf: seq<uint8>, srcFreq: real, modFreq: nat, taps: seq<real>): (out: seq<uint8>)
    requires srcFreq > 0.0 && |taps| == NumTap
    ensures |out| == UpsampledLength(|buf|, srcFreq, modFreq)
  {
    Normalized(Filtered(ZeroStuffed(buf, srcFreq, modFreq), taps))
  }

  /** The up-sampling loop: fills each slot of the zero-stuffed buffer. */
  method ZeroStuff(buf: seq<uint8>, srcFreq: real, modFreq: nat) returns (sampleBuf: seq<int>)
    requires srcFreq > 0.0
    ensures sampleBuf == ZeroStuffed(buf, srcFreq, modFreq)
  {
    var freqRatio := modFreq as real / srcFreq;
    var size := |buf| * freqRatio.Floor;
    var a := new int[size];
    for i := 0 to size
      invariant forall k :: 0 <= k < i ==> a[k] == StuffedSample(buf, srcFreq, modFreq, k)
    {
      StuffIndexInRange(|buf|, srcFreq, modFreq, i);
      var v := i as real / freqRatio;
      a[i] := if Frac(v) < 1.0 / freqRatio then buf[v.Floor] else 0;
    }
    sampleBuf := a[..];
  }

  /** The inner filter loop: accumulates every tap into slot i of `lpfBuf`. */
  method AccumulateTaps(lpfBuf: array<real>, i: nat, sampleBuf: seq<int>, taps: seq<real>)
    requires lpfBuf.Length == |sampleBuf| && i < |sampleBuf| && |taps| == NumTap
    modifies lpfBuf
    ensures lpfBuf[i] == old(lpfBuf[i]) + TapSum(sampleBuf, taps, i, NumTap)
    ensures forall k :: 0 <= k < lpfBuf.Length && k != i ==> lpfBuf[k] == old(lpfBuf[k])
  {
    for j := 0 to NumTap
      invariant lpfBuf[i] == old(lpfBuf[i]) + TapSum(sampleBuf, taps, i, j)
      invariant forall k :: 0 <= k < lpfBuf.Length && k != i ==> lpfBuf[k] == old(lpfBuf[k])
    {
      lpfBuf[i] := lpfBuf[i] + sampleBuf[CircularIndex(i, j, |sampleBuf|)] as real * taps[j];
    }
  }

  /**
   * The filter loop: fills each slot of a zeroed buffer in turn and keeps the
   * running maximum and minimum of the filtered values.
   */
  method LowPass(sampleBuf: seq<int>, taps: seq<real>) returns (lpfBuf: seq<real>, maxV: real, minV: real)
    requires |taps| == NumTap
    ensures lpfBuf == Filtered(sampleBuf, taps)
    ensures maxV == RunningMax(lpfBuf) && minV == RunningMin(lpfBuf)
  {
    var n := |sampleBuf|;
    ghost var spec := Filtered(sampleBuf, taps);
    var a := new real[n](_ => 0.0);
    maxV, minV := DblMin, DblMax;
    for i := 0 to n
      invariant forall k :: 0 <= k < i ==> a[k] == spec[k]
      invariant forall k :: i <= k < n ==> a[k] == 0.0
      invariant maxV == RunningMax(spec[..i]) && minV == RunningMin(spec[..i])
    {
      AccumulateTaps(a, i, sampleBuf, taps);
      RunningPrefixStep(spec, i);
      maxV := Max(a[i], maxV);
      minV := Min(a[i], minV);
    }
    lpfBuf := a[..];
    assert lpfBuf == spec;
    assert spec[..n] == spec;
  }

  /** The normalisation loop: applies the epsilon guard, then rescales each slot. */
  method Normalize(lpfBuf: seq<real>, maxV0: real, minV: real) returns (out: seq<uint8>)
    requires maxV0 == RunningMax(lpfBuf) && minV == RunningMin(lpfBuf)
    ensures out == Normalized(lpfBuf)
  {
    var maxV := maxV0;
    if maxV - minV < Epsilon {
      maxV := minV + 1.0;
    }
    var a := new uint8[|lpfBuf|];
    for i := 0 to |lpfBuf|
      invariant forall k :: 0 <= k < i ==> a[k] == Quantize(lpfBuf[k], minV, maxV)
    {
      a[i] := Quantize(lpfBuf[i], minV, maxV);
    }
    out := a[..];
  }
}
