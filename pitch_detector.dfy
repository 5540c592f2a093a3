/**
 * The classical YIN pitch detector (Source/Audio/PitchDetector.cpp).
 *
 * Single-precision arithmetic is modelled on reals, except that the two
 * places where the C++ code can produce a NaN (0/0 in the cumulative mean
 * normalised difference, and in the parabolic adjustment) are kept: a NaN is
 * a value of its own that every comparison rejects.
 */
module PitchDetection {
  import opened RealMath

  /** f0Min, f0Max and threshold of the detector, at their defaults. */
  const F0_MIN: real := 50.0
  const F0_MAX: real := 1000.0
  const THRESHOLD: real := 0.1
  /** Frames with fewer samples than this are unvoiced without running YIN. */
  const MIN_FRAME_SAMPLES: int := 512

  /** A float that is either an ordinary value or NaN. */
  datatype Num = Val(v: real) | NaN

  /** The C++ `<` on floats: false as soon as one side is NaN. */
  predicate Lt(a: Num, b: Num)
  {
    a.Val? && b.Val? && a.v < b.v
  }

  // ---------------------------------------------------------------------------
  // Specification of yinPitchDetect
  // ---------------------------------------------------------------------------

  /** The difference function at lag tau over the first m samples. */
  function Diff(buf: seq<real>, tau: nat, m: nat): real
    requires m + tau <= |buf|
  {
    if m == 0 then 0.0
    else Diff(buf, tau, m - 1) + (buf[m - 1] - buf[m - 1 + tau]) * (buf[m - 1] - buf[m - 1 + tau])
  }

  /** The sum d[1] + ... + d[t]. */
  function RunningSum(d: seq<real>, t: nat): real
    requires t < |d|
  {
    if t == 0 then 0.0 else RunningSum(d, t - 1) + d[t]
  }

  /** The cumulative mean normalised difference at lag t: 1 at lag 0, NaN where 0/0 arises. */
  function DPrimeAt(d: seq<real>, t: nat): Num
    requires t < |d|
  {
    if t == 0 then Val(1.0)
    else
      NormalisedAt(d[t], t, RunningSum(d, t))
  }

  /** d at lag t over the mean of the differences so far; 0/0 gives NaN. */
  function NormalisedAt(dt: real, t: nat, runningSum: real): Num
  {
    if runningSum == 0.0 then NaN else Val(dt * t as real / runningSum)
  }

  /** The first loop of the absolute-threshold step: the first lag below the threshold. */
  function FindTau(dp: seq<Num>, tau: int, tauMax: int): (r: int)
    requires 0 <= tau && tauMax <= |dp|
    ensures tau <= r
    decreases tauMax - tau
  {
    if tau >= tauMax then tau
    else if Lt(dp[tau], Val(THRESHOLD)) then Descend(dp, tau, tauMax)
    else FindTau(dp, tau + 1, tauMax)
  }

  /** The inner loop: walk on while the next lag is strictly smaller. */
  function Descend(dp: seq<Num>, tau: int, tauMax: int): (r: int)
    requires 0 <= tau && tauMax <= |dp|
    ensures tau <= r && (tau < tauMax ==> r < tauMax)
    decreases tauMax - tau
  {
    if tau + 1 < tauMax && Lt(dp[tau + 1], dp[tau]) then Descend(dp, tau + 1, tauMax) else tau
  }

  /**
   * parabolicInterpolation on values: the lag itself at the border, otherwise
   * the lag plus an adjustment of at most one; NaN only from an interior lag.
   */
  function Parabolic(d: seq<Num>, tau: int): (r: Num)
    ensures tau < 1 || tau >= |d| - 1 ==> r == Val(tau as real)
    ensures r.Val? ==> AbsR(r.v - tau as real) <= 1.0
    ensures r.NaN? ==> 1 <= tau < |d| - 1
  {
    if tau < 1 || tau >= |d| - 1 then Val(tau as real)
    else if d[tau - 1].NaN? || d[tau].NaN? || d[tau + 1].NaN? then NaN
    else
      var s0, s1, s2 := d[tau - 1].v, d[tau].v, d[tau + 1].v;
      var num := s2 - s0;
      var den := 2.0 * (2.0 * s1 - s2 - s0);
      if den == 0.0 then
        // an infinite adjustment is dropped; 0/0 stays NaN
        if num != 0.0 then Val(tau as real) else NaN
      else
        var adjustment := num / den;
        if AbsR(adjustment) > 1.0 then Val(tau as real) else Val(tau as real + adjustment)
  }

  /** The difference function at every lag below halfSize. */
  function DiffSeq(buf: seq<real>, halfSize: nat): (d: seq<real>)
    requires 2 * halfSize <= |buf|
    ensures |d| == halfSize
  {
    seq(halfSize, tau requires 0 <= tau < halfSize => Diff(buf, tau, halfSize))
  }

  /** The normalised difference at every lag. */
  function DPrimeSeq(d: seq<real>): (dp: seq<Num>)
    ensures |dp| == |d|
  {
    seq(|d|, t requires 0 <= t < |d| => DPrimeAt(d, t))
  }

  /** The shortest period searched: sampleRate / f0Max, truncated. */
  function TauMin(sampleRate: int): (t: int)
    requires sampleRate > 0
    ensures t >= 0
  {
    Trunc(sampleRate as real / F0_MAX)
  }

  /** One past the longest period searched: sampleRate / f0Min, truncated, below halfSize - 1. */
  function TauMax(halfSize: int, sampleRate: int): (t: int)
    requires sampleRate > 0
    ensures t <= halfSize - 1
  {
    Min(halfSize - 1, Trunc(sampleRate as real / F0_MIN))
  }

  /** The final steps of yinPitchDetect once the lag search has ended at tau. */
  function PitchAt(dp: seq<Num>, tau: int, tauMax: int, sampleRate: int): (p: real)
    requires sampleRate > 0 && 0 <= tau && tauMax < |dp|
    ensures p == -1.0 || p > 0.0
  {
    if tau >= tauMax || (dp[tau].Val? && dp[tau].v >= THRESHOLD) then -1.0
    else
      var betterTau := Parabolic(dp, tau);
      if betterTau.Val? && betterTau.v > 0.0 then sampleRate as real / betterTau.v else -1.0
  }

  /** The pitch yinPitchDetect returns for a buffer, or -1 when there is none. */
  function Yin(buf: seq<real>, sampleRate: int): (p: real)
    requires sampleRate > 0
    ensures p == -1.0 || p > 0.0
  {
    var halfSize := |buf| / 2;
    if halfSize < 2 then -1.0
    else
      var dp := DPrimeSeq(DiffSeq(buf, halfSize));
      var tauMax := TauMax(halfSize, sampleRate);
      PitchAt(dp, FindTau(dp, TauMin(sampleRate), tauMax), tauMax, sampleRate)
  }

  // ---------------------------------------------------------------------------
  // Properties of the YIN steps
  // ---------------------------------------------------------------------------

  /** The difference function is non-negative and vanishes at lag 0. */
  lemma {:induction false} DiffNonNegative(buf: seq<real>, tau: nat, m: nat)
    requires m + tau <= |buf|
    ensures Diff(buf, tau, m) >= 0.0
    ensures tau == 0 ==> Diff(buf, tau, m) == 0.0
  {
    if m > 0 {
      DiffNonNegative(buf, tau, m - 1);
      var x := buf[m - 1] - buf[m - 1 + tau];
      MulNonNegative(AbsR(x), AbsR(x));
      assert x * x == AbsR(x) * AbsR(x);
    }
  }

  /**
   * With a non-negative difference function, a zero running sum means every
   * difference so far is zero: the only division by zero in the normalisation
   * is 0/0, so NaN is the only non-ordinary value it produces.
   */
  lemma {:induction false} RunningSumZero(d: seq<real>, t: nat)
    requires t < |d|
    requires forall k :: 0 <= k < |d| ==> d[k] >= 0.0
    requires RunningSum(d, t) == 0.0
    ensures forall k :: 1 <= k <= t ==> d[k] == 0.0
  {
    if t > 0 {
      assert RunningSum(d, t - 1) >= 0.0 by { RunningSumNonNegative(d, t - 1); }
      RunningSumZero(d, t - 1);
    }
  }

  lemma {:induction false} RunningSumNonNegative(d: seq<real>, t: nat)
    requires t < |d|
    requires forall k :: 0 <= k < |d| ==> d[k] >= 0.0
    ensures RunningSum(d, t) >= 0.0
  {
    if t > 0 {
      RunningSumNonNegative(d, t - 1);
    }
  }

  /** The first search loop finds a lag exactly when some lag in range is below the threshold. */
  lemma {:induction false} FindTauSpec(dp: seq<Num>, tau: int, tauMax: int)
    requires 0 <= tau && tauMax <= |dp|
    ensures FindTau(dp, tau, tauMax) < tauMax <==>
      exists k :: tau <= k < tauMax && Lt(dp[k], Val(THRESHOLD))
    ensures FindTau(dp, tau, tauMax) < tauMax ==>
      tau <= FindTau(dp, tau, tauMax) && Lt(dp[FindTau(dp, tau, tauMax)], Val(THRESHOLD))
    decreases tauMax - tau
  {
    if tau < tauMax {
      if Lt(dp[tau], Val(THRESHOLD)) {
        DescendSpec(dp, tau, tauMax);
      } else {
        FindTauSpec(dp, tau + 1, tauMax);
        if exists k :: tau <= k < tauMax && Lt(dp[k], Val(THRESHOLD)) {
          var k :| tau <= k < tauMax && Lt(dp[k], Val(THRESHOLD));
          assert k != tau;
        }
      }
    }
  }

  /** Descending from a lag below the threshold stays in range and below the threshold. */
  lemma {:induction false} DescendSpec(dp: seq<Num>, tau: int, tauMax: int)
    requires 0 <= tau < tauMax <= |dp|
    requires Lt(dp[tau], Val(THRESHOLD))
    ensures tau <= Descend(dp, tau, tauMax) < tauMax
    ensures Lt(dp[Descend(dp, tau, tauMax)], Val(THRESHOLD))
    decreases tauMax - tau
  {
    if tau + 1 < tauMax && Lt(dp[tau + 1], dp[tau]) {
      DescendSpec(dp, tau + 1, tauMax);
    }
  }

  /**
   * yinPitchDetect gives -1 for a buffer under 4 samples and whenever no lag
   * in [tauMin, tauMax) is below the threshold.
   */
  lemma YinNoPitch(buf: seq<real>, sampleRate: int)
    requires sampleRate > 0
    ensures |buf| / 2 < 2 ==> Yin(buf, sampleRate) == -1.0
    ensures |buf| / 2 >= 2 ==>
      var dp := DPrimeSeq(DiffSeq(buf, |buf| / 2));
      (forall k :: TauMin(sampleRate) <= k < TauMax(|buf| / 2, sampleRate) ==> !Lt(dp[k], Val(THRESHOLD))) ==>
        Yin(buf, sampleRate) == -1.0
  {
    var halfSize := |buf| / 2;
    if halfSize >= 2 {
      var dp := DPrimeSeq(DiffSeq(buf, halfSize));
      FindTauSpec(dp, TauMin(sampleRate), TauMax(halfSize, sampleRate));
    }
  }

  /**
   * A pitch found by yinPitchDetect is the sample rate over a refined lag
   * within one of a lag in [tauMin, tauMax) whose normalised difference is
   * below the threshold.
   */
  lemma YinPitchFound(buf: seq<real>, sampleRate: int)
    requires sampleRate > 0
    requires Yin(buf, sampleRate) > 0.0
    ensures |buf| / 2 >= 2
    ensures var dp := DPrimeSeq(DiffSeq(buf, |buf| / 2));
      exists tau ::
        && TauMin(sampleRate) <= tau < TauMax(|buf| / 2, sampleRate)
        && Lt(dp[tau], Val(THRESHOLD))
        && Parabolic(dp, tau).Val? && Parabolic(dp, tau).v > 0.0
        && AbsR(Parabolic(dp, tau).v - tau as real) <= 1.0
        && Yin(buf, sampleRate) == sampleRate as real / Parabolic(dp, tau).v
  {
    var halfSize := |buf| / 2;
    var dp := DPrimeSeq(DiffSeq(buf, halfSize));
    var tauMax := TauMax(halfSize, sampleRate);
    var tau := FindTau(dp, TauMin(sampleRate), tauMax);
    FindTauSpec(dp, TauMin(sampleRate), tauMax);
    assert Yin(buf, sampleRate) == sampleRate as real / Parabolic(dp, tau).v;
  }

  /** The normalised difference starts at 1. */
  lemma DPrimeStartsAtOne(d: seq<real>)
    requires |d| > 0
    ensures DPrimeAt(d, 0) == Val(1.0)
  {
  }

  // ---------------------------------------------------------------------------
  // Specification of extractF0
  // ---------------------------------------------------------------------------

  /** The number of analysis frames: full windows, else whole hops, and never fewer than one. */
  function FrameCount(numSamples: int, windowSize: int, hopSize: int): (n: int)
    requires hopSize > 0
    ensures n >= 1
  {
    var full := CDiv(numSamples - windowSize, hopSize) + 1;
    if full < 1 then Max(1, CDiv(numSamples, hopSize)) else full
  }

  /** The F0 of frame i of the audio, or 0 for an unvoiced frame. */
  function FrameF0(audio: seq<real>, i: nat, windowSize: int, hopSize: int, sampleRate: int): (f: real)
    requires hopSize > 0 && sampleRate > 0
    ensures f == 0.0 || F0_MIN <= f <= F0_MAX
    ensures FrameLength(|audio|, i, windowSize, hopSize) < MIN_FRAME_SAMPLES ==> f == 0.0
  {
    if FrameLength(|audio|, i, windowSize, hopSize) < MIN_FRAME_SAMPLES then 0.0
    else InRange(Yin(FrameOf(audio, i, windowSize, hopSize), sampleRate))
  }

  /** The samples available to frame i, at most one window. */
  function FrameLength(numSamples: int, i: nat, windowSize: int, hopSize: int): int
    requires hopSize > 0
  {
    Min(windowSize, numSamples - FrameStart(i, hopSize))
  }

  /** The samples YIN sees for frame i. */
  function FrameOf(audio: seq<real>, i: nat, windowSize: int, hopSize: int): (frame: seq<real>)
    requires hopSize > 0 && FrameLength(|audio|, i, windowSize, hopSize) >= 0
    ensures |frame| == FrameLength(|audio|, i, windowSize, hopSize)
  {
    audio[FrameStart(i, hopSize) .. FrameStart(i, hopSize) + FrameLength(|audio|, i, windowSize, hopSize)]
  }

  /** The first sample of frame i. */
  function FrameStart(i: nat, hopSize: int): (s: int)
    requires hopSize > 0
    ensures s >= 0
  {
    MulNonNegativeInt(i, hopSize);
    i * hopSize
  }

  /** A detected pitch kept only inside [f0Min, f0Max]; 0 marks an unvoiced frame. */
  function InRange(pitch: real): (f: real)
    ensures f == 0.0 || F0_MIN <= f <= F0_MAX
  {
    if pitch > 0.0 && pitch >= F0_MIN && pitch <= F0_MAX then pitch else 0.0
  }

  /** An empty input still yields one (unvoiced) frame. */
  lemma EmptyInputOneFrame(windowSize: int, hopSize: int, sampleRate: int)
    requires hopSize > 0 && windowSize >= 0 && sampleRate > 0
    ensures FrameCount(0, windowSize, hopSize) == 1
    ensures FrameF0([], 0, windowSize, hopSize, sampleRate) == 0.0
  {
    assert CDiv(0 - windowSize, hopSize) <= 0;
  }

  class PitchDetector {
    const sampleRate: int
    const hopSize: int
    const windowSize: int

    /** The window holds two periods of the lowest detectable pitch, and at least 2048 samples. */
    constructor (sampleRate: int, hopSize: int)
      requires sampleRate > 0 && hopSize > 0
      ensures this.sampleRate == sampleRate && this.hopSize == hopSize
      ensures windowSize == Max(2048, Trunc(sampleRate as real / F0_MIN) * 2)
      ensures windowSize >= 2048 && windowSize as real <= 2.0 * sampleRate as real / F0_MIN + 2048.0
    {
      this.sampleRate := sampleRate;
      this.hopSize := hopSize;
      windowSize := Max(2048, Trunc(sampleRate as real / F0_MIN) * 2);
    }

    predicate Valid()
    {
      sampleRate > 0 && hopSize > 0 && windowSize >= 2048
    }

    /**
     * extractF0: one F0 value and one voiced flag per frame; a frame is
     * voiced exactly when YIN found a pitch in [f0Min, f0Max], and carries
     * F0 0 otherwise.
     */
    method ExtractF0(audio: seq<real>) returns (f0Values: seq<real>, voicedMask: seq<bool>)
      requires Valid()
      ensures |f0Values| == |voicedMask| == FrameCount(|audio|, windowSize, hopSize)
      ensures forall i :: 0 <= i < |f0Values| ==> f0Values[i] == FrameF0(audio, i, windowSize, hopSize, sampleRate)
      ensures forall i :: 0 <= i < |f0Values| ==> (voicedMask[i] <==> F0_MIN <= f0Values[i] <= F0_MAX)
      ensures forall i :: 0 <= i < |f0Values| ==> (!voicedMask[i] <==> f0Values[i] == 0.0)
      ensures forall i :: 0 <= i < |f0Values| && FrameLength(|audio|, i, windowSize, hopSize) < MIN_FRAME_SAMPLES ==>
        !voicedMask[i] && f0Values[i] == 0.0
    {
      var numFrames := NumFrames(|audio|);
      var f0, voiced := AnalyseFrames(audio, numFrames);
      f0Values, voicedMask := f0[..], voiced[..];
      forall x | 0 <= x < |f0Values|
        ensures f0Values[x] == FrameF0(audio, x, windowSize, hopSize, sampleRate)
        ensures voicedMask[x] <==> F0_MIN <= f0Values[x] <= F0_MAX
        ensures !voicedMask[x] <==> f0Values[x] == 0.0
        ensures FrameLength(|audio|, x, windowSize, hopSize) < MIN_FRAME_SAMPLES ==> !voicedMask[x] && f0Values[x] == 0.0
      {
        assert f0Values[x] == f0[x] && voicedMask[x] == voiced[x];
      }
    }

    /** The frame loop of extractF0: frame by frame, the F0 and whether it is voiced. */
    method AnalyseFrames(audio: seq<real>, numFrames: nat) returns (f0: array<real>, voiced: array<bool>)
      requires Valid()
      ensures fresh(f0) && fresh(voiced) && f0.Length == voiced.Length == numFrames
      ensures forall x :: 0 <= x < numFrames ==> f0[x] == FrameF0(audio, x, windowSize, hopSize, sampleRate)
      ensures forall x :: 0 <= x < numFrames ==> (voiced[x] <==> f0[x] != 0.0)
    {
      f0 := new real[numFrames];
      voiced := new bool[numFrames];
      for i := 0 to numFrames
        invariant forall x :: 0 <= x < i ==> f0[x] == FrameF0(audio, x, windowSize, hopSize, sampleRate) && (voiced[x] <==> f0[x] != 0.0)
      {
        var value, isVoiced := AnalyseFrame(audio, i);
        f0[i] := value;
        voiced[i] := isVoiced;
      }
    }

    /** The frame count of extractF0: full windows, else whole hops, else one frame. */
    method NumFrames(numSamples: int) returns (numFrames: int)
      requires Valid()
      ensures numFrames == FrameCount(numSamples, windowSize, hopSize)
    {
      numFrames := CDiv(numSamples - windowSize, hopSize) + 1;
      if numFrames < 1 {
        numFrames := CDiv(numSamples, hopSize);
        if numFrames < 1 {
          numFrames := 1;
        }
      }
    }

    /** The body of the frame loop of extractF0. */
    method AnalyseFrame(audio: seq<real>, i: nat) returns (f0: real, voiced: bool)
      requires Valid()
      ensures f0 == FrameF0(audio, i, windowSize, hopSize, sampleRate)
      ensures voiced <==> f0 != 0.0
    {
      var frameSamples := FrameLength(|audio|, i, windowSize, hopSize);
      if frameSamples < MIN_FRAME_SAMPLES {
        return 0.0, false;
      }
      var pitch := YinPitchDetect(FrameOf(audio, i, windowSize, hopSize));
      f0 := InRange(pitch);
      voiced := f0 != 0.0;
    }

    /** yinPitchDetect */
    method YinPitchDetect(buffer: seq<real>) returns (pitch: real)
      requires Valid()
      ensures pitch == Yin(buffer, sampleRate)
    {
      var halfSize := |buffer| / 2;
      if halfSize < 2 {
        return -1.0;
      }
      var d := DifferenceFunction(buffer, halfSize);
      var dPrime := NormalisedDifference(d);
      assert d[..] == DiffSeq(buffer, halfSize);
      assert dPrime[..] == DPrimeSeq(d[..]);
      var tauMin := Trunc(sampleRate as real / F0_MAX);
      var tauMax := Min(halfSize - 1, Trunc(sampleRate as real / F0_MIN));
      var tau := AbsoluteThreshold(dPrime, tauMin, tauMax);
      if tau >= tauMax || (dPrime[tau].Val? && dPrime[tau].v >= THRESHOLD) {
        return -1.0;
      }
      var betterTau := Parabolic(dPrime[..], tau);
      if betterTau.Val? && betterTau.v > 0.0 {
        return sampleRate as real / betterTau.v;
      }
      return -1.0;
    }
  }

  /** Step 2 of YIN: the difference function at every lag below halfSize. */
  method DifferenceFunction(buffer: seq<real>, halfSize: nat) returns (d: array<real>)
    requires 2 * halfSize <= |buffer|
    ensures fresh(d) && d.Length == halfSize
    ensures forall tau :: 0 <= tau < halfSize ==> d[tau] == Diff(buffer, tau, halfSize)
  {
    d := new real[halfSize];
    for tau := 0 to halfSize
      invariant forall x :: 0 <= x < tau ==> d[x] == Diff(buffer, x, halfSize)
    {
      var acc := 0.0;
      for j := 0 to halfSize
        invariant acc == Diff(buffer, tau, j)
      {
        var diff := buffer[j] - buffer[j + tau];
        acc := acc + diff * diff;
      }
      d[tau] := acc;
    }
  }

  /** Step 3 of YIN: the cumulative mean normalised difference, with its running sum. */
  method NormalisedDifference(d: array<real>) returns (dPrime: array<Num>)
    requires d.Length > 0
    ensures fresh(dPrime) && dPrime.Length == d.Length
    ensures forall t :: 0 <= t < d.Length ==> dPrime[t] == DPrimeAt(d[..], t)
  {
    ghost var ds := d[..];
    dPrime := new Num[d.Length](_ => NaN);
    dPrime[0] := Val(1.0);
    var runningSum := 0.0;
    for tau := 1 to d.Length
      invariant dPrime[0] == Val(1.0)
      invariant forall x :: 1 <= x < tau ==> dPrime[x] == DPrimeAt(ds, x)
      invariant runningSum == RunningSum(ds, tau - 1)
    {
      runningSum := runningSum + d[tau];
      dPrime[tau] := NormalisedAt(d[tau], tau, runningSum);
    }
  }

  /** Step 4 of YIN: the threshold search with its descent to the local minimum. */
  method AbsoluteThreshold(dPrime: array<Num>, tauMin: int, tauMax: int) returns (tau: int)
    requires 0 <= tauMin && tauMax <= dPrime.Length
    ensures tau == FindTau(dPrime[..], tauMin, tauMax)
  {
    tau := tauMin;
    while tau < tauMax
      invariant tauMin <= tau
      invariant FindTau(dPrime[..], tau, tauMax) == FindTau(dPrime[..], tauMin, tauMax)
      decreases tauMax - tau
    {
      if Lt(dPrime[tau], Val(THRESHOLD)) {
        while tau + 1 < tauMax && Lt(dPrime[tau + 1], dPrime[tau])
          invariant tauMin <= tau < tauMax
          invariant Descend(dPrime[..], tau, tauMax) == FindTau(dPrime[..], tauMin, tauMax)
          decreases tauMax - tau
        {
          tau := tau + 1;
        }
        return;
      }
      tau := tau + 1;
    }
  }
}
