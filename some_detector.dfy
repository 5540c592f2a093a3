/**
 * The preprocessing and note chaining of the SOME note detector
 * (Source/Audio/SOMEDetector.cpp): resampling to 44.1 kHz, the RMS curve,
 * the silence slicer that cuts the input into chunks, and the conversion of
 * the per-chunk note tokens the network returns into note events on the
 * 512-sample frame grid, once as a batch and once as a stream of callbacks.
 *
 * The network itself (inferChunk) is a function parameter: given the
 * samples of a chunk it either fails (None) or returns one token per note,
 * the three equally long output tensors zipped together.
 */
module SomeDetection {
  import opened RealMath
  import opened Wrappers

  /** SOMEDetector::SAMPLE_RATE and SOMEDetector::HOP_SIZE (the header is not part of this model). */
  const SOME_SAMPLE_RATE: int := 44100
  const SOME_HOP_SIZE: int := 512

  // The slicer's constants: RMS threshold, its hop and window in samples,
  // and its lengths in hop frames.
  const SIL_THRESHOLD: real := 0.02
  const SLICE_HOP: int := 441
  const SLICE_WIN: int := 441 * 4
  const MIN_LENGTH: int := 500
  const MIN_INTERVAL: int := 30
  const MAX_SIL_KEPT: int := 50

  /** A detected note, in 512-sample frames. */
  datatype NoteEvent = NoteEvent(startFrame: int, endFrame: int, midiNote: real, isRest: bool)

  /** One output position of the network: MIDI pitch, rest flag and duration in seconds. */
  datatype Token = Token(midi: real, rest: bool, dur: real)

  /** A pair of the MarkerList: a silence tag in RMS frames, or a chunk in samples. */
  datatype Span = Span(first: int, second: int)

  // ---------------------------------------------------------------------------
  // resampleTo44k
  // ---------------------------------------------------------------------------

  /** The number of samples resampleTo44k produces. */
  function ResampledLength(numSamples: nat, srcRate: int): (n: nat)
    requires srcRate > 0
  {
    if srcRate == SOME_SAMPLE_RATE then numSamples
    else
      var ratio := SOME_SAMPLE_RATE as real / srcRate as real;
      DivNonNegative(SOME_SAMPLE_RATE as real, srcRate as real);
      MulNonNegative(numSamples as real, ratio);
      Trunc(numSamples as real * ratio)
  }

  /** Output sample i of the linear resampler; positions past the input stay 0. */
  function ResampleAt(audio: seq<real>, srcRate: int, i: nat): (v: real)
    requires srcRate > 0
    ensures (forall k :: 0 <= k < |audio| ==> audio[k] == 0.0) ==> v == 0.0
  {
    var ratio := SOME_SAMPLE_RATE as real / srcRate as real;
    DivNonNegative(SOME_SAMPLE_RATE as real, srcRate as real);
    DivNonNegative(i as real, ratio);
    var srcPos := i as real / ratio;
    var srcIdx := Trunc(srcPos);
    var frac := srcPos - srcIdx as real;
    if srcIdx + 1 < |audio| then audio[srcIdx] * (1.0 - frac) + audio[srcIdx + 1] * frac
    else if srcIdx < |audio| then audio[srcIdx]
    else 0.0
  }

  /** The whole output of resampleTo44k. */
  function Resampled(audio: seq<real>, srcRate: int): (r: seq<real>)
    requires srcRate > 0
    ensures |r| == ResampledLength(|audio|, srcRate)
    ensures srcRate == SOME_SAMPLE_RATE ==> r == audio
    ensures (forall k :: 0 <= k < |audio| ==> audio[k] == 0.0) ==> forall k :: 0 <= k < |r| ==> r[k] == 0.0
  {
    if srcRate == SOME_SAMPLE_RATE then audio
    else seq(ResampledLength(|audio|, srcRate), i requires 0 <= i => ResampleAt(audio, srcRate, i))
  }

  /** resampleTo44k */
  method ResampleTo44k(audio: seq<real>, srcRate: int) returns (r: seq<real>)
    requires srcRate > 0
    ensures r == Resampled(audio, srcRate)
    ensures srcRate == SOME_SAMPLE_RATE ==> r == audio
    ensures |r| == ResampledLength(|audio|, srcRate)
  {
    if srcRate == SOME_SAMPLE_RATE {
      return audio;
    }
    var outSamples := ResampledLength(|audio|, srcRate);
    var resampled := new real[outSamples];
    for i := 0 to outSamples
      invariant forall k :: 0 <= k < i ==> resampled[k] == ResampleAt(audio, srcRate, k)
    {
      resampled[i] := ResampleSample(audio, srcRate, i);
    }
    r := resampled[..];
  }

  /**
   * The body of resampleTo44k's loop: interpolate between the two input
   * samples around the source position; past the input the zero the
   * output buffer was created with stays.
   */
  method ResampleSample(audio: seq<real>, srcRate: int, i: nat) returns (v: real)
    requires srcRate > 0
    ensures v == ResampleAt(audio, srcRate, i)
  {
    var ratio := SOME_SAMPLE_RATE as real / srcRate as real;
    DivNonNegative(SOME_SAMPLE_RATE as real, srcRate as real);
    DivNonNegative(i as real, ratio);
    var srcPos := i as real / ratio;
    var srcIdx := Trunc(srcPos);
    var frac := srcPos - srcIdx as real;
    assert ResampleAt(audio, srcRate, i) ==
      if srcIdx + 1 < |audio| then audio[srcIdx] * (1.0 - frac) + audio[srcIdx + 1] * frac
      else if srcIdx < |audio| then audio[srcIdx]
      else 0.0;
    v := 0.0;
    if srcIdx + 1 < |audio| {
      v := audio[srcIdx] * (1.0 - frac) + audio[srcIdx + 1] * frac;
    } else if srcIdx < |audio| {
      v := audio[srcIdx];
    }
  }

  /** An interpolated sample lies between the two input samples it is drawn from. */
  lemma ResampleBetweenNeighbours(audio: seq<real>, srcRate: int, i: nat)
    requires srcRate > 0
    requires Trunc(i as real / (SOME_SAMPLE_RATE as real / srcRate as real)) + 1 < |audio|
    ensures
      var k := Trunc(i as real / (SOME_SAMPLE_RATE as real / srcRate as real));
      MinR(audio[k], audio[k + 1]) <= ResampleAt(audio, srcRate, i) <= MaxR(audio[k], audio[k + 1])
  {
    var ratio := SOME_SAMPLE_RATE as real / srcRate as real;
    DivNonNegative(SOME_SAMPLE_RATE as real, srcRate as real);
    DivNonNegative(i as real, ratio);
    var srcPos := i as real / ratio;
    var k := Trunc(srcPos);
    var frac := srcPos - k as real;
    LerpBetween(audio[k], audio[k + 1], frac);
    assert audio[k] * (1.0 - frac) + audio[k + 1] * frac == audio[k] + frac * (audio[k + 1] - audio[k]);
  }

  // ---------------------------------------------------------------------------
  // getRms
  // ---------------------------------------------------------------------------

  /** Sum of the squares of s[start..end). */
  function SquareSum(s: seq<real>, start: int, end: int): real
    requires 0 <= start && end <= |s|
    decreases end - start
  {
    if end <= start then 0.0 else SquareSum(s, start, end - 1) + s[end - 1] * s[end - 1]
  }

  /** The sample window of RMS frame i: half a frame either side of i·hop, clamped to the samples. */
  function RmsWindow(size: nat, frameLength: int, hopLength: int, i: nat): (w: Span)
    requires frameLength > 0 && hopLength > 0
    ensures i < size / hopLength ==> 0 <= w.first <= w.second <= size
    ensures w.second - w.first <= 2 * (frameLength / 2)
  {
    var halfFrame := frameLength / 2;
    MulNonNegativeInt(i, hopLength);
    var center := i * hopLength;
    CenterInside(i, size, hopLength);
    Span(if center < halfFrame then 0 else center - halfFrame, Min(size, center + halfFrame))
  }

  lemma CenterInside(i: nat, size: nat, hopLength: int)
    requires hopLength > 0
    ensures i < size / hopLength ==> i * hopLength + hopLength <= size
  {
    if i < size / hopLength {
      MulMonotone(i + 1, size / hopLength, hopLength);
    }
  }

  /** RMS value i of getRms. */
  function RmsAt(samples: seq<real>, frameLength: int, hopLength: int, i: nat): (v: real)
    requires frameLength > 0 && hopLength > 0 && i < |samples| / hopLength
    ensures Laws() ==> v >= 0.0
  {
    var w := RmsWindow(|samples|, frameLength, hopLength, i);
    SquareSumNonNegative(samples, w.first, w.second);
    DivNonNegative(SquareSum(samples, w.first, w.second), frameLength as real);
    Sqrt(SquareSum(samples, w.first, w.second) / frameLength as real)
  }

  /** The whole RMS curve: one value per whole hop. */
  function RmsList(samples: seq<real>, frameLength: int, hopLength: int): (r: seq<real>)
    requires frameLength > 0 && hopLength > 0
    ensures |r| == |samples| / hopLength
    ensures Laws() ==> forall k :: 0 <= k < |r| ==> r[k] >= 0.0
  {
    seq(|samples| / hopLength, i requires 0 <= i < |samples| / hopLength => RmsAt(samples, frameLength, hopLength, i))
  }

  /** getRms */
  method GetRms(samples: seq<real>, frameLength: int, hopLength: int) returns (output: seq<real>)
    requires frameLength > 0 && hopLength > 0
    ensures output == RmsList(samples, frameLength, hopLength)
    ensures |output| == |samples| / hopLength
  {
    var outputSize := |samples| / hopLength;
    output := [];
    for i := 0 to outputSize
      invariant |output| == i
      invariant forall k :: 0 <= k < i ==> output[k] == RmsAt(samples, frameLength, hopLength, k)
    {
      var w := RmsWindow(|samples|, frameLength, hopLength, i);
      var sum := SumOfSquares(samples, w.first, w.second);
      output := output + [Sqrt(sum / frameLength as real)];
    }
  }

  /** The inner loop of getRms. */
  method SumOfSquares(samples: seq<real>, start: int, end: int) returns (sum: real)
    requires 0 <= start <= end <= |samples|
    ensures sum == SquareSum(samples, start, end)
  {
    sum := 0.0;
    for j := start to end
      invariant sum == SquareSum(samples, start, j)
    {
      sum := sum + samples[j] * samples[j];
    }
  }

  lemma {:induction false} SquareSumNonNegative(s: seq<real>, start: int, end: int)
    requires 0 <= start && end <= |s|
    ensures SquareSum(s, start, end) >= 0.0
    decreases end - start
  {
    if end > start {
      SquareSumNonNegative(s, start, end - 1);
      MulNonNegative(if s[end - 1] >= 0.0 then s[end - 1] else -s[end - 1], if s[end - 1] >= 0.0 then s[end - 1] else -s[end - 1]);
    }
  }

  lemma {:induction false} SquareSumOfSilence(s: seq<real>, start: int, end: int)
    requires 0 <= start && end <= |s|
    requires forall j :: 0 <= j < |s| ==> s[j] == 0.0
    ensures SquareSum(s, start, end) == 0.0
    decreases end - start
  {
    if end > start {
      SquareSumOfSilence(s, start, end - 1);
    }
  }

  /** Digital silence has an RMS curve of zeros, all of it below the slicer's threshold. */
  lemma RmsOfSilence(samples: seq<real>, frameLength: int, hopLength: int)
    requires Laws() && frameLength > 0 && hopLength > 0
    requires forall j :: 0 <= j < |samples| ==> samples[j] == 0.0
    ensures forall i :: 0 <= i < |samples| / hopLength ==> RmsList(samples, frameLength, hopLength)[i] == 0.0
  {
    forall i | 0 <= i < |samples| / hopLength
      ensures RmsList(samples, frameLength, hopLength)[i] == 0.0
    {
      var w := RmsWindow(|samples|, frameLength, hopLength, i);
      SquareSumOfSilence(samples, w.first, w.second);
    }
  }

  // ---------------------------------------------------------------------------
  // sliceAudio
  // ---------------------------------------------------------------------------

  /** The index of the first smallest value of v[begin..end), which must be non-empty. */
  function FirstMin(v: seq<real>, begin: nat, end: nat): (m: nat)
    requires begin < end <= |v|
    ensures begin <= m < end
    ensures forall j :: begin <= j < end ==> v[m] <= v[j]
    ensures forall j :: begin <= j < m ==> v[m] < v[j]
  {
    if end == begin + 1 then begin
    else
      var m := FirstMin(v, begin, end - 1);
      if v[end - 1] < v[m] then end - 1 else m
  }

  /** The argmin lambda of sliceAudio: an offset from begin, or 0 for an empty or out-of-range window. */
  function ArgMin(v: seq<real>, begin: nat, end: nat): (k: int)
    ensures begin < end <= |v| ==> 0 <= k < end - begin
    ensures begin >= end || end > |v| ==> k == 0
  {
    if begin >= end || end > |v| then 0 else FirstMin(v, begin, end) - begin
  }

  /** The slicer's loop state: the open silence run (-1 for none), the last cut and the tags so far. */
  datatype Slicer = Slicer(silenceStart: int, clipStart: int, tags: seq<Span>)

  /**
   * The slicer's loop body for RMS frame i. A quiet frame opens (or keeps)
   * a silence run and never cuts; a loud frame closes any open run, and
   * only a loud frame ending an open run can add a tag, at most one.
   */
  function SliceStep(rms: seq<real>, i: nat, s: Slicer): (r: Slicer)
    requires i < |rms|
    ensures r.tags == s.tags || (|r.tags| == |s.tags| + 1 && r.tags[..|s.tags|] == s.tags)
    ensures r.silenceStart == -1 || r.silenceStart == s.silenceStart || r.silenceStart == i
    ensures rms[i] < SIL_THRESHOLD ==> r.silenceStart >= 0 && r.tags == s.tags && r.clipStart == s.clipStart
    ensures rms[i] >= SIL_THRESHOLD ==> r.silenceStart < 0
    ensures r.tags != s.tags ==> rms[i] >= SIL_THRESHOLD && s.silenceStart >= 0
  {
    if rms[i] < SIL_THRESHOLD then
      if s.silenceStart < 0 then s.(silenceStart := i) else s
    else if s.silenceStart < 0 then s
    else
      var ss := s.silenceStart;
      var isLeadingSilence := ss == 0 && i > MAX_SIL_KEPT;
      var needSlice := i - ss >= MIN_INTERVAL && i - s.clipStart >= MIN_LENGTH;
      if !isLeadingSilence && !needSlice then s.(silenceStart := -1)
      else if i - ss <= MAX_SIL_KEPT then
        var pos := ArgMin(rms, ss, i + 1) + ss;
        Slicer(-1, pos, s.tags + [Span(if ss == 0 then 0 else pos, pos)])
      else
        var posL := ArgMin(rms, ss, ss + MAX_SIL_KEPT + 1) + ss;
        var posR := ArgMin(rms, i - MAX_SIL_KEPT, i + 1) + i - MAX_SIL_KEPT;
        Slicer(-1, posR, s.tags + [Span(if ss == 0 then 0 else posL, posR)])
  }

  /** The slicer's state after the first n RMS frames. */
  function Scan(rms: seq<real>, n: nat): (r: Slicer)
    requires n <= |rms|
    ensures |r.tags| <= n
    ensures -1 <= r.silenceStart < n
  {
    if n == 0 then Slicer(-1, 0, []) else SliceStep(rms, n - 1, Scan(rms, n - 1))
  }

  /** The tag for silence that runs to the end of the input, if it is long enough: at most one more tag, running past the last frame. */
  function FinalTags(rms: seq<real>, s: Slicer): (r: seq<Span>)
    ensures r == s.tags || (|r| == |s.tags| + 1 && r[..|s.tags|] == s.tags && r[|s.tags|].second == |rms| + 1)
  {
    if s.silenceStart >= 0 && |rms| - s.silenceStart >= MIN_INTERVAL then
      var silenceEnd := Min(|rms| - 1, s.silenceStart + MAX_SIL_KEPT);
      var pos := ArgMin(rms, s.silenceStart, silenceEnd + 1) + s.silenceStart;
      s.tags + [Span(pos, |rms| + 1)]
    else s.tags
  }

  /** The chunks between consecutive tags, in samples. */
  function Between(tags: seq<Span>): (c: seq<Span>)
    requires tags != []
    ensures |c| == |tags| - 1
  {
    seq(|tags| - 1, k requires 0 <= k < |tags| - 1 => Span(tags[k].second * SLICE_HOP, tags[k + 1].first * SLICE_HOP))
  }

  /**
   * The chunks left between the silence tags: before the first, between
   * each pair, after the last. Input before the first tag becomes a chunk
   * from sample 0, input after the last a chunk to the last whole hop.
   */
  function ChunksOf(tags: seq<Span>, rmsSize: int): (r: seq<Span>)
    requires tags != []
    ensures |tags| - 1 <= |r| <= |tags| + 1
    ensures tags[0].first > 0 ==> |r| > 0 && r[0].first == 0
    ensures tags[|tags| - 1].second < rmsSize ==> |r| > 0 && r[|r| - 1].second == rmsSize * SLICE_HOP
  {
    (if tags[0].first > 0 then [Span(0, tags[0].first * SLICE_HOP)] else [])
    + Between(tags)
    + (if tags[|tags| - 1].second < rmsSize then [Span(tags[|tags| - 1].second * SLICE_HOP, rmsSize * SLICE_HOP)] else [])
  }

  /**
   * sliceAudio: the chunks of the input, in samples. A short input is one
   * chunk; otherwise the result is the whole input as one chunk, or chunks
   * that are non-empty, in order, non-overlapping and inside the input.
   */
  function SliceSpec(samples: seq<real>): (r: seq<Span>)
    ensures (|samples| + SLICE_HOP - 1) / SLICE_HOP <= MIN_LENGTH ==> r == [Span(0, |samples|)]
    ensures r == [Span(0, |samples|)] || Ascending(r)
    ensures forall c :: c in r ==> 0 <= c.first && c.second <= |samples|
  {
    if (|samples| + SLICE_HOP - 1) / SLICE_HOP <= MIN_LENGTH then [Span(0, |samples|)]
    else
      var rms := RmsList(samples, SLICE_WIN, SLICE_HOP);
      var tags := FinalTags(rms, Scan(rms, |rms|));
      if tags == [] then [Span(0, |samples|)]
      else
        FinalTagsOrdered(rms);
        ChunksAscending(tags, |rms|);
        MulMonotone(|samples| / SLICE_HOP, |samples| / SLICE_HOP, SLICE_HOP);
        assert |rms| * SLICE_HOP <= |samples|;
        ChunksOf(tags, |rms|)
  }

  /** sliceAudio */
  method SliceAudio(samples: seq<real>) returns (chunks: seq<Span>)
    ensures chunks == SliceSpec(samples)
  {
    if (|samples| + SLICE_HOP - 1) / SLICE_HOP <= MIN_LENGTH {
      return [Span(0, |samples|)];
    }
    var rmsList := GetRms(samples, SLICE_WIN, SLICE_HOP);
    var silTags, silenceStart, clipStart := SilenceTags(rmsList);
    if silTags == [] {
      return [Span(0, |samples|)];
    }
    chunks := ChunksFromTags(silTags, |rmsList|);
  }

  /** The chunk-building tail of sliceAudio. */
  method ChunksFromTags(silTags: seq<Span>, rmsSize: int) returns (chunks: seq<Span>)
    requires silTags != []
    ensures chunks == ChunksOf(silTags, rmsSize)
  {
    chunks := [];
    if silTags[0].first > 0 {
      chunks := chunks + [Span(0, silTags[0].first * SLICE_HOP)];
    }
    var lead := chunks;
    for i := 0 to |silTags| - 1
      invariant chunks == lead + Between(silTags)[..i]
    {
      chunks := chunks + [Span(silTags[i].second * SLICE_HOP, silTags[i + 1].first * SLICE_HOP)];
    }
    if silTags[|silTags| - 1].second < rmsSize {
      chunks := chunks + [Span(silTags[|silTags| - 1].second * SLICE_HOP, rmsSize * SLICE_HOP)];
    }
  }

  /** The tagging loop of sliceAudio and the tag for trailing silence. */
  method SilenceTags(rmsList: seq<real>) returns (silTags: seq<Span>, silenceStart: int, clipStart: int)
    ensures silTags == FinalTags(rmsList, Scan(rmsList, |rmsList|))
  {
    silTags, silenceStart, clipStart := [], -1, 0;
    for i := 0 to |rmsList|
      invariant Slicer(silenceStart, clipStart, silTags) == Scan(rmsList, i)
    {
      silenceStart, clipStart, silTags := SliceFrame(rmsList, i, silenceStart, clipStart, silTags);
    }
    silTags := FinalTags(rmsList, Slicer(silenceStart, clipStart, silTags));
  }

  /** One pass of the tagging loop of sliceAudio, for RMS frame i. */
  method SliceFrame(rmsList: seq<real>, i: nat, silenceStart: int, clipStart: int, silTags: seq<Span>)
    returns (newSilenceStart: int, newClipStart: int, newTags: seq<Span>)
    requires i < |rmsList|
    ensures Slicer(newSilenceStart, newClipStart, newTags) == SliceStep(rmsList, i, Slicer(silenceStart, clipStart, silTags))
  {
    newSilenceStart, newClipStart, newTags := silenceStart, clipStart, silTags;
    if rmsList[i] < SIL_THRESHOLD {
      if silenceStart < 0 {
        newSilenceStart := i;
      }
      return;
    }
    if silenceStart < 0 {
      return;
    }
    var isLeadingSilence := silenceStart == 0 && i > MAX_SIL_KEPT;
    var needSlice := i - silenceStart >= MIN_INTERVAL && i - clipStart >= MIN_LENGTH;
    if !isLeadingSilence && !needSlice {
      newSilenceStart := -1;
      return;
    }
    if i - silenceStart <= MAX_SIL_KEPT {
      var pos := ArgMin(rmsList, silenceStart, i + 1) + silenceStart;
      newTags := silTags + [Span(if silenceStart == 0 then 0 else pos, pos)];
      newClipStart := pos;
    } else {
      var posL := ArgMin(rmsList, silenceStart, silenceStart + MAX_SIL_KEPT + 1) + silenceStart;
      var posR := ArgMin(rmsList, i - MAX_SIL_KEPT, i + 1) + i - MAX_SIL_KEPT;
      newTags := silTags + [Span(if silenceStart == 0 then 0 else posL, posR)];
      newClipStart := posR;
    }
    newSilenceStart := -1;
  }

  /**
   * The two cut points chosen for a long silence never cross: the argmin of
   * the window at the silence's start comes no later than the argmin of the
   * window at its end, because both windows take the first minimum.
   */
  lemma CutPointsOrdered(rms: seq<real>, ss: nat, i: nat)
    requires i - ss > MAX_SIL_KEPT && i < |rms|
    ensures ArgMin(rms, ss, ss + MAX_SIL_KEPT + 1) + ss <= ArgMin(rms, i - MAX_SIL_KEPT, i + 1) + i - MAX_SIL_KEPT
  {
    var p := FirstMin(rms, ss, ss + MAX_SIL_KEPT + 1);
    var q := FirstMin(rms, i - MAX_SIL_KEPT, i + 1);

  }

  /** Tags that are well formed and strictly ordered: each ends before the next begins. */
  ghost predicate TagsOrdered(tags: seq<Span>)
  {
    && (forall k :: 0 <= k < |tags| ==> 0 <= tags[k].first <= tags[k].second)
    && (forall k :: 0 <= k < |tags| - 1 ==> tags[k].second < tags[k + 1].first)
  }

  /** What the slicer keeps true after its first n frames. */
  ghost predicate ScanInvariant(n: nat, s: Slicer)
  {
    && -1 <= s.silenceStart < n
    && TagsOrdered(s.tags)
    && (forall k :: 0 <= k < |s.tags| ==> s.tags[k].second < n)
    && (s.silenceStart >= 0 && s.tags != [] ==> s.tags[|s.tags| - 1].second < s.silenceStart)
  }

  lemma {:induction false} ScanKeepsInvariant(rms: seq<real>, n: nat)
    requires n <= |rms|
    ensures ScanInvariant(n, Scan(rms, n))
  {
    if n > 0 {
      ScanKeepsInvariant(rms, n - 1);
      ScanStepKeepsInvariant(rms, n);
    }
  }

  lemma ScanStepKeepsInvariant(rms: seq<real>, n: nat)
    requires 0 < n <= |rms| && ScanInvariant(n - 1, Scan(rms, n - 1))
    ensures ScanInvariant(n, Scan(rms, n))
  {
    var s := Scan(rms, n - 1);
    var r := Scan(rms, n);
    assert r == SliceStep(rms, n - 1, s);
    StepKeepsInvariant(rms, n - 1, s, r);
  }

  /** One frame of the slicer keeps its invariant. */
  lemma StepKeepsInvariant(rms: seq<real>, i: nat, s: Slicer, r: Slicer)
    requires i < |rms| && ScanInvariant(i, s) && r == SliceStep(rms, i, s)
    ensures ScanInvariant(i + 1, r)
  {
    if rms[i] < SIL_THRESHOLD || s.silenceStart < 0 {
      QuietStepKeepsInvariant(rms, i, s);
    } else {
      var ss := s.silenceStart;
      var isLeadingSilence := ss == 0 && i > MAX_SIL_KEPT;
      var needSlice := i - ss >= MIN_INTERVAL && i - s.clipStart >= MIN_LENGTH;
      if !isLeadingSilence && !needSlice {
        assert r == s.(silenceStart := -1);
      } else {
        CutKeepsInvariant(rms, i, s, r);
      }
    }
  }

  /** A loud frame that closes a silence with a cut keeps the invariant. */
  lemma CutKeepsInvariant(rms: seq<real>, i: nat, s: Slicer, r: Slicer)
    requires i < |rms| && ScanInvariant(i, s) && r == SliceStep(rms, i, s)
    requires rms[i] >= SIL_THRESHOLD && s.silenceStart >= 0
    requires (s.silenceStart == 0 && i > MAX_SIL_KEPT) || (i - s.silenceStart >= MIN_INTERVAL && i - s.clipStart >= MIN_LENGTH)
    ensures ScanInvariant(i + 1, r)
  {
    if i - s.silenceStart <= MAX_SIL_KEPT {
      ShortCutKeepsInvariant(rms, i, s, r);
    } else {
      LongCutKeepsInvariant(rms, i, s, r);
    }
  }

  /** A cut at the quietest frame of a short silence. */
  lemma ShortCutKeepsInvariant(rms: seq<real>, i: nat, s: Slicer, r: Slicer)
    requires i < |rms| && ScanInvariant(i, s) && r == SliceStep(rms, i, s)
    requires rms[i] >= SIL_THRESHOLD && s.silenceStart >= 0 && i - s.silenceStart <= MAX_SIL_KEPT
    requires (s.silenceStart == 0 && i > MAX_SIL_KEPT) || (i - s.silenceStart >= MIN_INTERVAL && i - s.clipStart >= MIN_LENGTH)
    ensures ScanInvariant(i + 1, r)
  {
    var ss := s.silenceStart;
    var pos := ArgMin(rms, ss, i + 1) + ss;
    assert r == Slicer(-1, pos, s.tags + [Span(if ss == 0 then 0 else pos, pos)]);
    TagKeepsInvariant(i, s, pos, Span(if ss == 0 then 0 else pos, pos));
  }

  /** Two cuts, at the quietest frames of both ends of a long silence. */
  lemma LongCutKeepsInvariant(rms: seq<real>, i: nat, s: Slicer, r: Slicer)
    requires i < |rms| && ScanInvariant(i, s) && r == SliceStep(rms, i, s)
    requires rms[i] >= SIL_THRESHOLD && s.silenceStart >= 0 && i - s.silenceStart > MAX_SIL_KEPT
    requires (s.silenceStart == 0 && i > MAX_SIL_KEPT) || (i - s.silenceStart >= MIN_INTERVAL && i - s.clipStart >= MIN_LENGTH)
    ensures ScanInvariant(i + 1, r)
  {
    var ss := s.silenceStart;
    var posL := ArgMin(rms, ss, ss + MAX_SIL_KEPT + 1) + ss;
    var posR := ArgMin(rms, i - MAX_SIL_KEPT, i + 1) + i - MAX_SIL_KEPT;
    assert r == Slicer(-1, posR, s.tags + [Span(if ss == 0 then 0 else posL, posR)]);
    CutPointsOrdered(rms, ss, i);
    TagKeepsInvariant(i, s, posR, Span(if ss == 0 then 0 else posL, posR));
  }

  /** A silent frame, or a loud one with no silence open, adds no tag. */
  lemma QuietStepKeepsInvariant(rms: seq<real>, i: nat, s: Slicer)
    requires i < |rms| && ScanInvariant(i, s)
    requires rms[i] < SIL_THRESHOLD || s.silenceStart < 0
    ensures ScanInvariant(i + 1, SliceStep(rms, i, s))
  {
  }

  /** Closing the open silence with a tag inside it keeps the invariant. */
  lemma TagKeepsInvariant(i: nat, s: Slicer, clip: int, tag: Span)
    requires ScanInvariant(i, s) && s.silenceStart >= 0
    requires s.silenceStart <= tag.second <= i && 0 <= tag.first <= tag.second
    requires tag.first == 0 || s.silenceStart <= tag.first
    requires tag.first == 0 ==> s.silenceStart == 0
    ensures ScanInvariant(i + 1, Slicer(-1, clip, s.tags + [tag]))
  {
    var t := s.tags + [tag];
    assert forall k :: 0 <= k < |s.tags| ==> t[k] == s.tags[k];
    if s.tags != [] {
      assert s.tags[|s.tags| - 1].second < s.silenceStart;
      assert s.silenceStart > 0;
    }
  }

  /** All tags of a finished scan, trailing silence included, are ordered and inside the RMS curve. */
  lemma FinalTagsOrdered(rms: seq<real>)
    ensures TagsOrdered(FinalTags(rms, Scan(rms, |rms|)))
    ensures forall k :: 0 <= k < |FinalTags(rms, Scan(rms, |rms|))| ==>
      FinalTags(rms, Scan(rms, |rms|))[k].first < |rms| && FinalTags(rms, Scan(rms, |rms|))[k].second <= |rms| + 1
  {
    ScanKeepsInvariant(rms, |rms|);
    TrailingTagKeepsOrder(rms, Scan(rms, |rms|));
  }

  lemma TrailingTagKeepsOrder(rms: seq<real>, s: Slicer)
    requires ScanInvariant(|rms|, s)
    ensures TagsOrdered(FinalTags(rms, s))
    ensures forall k :: 0 <= k < |FinalTags(rms, s)| ==> FinalTags(rms, s)[k].first < |rms| && FinalTags(rms, s)[k].second <= |rms| + 1
  {
    if s.silenceStart >= 0 && |rms| - s.silenceStart >= MIN_INTERVAL {
      var silenceEnd := Min(|rms| - 1, s.silenceStart + MAX_SIL_KEPT);
      var pos := ArgMin(rms, s.silenceStart, silenceEnd + 1) + s.silenceStart;
      assert s.silenceStart <= pos < |rms|;
    }
  }

  /** Chunks that are non-empty, ordered and do not overlap. */
  ghost predicate Ascending(c: seq<Span>)
  {
    && (forall k :: 0 <= k < |c| ==> c[k].first < c[k].second)
    && (forall k :: 0 <= k < |c| - 1 ==> c[k].second <= c[k + 1].first)
  }

  lemma AscendingConcat(a: seq<Span>, b: seq<Span>)
    requires Ascending(a) && Ascending(b)
    requires a != [] && b != [] ==> a[|a| - 1].second <= b[0].first
    ensures Ascending(a + b)
  {
  }

  lemma BetweenAscending(tags: seq<Span>)
    requires tags != [] && TagsOrdered(tags)
    ensures Ascending(Between(tags))
  {
    var c := Between(tags);
    forall k | 0 <= k < |c|
      ensures c[k].first < c[k].second
    {
      MulMonotone(tags[k].second + 1, tags[k + 1].first, SLICE_HOP);
    }
    forall k | 0 <= k < |c| - 1
      ensures c[k].second <= c[k + 1].first
    {
      MulMonotone(tags[k + 1].first, tags[k + 1].second, SLICE_HOP);
    }
  }

  /** The chunks cut from ordered tags are non-empty, ordered and inside [0, rmsSize·441]. */
  lemma ChunksAscending(tags: seq<Span>, rmsSize: int)
    requires tags != [] && TagsOrdered(tags)
    requires forall k :: 0 <= k < |tags| ==> tags[k].first < rmsSize
    ensures Ascending(ChunksOf(tags, rmsSize))
    ensures forall c :: c in ChunksOf(tags, rmsSize) ==> 0 <= c.first && c.second <= rmsSize * SLICE_HOP
  {
    ChunksOrdered(tags, rmsSize);
    ChunksInside(tags, rmsSize);
  }

  lemma ChunksOrdered(tags: seq<Span>, rmsSize: int)
    requires tags != [] && TagsOrdered(tags)
    ensures Ascending(ChunksOf(tags, rmsSize))
  {
    var lead := if tags[0].first > 0 then [Span(0, tags[0].first * SLICE_HOP)] else [];
    var mid := Between(tags);
    var last := tags[|tags| - 1];
    var trail := if last.second < rmsSize then [Span(last.second * SLICE_HOP, rmsSize * SLICE_HOP)] else [];
    BetweenAscending(tags);
    if trail != [] {
      MulMonotone(last.second + 1, rmsSize, SLICE_HOP);
    }
    MulMonotone(tags[0].first, tags[0].second, SLICE_HOP);
    MulMonotone(last.first, last.second, SLICE_HOP);
    AscendingConcat(lead, mid);
    AscendingConcat(lead + mid, trail);
    assert ChunksOf(tags, rmsSize) == lead + mid + trail;
  }

  lemma ChunksInside(tags: seq<Span>, rmsSize: int)
    requires tags != [] && TagsOrdered(tags)
    requires forall k :: 0 <= k < |tags| ==> tags[k].first < rmsSize
    ensures forall c :: c in ChunksOf(tags, rmsSize) ==> 0 <= c.first && c.second <= rmsSize * SLICE_HOP
  {
    var lead := if tags[0].first > 0 then [Span(0, tags[0].first * SLICE_HOP)] else [];
    var mid := Between(tags);
    var last := tags[|tags| - 1];
    var trail := if last.second < rmsSize then [Span(last.second * SLICE_HOP, rmsSize * SLICE_HOP)] else [];
    assert ChunksOf(tags, rmsSize) == lead + mid + trail;
    forall k | 0 <= k < |mid|
      ensures 0 <= mid[k].first && mid[k].second <= rmsSize * SLICE_HOP
    {
      MulNonNegativeInt(tags[k].second, SLICE_HOP);
      MulMonotone(tags[k + 1].first, rmsSize, SLICE_HOP);
    }
    if lead != [] {
      MulMonotone(tags[0].first, rmsSize, SLICE_HOP);
    }
    MulNonNegativeInt(last.second, SLICE_HOP);
  }

  // ---------------------------------------------------------------------------
  // Note chaining
  // ---------------------------------------------------------------------------

  /** A token's duration in frames: its seconds at 44100 Hz over 512-sample hops, rounded, at least 1. */
  function DurationFrames(dur: real): (d: int)
    ensures d >= 1
  {
    var d := Round(dur * SOME_SAMPLE_RATE as real / SOME_HOP_SIZE as real);
    if d < 1 then 1 else d
  }

  /** The frame after the last token of a chunk whose tokens start at the given frame. */
  function ChainEnd(start: int, tokens: seq<Token>): (r: int)
    ensures r >= start + |tokens|
  {
    if tokens == [] then start
    else ChainEnd(start, tokens[..|tokens| - 1]) + DurationFrames(tokens[|tokens| - 1].dur)
  }

  /**
   * The note events of a chunk: every token that is not a rest, placed back
   * to back from start. There is at most one event per token, none is a
   * rest, and each is at least a frame long and starts at or after start.
   */
  function ChainEvents(start: int, tokens: seq<Token>): (r: seq<NoteEvent>)
    ensures |r| <= |tokens|
    ensures forall k :: 0 <= k < |r| ==> !r[k].isRest && start <= r[k].startFrame < r[k].endFrame
  {
    if tokens == [] then []
    else
      var prefix := tokens[..|tokens| - 1];
      var t := tokens[|tokens| - 1];
      var at := ChainEnd(start, prefix);
      ChainEvents(start, prefix)
      + (if t.rest then [] else [NoteEvent(at, at + DurationFrames(t.dur), t.midi, false)])
  }

  /** The inner loop of both detection modes: chaining the tokens of one chunk. */
  method ChainChunk(chunkStartFrame: int, tokens: seq<Token>) returns (events: seq<NoteEvent>, currentFrame: int)
    ensures events == ChainEvents(chunkStartFrame, tokens)
    ensures currentFrame == ChainEnd(chunkStartFrame, tokens)
  {
    events, currentFrame := [], chunkStartFrame;
    for i := 0 to |tokens|
      invariant events == ChainEvents(chunkStartFrame, tokens[..i])
      invariant currentFrame == ChainEnd(chunkStartFrame, tokens[..i])
    {
      assert tokens[..i + 1][..i] == tokens[..i];
      var durationFrames := DurationFrames(tokens[i].dur);
      var endFrameNote := currentFrame + durationFrames;
      if !tokens[i].rest {
        events := events + [NoteEvent(currentFrame, endFrameNote, tokens[i].midi, false)];
      }
      currentFrame := endFrameNote;
    }
    assert tokens[..|tokens|] == tokens;
  }

  /** Events that are proper notes, each at least a frame long, in time order without overlap. */
  ghost predicate EventsOrdered(e: seq<NoteEvent>)
  {
    && (forall k :: 0 <= k < |e| ==> e[k].startFrame < e[k].endFrame && !e[k].isRest)
    && (forall k :: 0 <= k < |e| - 1 ==> e[k].endFrame <= e[k + 1].startFrame)
  }

  /** All events lie in [lo, hi). */
  ghost predicate Within(e: seq<NoteEvent>, lo: int, hi: int)
  {
    forall k :: 0 <= k < |e| ==> lo <= e[k].startFrame && e[k].endFrame <= hi
  }

  lemma EventsConcat(a: seq<NoteEvent>, b: seq<NoteEvent>, mid: int)
    requires EventsOrdered(a) && EventsOrdered(b)
    requires forall k :: 0 <= k < |a| ==> a[k].endFrame <= mid
    requires forall k :: 0 <= k < |b| ==> mid <= b[k].startFrame
    ensures EventsOrdered(a + b)
  {
  }

  /**
   * Chaining never goes backward: the events of a chunk are ordered, start
   * at or after the chunk's start frame and end by the chain's end, which
   * advances at least one frame per token.
   */
  lemma {:induction false} ChainOrdered(start: int, tokens: seq<Token>)
    ensures ChainEnd(start, tokens) >= start + |tokens|
    ensures EventsOrdered(ChainEvents(start, tokens))
    ensures Within(ChainEvents(start, tokens), start, ChainEnd(start, tokens) + 1)
    ensures forall k :: 0 <= k < |ChainEvents(start, tokens)| ==> ChainEvents(start, tokens)[k].endFrame <= ChainEnd(start, tokens)
  {
    if tokens != [] {
      var prefix := tokens[..|tokens| - 1];
      ChainOrdered(start, prefix);
      var t := tokens[|tokens| - 1];
      var at := ChainEnd(start, prefix);
      var tail := if t.rest then [] else [NoteEvent(at, at + DurationFrames(t.dur), t.midi, false)];
      EventsConcat(ChainEvents(start, prefix), tail, at);
    }
  }

  /** Without rests the events of a chunk are contiguous: each starts where the previous one ends. */
  lemma {:induction false} ChainContiguous(start: int, tokens: seq<Token>)
    requires forall k :: 0 <= k < |tokens| ==> !tokens[k].rest
    ensures |ChainEvents(start, tokens)| == |tokens|
    ensures tokens != [] ==> ChainEvents(start, tokens)[0].startFrame == start
    ensures tokens != [] ==> ChainEvents(start, tokens)[|tokens| - 1].endFrame == ChainEnd(start, tokens)
    ensures forall k :: 0 <= k < |tokens| - 1 ==> ChainEvents(start, tokens)[k].endFrame == ChainEvents(start, tokens)[k + 1].startFrame
  {
    if tokens != [] {
      ChainContiguous(start, tokens[..|tokens| - 1]);
    }
  }

  // ---------------------------------------------------------------------------
  // detectNotesWithProgress (batch) and detectNotesStreaming
  // ---------------------------------------------------------------------------

  /** The samples of a chunk, cut at the end of the waveform. */
  function ChunkData(waveform: seq<real>, c: Span): seq<real>
    requires 0 <= c.first < |waveform| && c.first < c.second
  {
    waveform[c.first .. Min(c.second, |waveform|)]
  }

  /** A chunk the detector skips: empty, or starting past the waveform. */
  predicate Skipped(c: Span, totalSize: int)
  {
    c.second <= c.first || c.first >= totalSize
  }

  /** Chunks that start inside the sample range, as sliceAudio produces them. */
  ghost predicate NonNegativeStarts(chunks: seq<Span>)
  {
    forall k :: 0 <= k < |chunks| ==> chunks[k].first >= 0
  }

  /**
   * The batch mode over the first k chunks: None once an inference has
   * failed, and only then; otherwise notes, none of which is a rest.
   */
  function BatchFrom(waveform: seq<real>, chunks: seq<Span>, infer: seq<real> -> Option<seq<Token>>, k: nat): (r: Option<seq<NoteEvent>>)
    requires k <= |chunks| && NonNegativeStarts(chunks)
    ensures r.Some? ==> forall j :: 0 <= j < |r.value| ==> !r.value[j].isRest
    ensures r.None? ==> exists j :: 0 <= j < k && Failed(waveform, chunks[j], infer)
  {
    if k == 0 then Some([])
    else match BatchFrom(waveform, chunks, infer, k - 1)
      case None => None
      case Some(notes) => BatchStep(waveform, chunks[k - 1], infer, notes)
  }

  /** An inference the detector ran on a chunk and that failed. */
  predicate Failed(waveform: seq<real>, c: Span, infer: seq<real> -> Option<seq<Token>>)
  {
    c.first >= 0 && !Skipped(c, |waveform|) && infer(ChunkData(waveform, c)).None?
  }

  /**
   * One chunk of the batch mode, after the notes so far: it fails exactly
   * when the chunk's inference fails, and otherwise keeps the notes so far
   * and appends only events that are not rests.
   */
  function BatchStep(waveform: seq<real>, c: Span, infer: seq<real> -> Option<seq<Token>>, notes: seq<NoteEvent>): (r: Option<seq<NoteEvent>>)
    requires c.first >= 0
    ensures r.None? <==> Failed(waveform, c, infer)
    ensures r.Some? ==> |notes| <= |r.value| && r.value[..|notes|] == notes
    ensures r.Some? ==> forall j :: |notes| <= j < |r.value| ==> !r.value[j].isRest
  {
    if Skipped(c, |waveform|) then Some(notes)
    else match infer(ChunkData(waveform, c))
      case None => None
      case Some(tokens) =>
        if tokens == [] then Some(notes)
        else
          var start := if notes == [] then c.first / SOME_HOP_SIZE else Max(c.first / SOME_HOP_SIZE, notes[|notes| - 1].endFrame);
          Some(notes + ChainEvents(start, tokens))
  }

  /**
   * The streaming mode over the first k chunks: the last chain end and the
   * batches handed to the callback, at most one per chunk, none empty.
   */
  function StreamFrom(waveform: seq<real>, chunks: seq<Span>, infer: seq<real> -> Option<seq<Token>>, k: nat): (r: (int, seq<seq<NoteEvent>>))
    requires k <= |chunks| && NonNegativeStarts(chunks)
    ensures r.0 >= 0
    ensures |r.1| <= k
    ensures forall j :: 0 <= j < |r.1| ==> r.1[j] != []
  {
    if k == 0 then (0, [])
    else
      var prev := StreamFrom(waveform, chunks, infer, k - 1);
      StreamStep(waveform, chunks[k - 1], infer, prev.0, prev.1)
  }

  /**
   * One chunk of the streaming mode, after the chain end and callbacks so
   * far: the chain end never moves back, and the callbacks so far are kept
   * with at most one non-empty batch after them.
   */
  function StreamStep(waveform: seq<real>, c: Span, infer: seq<real> -> Option<seq<Token>>, lastEndFrame: int, batches: seq<seq<NoteEvent>>): (r: (int, seq<seq<NoteEvent>>))
    requires c.first >= 0
    ensures r.0 >= lastEndFrame
    ensures r.1 == batches || (|r.1| == |batches| + 1 && r.1 == batches + [r.1[|batches|]] && r.1[|batches|] != [])
  {
    if Skipped(c, |waveform|) then (lastEndFrame, batches)
    else match infer(ChunkData(waveform, c))
      case None => (lastEndFrame, batches)
      case Some(tokens) =>
        if tokens == [] then (lastEndFrame, batches)
        else
          var start := Max(c.first / SOME_HOP_SIZE, lastEndFrame);
          var events := ChainEvents(start, tokens);
          (ChainEnd(start, tokens), if events != [] then batches + [events] else batches)
  }

  /** All batches in callback order, joined. */
  function Concat(batches: seq<seq<NoteEvent>>): seq<NoteEvent>
  {
    if batches == [] then [] else Concat(batches[..|batches| - 1]) + batches[|batches| - 1]
  }

  /** detectNotesWithProgress with a loaded model: notes, none of them a rest. */
  function DetectSpec(audio: seq<real>, sampleRate: int, infer: seq<real> -> Option<seq<Token>>): (r: seq<NoteEvent>)
    requires sampleRate > 0
    ensures forall j :: 0 <= j < |r| ==> !r[j].isRest
  {
    var waveform := Resampled(audio, sampleRate);
    var chunks := SliceSpec(waveform);
    match BatchFrom(waveform, chunks, infer, |chunks|)
    case None => []
    case Some(notes) => notes
  }

  /**
   * detectNotesStreaming with a loaded model: the batches passed to the
   * callback, in order, none empty and at most one per chunk.
   */
  function StreamSpec(audio: seq<real>, sampleRate: int, infer: seq<real> -> Option<seq<Token>>): (r: seq<seq<NoteEvent>>)
    requires sampleRate > 0
    ensures |r| <= |SliceSpec(Resampled(audio, sampleRate))|
    ensures forall j :: 0 <= j < |r| ==> r[j] != []
  {
    var waveform := Resampled(audio, sampleRate);
    var chunks := SliceSpec(waveform);
    StreamFrom(waveform, chunks, infer, |chunks|).1
  }

  lemma {:induction false} BatchFailureSticks(waveform: seq<real>, chunks: seq<Span>, infer: seq<real> -> Option<seq<Token>>, k: nat, m: nat)
    requires k <= m <= |chunks| && NonNegativeStarts(chunks)
    requires BatchFrom(waveform, chunks, infer, k).None?
    ensures BatchFrom(waveform, chunks, infer, m).None?
    decreases m - k
  {
    if k < m {
      BatchFailureSticks(waveform, chunks, infer, k + 1, m);
    }
  }

  /** The batch mode emits ordered, non-overlapping notes: a chunk never starts before the last note's end. */
  lemma {:induction false} BatchOrdered(waveform: seq<real>, chunks: seq<Span>, infer: seq<real> -> Option<seq<Token>>, k: nat)
    requires k <= |chunks| && NonNegativeStarts(chunks)
    ensures BatchFrom(waveform, chunks, infer, k).Some? ==> EventsOrdered(BatchFrom(waveform, chunks, infer, k).value)
  {
    if k > 0 {
      BatchOrdered(waveform, chunks, infer, k - 1);
      var prev := BatchFrom(waveform, chunks, infer, k - 1);
      if prev.Some? {
        BatchStepOrdered(waveform, chunks[k - 1], infer, prev.value);
      }
    }
  }

  /** One batch step keeps the notes ordered. */
  lemma BatchStepOrdered(waveform: seq<real>, c: Span, infer: seq<real> -> Option<seq<Token>>, notes: seq<NoteEvent>)
    requires c.first >= 0 && EventsOrdered(notes)
    ensures BatchStep(waveform, c, infer, notes).Some? ==> EventsOrdered(BatchStep(waveform, c, infer, notes).value)
  {
    if !Skipped(c, |waveform|) {
      var r := infer(ChunkData(waveform, c));
      if r.Some? && r.value != [] {
        var start := if notes == [] then c.first / SOME_HOP_SIZE else Max(c.first / SOME_HOP_SIZE, notes[|notes| - 1].endFrame);
        ChainOrdered(start, r.value);
        forall j | 0 <= j < |notes|
          ensures notes[j].endFrame <= start
        {
          if j < |notes| - 1 {
            EndsBeforeLast(notes, j);
          }
        }
        EventsConcat(notes, ChainEvents(start, r.value), start);
      }
    }
  }

  lemma EndsBeforeLast(notes: seq<NoteEvent>, j: nat)
    requires EventsOrdered(notes) && j < |notes|
    ensures notes[j].endFrame <= notes[|notes| - 1].endFrame
    decreases |notes| - j
  {
    if j < |notes| - 1 {
      EndsBeforeLast(notes, j + 1);
    }
  }

  /**
   * The streaming mode calls back only with non-empty batches, and the
   * batches joined in callback order are ordered notes ending by the last
   * chain end.
   */
  lemma {:induction false} StreamOrdered(waveform: seq<real>, chunks: seq<Span>, infer: seq<real> -> Option<seq<Token>>, k: nat)
    requires k <= |chunks| && NonNegativeStarts(chunks)
    ensures forall b :: b in StreamFrom(waveform, chunks, infer, k).1 ==> b != []
    ensures EventsOrdered(Concat(StreamFrom(waveform, chunks, infer, k).1))
    ensures forall j :: 0 <= j < |Concat(StreamFrom(waveform, chunks, infer, k).1)| ==>
      Concat(StreamFrom(waveform, chunks, infer, k).1)[j].endFrame <= StreamFrom(waveform, chunks, infer, k).0
  {
    if k > 0 {
      StreamOrdered(waveform, chunks, infer, k - 1);
      var prev := StreamFrom(waveform, chunks, infer, k - 1);
      StreamStepOrdered(waveform, chunks[k - 1], infer, prev.0, prev.1);
      assert StreamFrom(waveform, chunks, infer, k) == StreamStep(waveform, chunks[k - 1], infer, prev.0, prev.1);
    }
  }

  lemma StreamStepOrdered(waveform: seq<real>, c: Span, infer: seq<real> -> Option<seq<Token>>, lastEndFrame: int, batches: seq<seq<NoteEvent>>)
    requires c.first >= 0
    requires forall b :: b in batches ==> b != []
    requires EventsOrdered(Concat(batches))
    requires forall j :: 0 <= j < |Concat(batches)| ==> Concat(batches)[j].endFrame <= lastEndFrame
    ensures forall b :: b in StreamStep(waveform, c, infer, lastEndFrame, batches).1 ==> b != []
    ensures EventsOrdered(Concat(StreamStep(waveform, c, infer, lastEndFrame, batches).1))
    ensures forall j :: 0 <= j < |Concat(StreamStep(waveform, c, infer, lastEndFrame, batches).1)| ==>
      Concat(StreamStep(waveform, c, infer, lastEndFrame, batches).1)[j].endFrame <= StreamStep(waveform, c, infer, lastEndFrame, batches).0
  {
    var res := StreamStep(waveform, c, infer, lastEndFrame, batches);
    if !Skipped(c, |waveform|) {
      var r := infer(ChunkData(waveform, c));
      if r.Some? && r.value != [] {
        var start := Max(c.first / SOME_HOP_SIZE, lastEndFrame);
        var events := ChainEvents(start, r.value);
        var end := ChainEnd(start, r.value);
        assert res == (end, if events != [] then batches + [events] else batches);
        ChainOrdered(start, r.value);
        if events != [] {
          AppendBatchOrdered(batches, events, lastEndFrame, start, end);
        } else {
          assert forall j :: 0 <= j < |Concat(batches)| ==> Concat(batches)[j].endFrame <= end;
        }
      } else {
        assert res == (lastEndFrame, batches);
      }
    } else {
      assert res == (lastEndFrame, batches);
    }
  }

  /** Appending one ordered batch that starts after every earlier note keeps the joined notes ordered. */
  lemma AppendBatchOrdered(batches: seq<seq<NoteEvent>>, events: seq<NoteEvent>, lastEndFrame: int, start: int, end: int)
    requires events != [] && lastEndFrame <= start
    requires forall b :: b in batches ==> b != []
    requires EventsOrdered(Concat(batches))
    requires forall j :: 0 <= j < |Concat(batches)| ==> Concat(batches)[j].endFrame <= lastEndFrame
    requires EventsOrdered(events) && Within(events, start, end + 1)
    requires forall k :: 0 <= k < |events| ==> events[k].endFrame <= end
    ensures forall b :: b in batches + [events] ==> b != []
    ensures EventsOrdered(Concat(batches + [events]))
    ensures forall j :: 0 <= j < |Concat(batches + [events])| ==> Concat(batches + [events])[j].endFrame <= end
  {
    var nb := batches + [events];
    assert nb[..|nb| - 1] == batches;
    assert Concat(nb) == Concat(batches) + events;
    EventsConcat(Concat(batches), events, start);
    assert end >= start by {
      assert events[0].startFrame < events[0].endFrame;
    }
  }

  /** SOMEDetector: the network session and whether it loaded. */
  class SomeDetector {
    var loaded: bool

    constructor ()
      ensures !loaded
    {
      loaded := false;
    }

    /** loadModel: whether the session could be created decides `loaded`. */
    method LoadModel(sessionCreated: bool) returns (ok: bool)
      modifies this
      ensures loaded == sessionCreated && ok == sessionCreated
    {
      loaded := sessionCreated;
      ok := sessionCreated;
    }

    /** detectNotesWithProgress: nothing without a model; any failed chunk makes the whole result empty. */
    method DetectNotes(audio: seq<real>, sampleRate: int, infer: seq<real> -> Option<seq<Token>>) returns (allNotes: seq<NoteEvent>)
      requires sampleRate > 0
      ensures !loaded ==> allNotes == []
      ensures loaded ==> allNotes == DetectSpec(audio, sampleRate, infer)
    {
      if !loaded {
        return [];
      }
      var waveform := ResampleTo44k(audio, sampleRate);
      var chunks := SliceAudio(waveform);
        if chunks == [] {
        return [];
      }
      allNotes := DetectInChunks(waveform, chunks, infer);
    }

    /** detectNotesStreaming: the batches passed to the note callback, in order; a failed chunk is skipped. */
    method DetectNotesStreaming(audio: seq<real>, sampleRate: int, infer: seq<real> -> Option<seq<Token>>) returns (callbacks: seq<seq<NoteEvent>>)
      requires sampleRate > 0
      ensures !loaded ==> callbacks == []
      ensures loaded ==> callbacks == StreamSpec(audio, sampleRate, infer)
    {
      if !loaded {
        return [];
      }
      var waveform := ResampleTo44k(audio, sampleRate);
      var chunks := SliceAudio(waveform);
        if chunks == [] {
        return [];
      }
      callbacks := StreamChunks(waveform, chunks, infer);
    }
  }

  /** The chunk loop of detectNotesWithProgress. */
  method DetectInChunks(waveform: seq<real>, chunks: seq<Span>, infer: seq<real> -> Option<seq<Token>>) returns (allNotes: seq<NoteEvent>)
    requires NonNegativeStarts(chunks)
    ensures allNotes == match BatchFrom(waveform, chunks, infer, |chunks|) case None => [] case Some(notes) => notes
  {
    var totalSize := |waveform|;
    allNotes := [];
    for k := 0 to |chunks|
      invariant BatchFrom(waveform, chunks, infer, k) == Some(allNotes)
    {
      var c := chunks[k];
      assert BatchFrom(waveform, chunks, infer, k + 1) == BatchStep(waveform, c, infer, allNotes);
      if c.second <= c.first || c.first >= totalSize {
        continue;
      }
      var chunkData := ChunkData(waveform, c);
      var r := infer(chunkData);
      if r.None? {
        BatchFailureSticks(waveform, chunks, infer, k + 1, |chunks|);
        return [];
      }
      var noteTokens := r.value;
      if noteTokens == [] {
        continue;
      }
      var chunkStartFrame := c.first / SOME_HOP_SIZE;
      if allNotes != [] {
        chunkStartFrame := Max(chunkStartFrame, allNotes[|allNotes| - 1].endFrame);
      }
      var events, _ := ChainChunk(chunkStartFrame, noteTokens);
      allNotes := allNotes + events;
    }
  }

  /** The chunk loop of detectNotesStreaming. */
  method StreamChunks(waveform: seq<real>, chunks: seq<Span>, infer: seq<real> -> Option<seq<Token>>) returns (callbacks: seq<seq<NoteEvent>>)
    requires NonNegativeStarts(chunks)
    ensures callbacks == StreamFrom(waveform, chunks, infer, |chunks|).1
  {
    var lastEndFrame := 0;
    callbacks := [];
    for k := 0 to |chunks|
      invariant StreamFrom(waveform, chunks, infer, k) == (lastEndFrame, callbacks)
    {
      lastEndFrame, callbacks := StreamChunk(waveform, chunks[k], infer, lastEndFrame, callbacks);
    }
  }

  /** One pass of the chunk loop of detectNotesStreaming. */
  method StreamChunk(waveform: seq<real>, c: Span, infer: seq<real> -> Option<seq<Token>>, lastEndFrame: int, callbacks: seq<seq<NoteEvent>>)
    returns (newEndFrame: int, newCallbacks: seq<seq<NoteEvent>>)
    requires c.first >= 0
    ensures (newEndFrame, newCallbacks) == StreamStep(waveform, c, infer, lastEndFrame, callbacks)
  {
    newEndFrame, newCallbacks := lastEndFrame, callbacks;
    var totalSize := |waveform|;
    if c.second <= c.first || c.first >= totalSize {
      return;
    }
    var chunkData := ChunkData(waveform, c);
    var r := infer(chunkData);
    if r.None? {
      return;
    }
    var noteTokens := r.value;
    if noteTokens == [] {
      return;
    }
    var chunkStartFrame := c.first / SOME_HOP_SIZE;
    chunkStartFrame := Max(chunkStartFrame, lastEndFrame);
    var chunkNotes, currentFrame := ChainChunk(chunkStartFrame, noteTokens);
    newEndFrame := currentFrame;
    if chunkNotes != [] {
      newCallbacks := callbacks + [chunkNotes];
    }
  }

  /** Both modes emit ordered notes, and the stream calls back only with non-empty batches. */
  lemma DetectionOrdered(audio: seq<real>, sampleRate: int, infer: seq<real> -> Option<seq<Token>>)
    requires sampleRate > 0
    ensures EventsOrdered(DetectSpec(audio, sampleRate, infer))
    ensures EventsOrdered(Concat(StreamSpec(audio, sampleRate, infer)))
    ensures forall b :: b in StreamSpec(audio, sampleRate, infer) ==> b != []
  {
    var waveform := Resampled(audio, sampleRate);
    var chunks := SliceSpec(waveform);
    BatchOrdered(waveform, chunks, infer, |chunks|);
    StreamOrdered(waveform, chunks, infer, |chunks|);
  }
}
