/**
 * The incremental synthesis scheduler
 * (Source/Audio/Synthesis/IncrementalSynthesizer.cpp).
 *
 * A request pads the project's dirty frame range, clamps it to the mel
 * spectrogram, cancels the previous job and issues a new job id. The
 * vocoder's asynchronous completion is the explicit method call
 * OnInferenceComplete, given the job the request captured; it either rejects
 * the result without touching anything or splices it into the waveform with
 * linear crossfades and clears the dirty flags.
 */
module IncrementalSynthesis {
  import opened RealMath
  import opened Wrappers
  import opened Projects

  /** paddingFrames: frames added on both sides of the dirty range. */
  const PADDING_FRAMES: int := 30

  /** A positive hop size, in samples per frame. */
  type Hop = h: int | h > 0 witness 512

  /** The shared atomic cancel flag of one job. */
  class CancelFlag {
    var cancelled: bool

    constructor ()
      ensures !cancelled
    {
      cancelled := false;
    }
  }

  /** The parts of the vocoder the scheduler consults; inference itself is outside the model. */
  class Vocoder {
    var loaded: bool
    const hopSize: Hop

    constructor (hopSize: Hop, loaded: bool)
      ensures this.hopSize == hopSize && this.loaded == loaded
    {
      this.hopSize := hopSize;
      this.loaded := loaded;
    }
  }

  /** What the completion handler captures when a job is submitted. */
  datatype Job = Job(
    id: nat,
    flag: CancelFlag,
    project: Project,
    startSample: int,
    endSample: int,
    hopSize: int,
    melRange: seq<seq<real>>,
    f0Range: seq<real>)

  // ---------------------------------------------------------------------------
  // Range selection
  // ---------------------------------------------------------------------------

  /** The dirty range padded by PADDING_FRAMES on both sides and clamped to [0, melFrames]. */
  function PaddedRange(dirtyStart: int, dirtyEnd: int, melFrames: nat): (r: (int, int))
    ensures 0 <= r.0 && r.1 <= melFrames
    ensures r.0 <= dirtyStart - PADDING_FRAMES || r.0 == 0
    ensures r.1 >= dirtyEnd + PADDING_FRAMES || r.1 == melFrames
    ensures dirtyStart >= 0 ==> r.0 <= dirtyStart && dirtyStart - r.0 <= PADDING_FRAMES
    ensures r.1 <= dirtyEnd + PADDING_FRAMES
  {
    (Max(0, dirtyStart - PADDING_FRAMES), Min(melFrames, dirtyEnd + PADDING_FRAMES))
  }

  /** The mel frames [start, end); an inverted range yields no frames. */
  function MelRange(mel: seq<seq<real>>, start: int, end: int): (r: seq<seq<real>>)
    requires 0 <= start && end <= |mel|
    ensures |r| == if start < end then end - start else 0
    ensures forall k :: 0 <= k < |r| ==> r[k] == mel[start + k]
  {
    if start < end then mel[start..end] else []
  }

  /** Every dirty frame that lies on the spectrogram is inside the padded range. */
  lemma PaddedRangeCoversDirty(dirtyStart: int, dirtyEnd: int, melFrames: nat, frame: int)
    requires dirtyStart <= frame < dirtyEnd && 0 <= frame < melFrames
    ensures PaddedRange(dirtyStart, dirtyEnd, melFrames).0 <= frame < PaddedRange(dirtyStart, dirtyEnd, melFrames).1
  {
  }

  // ---------------------------------------------------------------------------
  // Crossfade
  // ---------------------------------------------------------------------------

  /** The crossfade length of a completion: half the padding in samples, at most a quarter of the output. */
  function CrossfadeLength(hopSize: Hop, actualSamples: nat): (cf: nat)
    ensures 4 * cf <= actualSamples
    ensures cf <= PADDING_FRAMES * hopSize / 2
    ensures cf == PADDING_FRAMES * hopSize / 2 || 4 * cf + 4 > actualSamples
  {
    Min(PADDING_FRAMES * hopSize / 2, actualSamples / 4)
  }

  /**
   * The blend factor of output sample i of size synthesized samples placed at
   * startSample in a track of totalSamples: a rising ramp at the head when the
   * region does not start the track, a falling ramp at the tail when it ends
   * before the track does, otherwise 1 (plain overwrite). It lies in [0, 1],
   * below 1 inside the head ramp, and is 1 everywhere without a crossfade.
   */
  function Factor(i: int, size: int, cf: int, startSample: int, totalSamples: int): (r: real)
    requires 0 <= i < size
    ensures 0.0 <= r <= 1.0
    ensures i < cf && startSample > 0 ==> r < 1.0
    ensures cf <= 0 ==> r == 1.0
  {
    if i < cf && startSample > 0 then
      FractionInUnit(i, cf);
      var q := i as real / cf as real;
      assert q * cf as real == i as real;
      q
    else if i >= size - cf && startSample + size < totalSamples then
      FractionInUnit(size - 1 - i, cf);
      (size - 1 - i) as real / cf as real
    else 1.0
  }

  /**
   * The sample written for a destination value d, a source value s and a
   * factor f: the old value at 0, the new one from 1 on, and in between a
   * value between the two.
   */
  function Blend(d: real, s: real, f: real): (r: real)
    ensures 0.0 <= f <= 1.0 ==> MinR(d, s) <= r <= MaxR(d, s)
    ensures f == 0.0 ==> r == d
    ensures f >= 1.0 ==> r == s
  {
    if f < 1.0 then
      var v := d * (1.0 - f) + s * f;
      assert v == d + f * (s - d);
      if 0.0 <= f then LerpBetween(d, s, f); v else v
    else s
  }

  /** The samples of the synthesized audio that land in the track. */
  function Extent(size: int, startSample: int, totalSamples: int): (n: int)
    ensures n <= size && startSample + n <= totalSamples
    ensures n == size || startSample + n == totalSamples
  {
    Min(size, totalSamples - startSample)
  }

  /**
   * The value of track sample idx after the splice, given its value d
   * before. Samples outside the splice keep their value; inside it the value
   * lies between the old and the synthesized sample. The splice is seamless:
   * with a crossfade, the first written sample keeps the old value when the
   * region does not start the track, and the last written sample keeps the
   * old value when the region ends before the track.
   */
  function Spliced(d: real, src: seq<real>, idx: int, startSample: int, cf: int, totalSamples: int): (r: real)
    ensures idx < startSample || idx >= startSample + |src| || idx >= totalSamples ==> r == d
    ensures startSample <= idx < startSample + |src| && idx < totalSamples ==>
      MinR(d, src[idx - startSample]) <= r <= MaxR(d, src[idx - startSample])
    ensures 0 <= startSample && 0 < cf && 2 * cf <= |src| && startSample + |src| < totalSamples ==>
      (startSample > 0 && idx == startSample ==> r == d) && (idx == startSample + |src| - 1 ==> r == d)
  {
    var n := Extent(|src|, startSample, totalSamples);
    if startSample <= idx < startSample + n
    then Blend(d, src[idx - startSample], Factor(idx - startSample, |src|, cf, startSample, totalSamples))
    else d
  }

  /**
   * applyCrossfade: every channel of the track receives the synthesized
   * samples from startSample on, blended by Factor; nothing else changes.
   */
  method ApplyCrossfade(waveform: array2<real>, synthesized: seq<real>, startSample: int, crossfadeSamples: int)
    requires startSample >= 0
    modifies waveform
    ensures forall ch, idx :: 0 <= ch < waveform.Length0 && 0 <= idx < waveform.Length1 ==>
      waveform[ch, idx] == Spliced(old(waveform[ch, idx]), synthesized, idx, startSample, crossfadeSamples, waveform.Length1)
  {
    var numChannels := waveform.Length0;
    var totalSamples := waveform.Length1;
    var synthSize := |synthesized|;
    var i := 0;
    while i < synthSize && startSample + i < totalSamples
      invariant 0 <= i
      invariant i <= synthSize && (i == 0 || startSample + i <= totalSamples)
      invariant forall ch, idx :: 0 <= ch < numChannels && 0 <= idx < totalSamples ==>
        waveform[ch, idx] == (if startSample <= idx < startSample + i
          then Spliced(old(waveform[ch, idx]), synthesized, idx, startSample, crossfadeSamples, totalSamples)
          else old(waveform[ch, idx]))
    {
      var dstIdx := startSample + i;
      var srcVal := synthesized[i];
      var factor := 1.0;
      if i < crossfadeSamples && startSample > 0 {
        factor := i as real / crossfadeSamples as real;
      } else if i >= synthSize - crossfadeSamples && startSample + synthSize < totalSamples {
        factor := (synthSize - 1 - i) as real / crossfadeSamples as real;
      }
      assert factor == Factor(i, synthSize, crossfadeSamples, startSample, totalSamples);
      WriteColumn(waveform, dstIdx, srcVal, factor);
      i := i + 1;
    }
  }

  /** The channel loop of one output sample: column dstIdx of every channel is blended with srcVal. */
  method WriteColumn(waveform: array2<real>, dstIdx: int, srcVal: real, factor: real)
    requires 0 <= dstIdx < waveform.Length1
    modifies waveform
    ensures forall c, idx :: 0 <= c < waveform.Length0 && 0 <= idx < waveform.Length1 ==>
      waveform[c, idx] == (if idx == dstIdx then Blend(old(waveform[c, idx]), srcVal, factor) else old(waveform[c, idx]))
  {
    for ch := 0 to waveform.Length0
      invariant forall c, idx :: 0 <= c < waveform.Length0 && 0 <= idx < waveform.Length1 ==>
        waveform[c, idx] == (if idx == dstIdx && c < ch then Blend(old(waveform[c, idx]), srcVal, factor) else old(waveform[c, idx]))
    {
      if factor < 1.0 {
        waveform[ch, dstIdx] := waveform[ch, dstIdx] * (1.0 - factor) + srcVal * factor;
      } else {
        waveform[ch, dstIdx] := srcVal;
      }
    }
  }

  // ---------------------------------------------------------------------------
  // The scheduler
  // ---------------------------------------------------------------------------

  /**
   * Whether a completion may splice its output: every rejection test of the
   * handler fails. An accepted completion has samples, starts inside the
   * track, writes at least one sample there, and is within two hops of the
   * requested length.
   */
  predicate Accepts(stale: bool, hopSize: int, startSample: int, endSample: int, actualSamples: int, totalSamples: int)
    ensures Accepts(stale, hopSize, startSample, endSample, actualSamples, totalSamples) ==>
      && actualSamples > 0 && startSample < totalSamples
      && Extent(actualSamples, startSample, totalSamples) > 0
      && endSample - startSample - 2 * hopSize <= actualSamples <= endSample - startSample + 2 * hopSize
  {
    && !stale
    && actualSamples != 0
    && AbsInt(actualSamples - (endSample - startSample)) <= hopSize * 2
    && Min(actualSamples, totalSamples - startSample) > 0
  }

  function AbsInt(x: int): nat { if x < 0 then -x else x }

  class IncrementalSynthesizer {
    var vocoder: Vocoder?
    var project: Project?
    var cancelFlag: CancelFlag?
    var jobId: nat
    var isBusy: bool

    constructor (vocoder: Vocoder?, project: Project?)
      ensures this.vocoder == vocoder && this.project == project
      ensures cancelFlag == null && jobId == 0 && !isBusy
    {
      this.vocoder := vocoder;
      this.project := project;
      cancelFlag := null;
      jobId := 0;
      isBusy := false;
    }

    /** cancel: raises the current job's flag, if there is one. */
    method Cancel()
      modifies cancelFlag
      ensures cancelFlag != null ==> cancelFlag.cancelled
    {
      if cancelFlag != null {
        cancelFlag.cancelled := true;
      }
    }

    /**
     * The request-time checks of synthesizeDirtyRegion, in order, on the
     * current state. A request that proceeds has a dirty range, and its
     * padded mel range is non-empty, inside the mel spectrogram and starts
     * no later than the dirty range.
     */
    predicate Proceeds(adjustedF0ForRange: (int, int) -> seq<real>)
      reads this, project, vocoder
      requires project != null ==> StartsNonNegative(project.notes)
      ensures Proceeds(adjustedF0ForRange) ==>
        && project != null && project.GetDirtyFrameRange() != NO_RANGE
        && var d := project.GetDirtyFrameRange();
           var r := PaddedRange(d.0, d.1, |project.melSpectrogram|);
           0 <= r.0 <= d.0 && r.0 < r.1 <= |project.melSpectrogram|
    {
      && project != null && vocoder != null
      && project.melSpectrogram != [] && project.f0 != []
      && vocoder.loaded
      && (project.HasDirtyNotes() || project.HasF0DirtyRange())
      && project.GetDirtyFrameRange().0 >= 0 && project.GetDirtyFrameRange().1 >= 0
      && var r := PaddedRange(project.GetDirtyFrameRange().0, project.GetDirtyFrameRange().1, |project.melSpectrogram|);
        r.0 < r.1 && adjustedF0ForRange(r.0, r.1) != []
    }

    /**
     * synthesizeDirtyRegion up to the vocoder submission. None is the
     * immediate onComplete(false) and leaves everything as it was. Some(job)
     * is a submitted job: the previous flag is raised, a fresh flag is
     * current, the job id is one larger, and the scheduler is busy.
     * adjustedF0ForRange is the project's range-limited adjusted F0.
     */
    method SynthesizeDirtyRegion(adjustedF0ForRange: (int, int) -> seq<real>) returns (job: Option<Job>)
      requires project != null ==> StartsNonNegative(project.notes)
      modifies this, cancelFlag
      ensures job.None? <==> !old(Proceeds(adjustedF0ForRange))
      ensures job.None? ==> unchanged(this) && (old(cancelFlag) != null ==> unchanged(old(cancelFlag)))
      ensures job.Some? ==> (project != null && vocoder != null && StartsNonNegative(project.notes) &&
        var r := PaddedRange(project.GetDirtyFrameRange().0, project.GetDirtyFrameRange().1, |project.melSpectrogram|);
        && job.value.id == jobId == old(jobId) + 1
        && cancelFlag == job.value.flag && fresh(cancelFlag) && !cancelFlag.cancelled
        && (old(cancelFlag) != null ==> old(cancelFlag).cancelled)
        && isBusy
        && project == old(project) && vocoder == old(vocoder)
        && job.value.project == project
        && job.value.hopSize == vocoder.hopSize
        && job.value.startSample == r.0 * vocoder.hopSize
        && job.value.endSample == r.1 * vocoder.hopSize
        && job.value.melRange == project.melSpectrogram[r.0..r.1]
        && job.value.f0Range == adjustedF0ForRange(r.0, r.1))
    {
      if !Proceeds(adjustedF0ForRange) {
        return None;
      }
      var dirty := project.GetDirtyFrameRange();
      var r := PaddedRange(dirty.0, dirty.1, |project.melSpectrogram|);
      var startFrame, endFrame := r.0, r.1;
      var melRange := MelRange(project.melSpectrogram, startFrame, endFrame);
      var adjustedF0Range := adjustedF0ForRange(startFrame, endFrame);

      if cancelFlag != null {
        cancelFlag.cancelled := true;
      }
      cancelFlag := new CancelFlag();
      jobId := jobId + 1;
      isBusy := true;

      var hopSize := vocoder.hopSize;
      job := Some(Job(jobId, cancelFlag, project, startFrame * hopSize, endFrame * hopSize, hopSize,
        melRange, adjustedF0Range));
    }

    /**
     * The completion handler given to the vocoder. A superseded or cancelled
     * job, an empty output, an output whose length is off by more than two
     * hops, or an output that would land past the track end is rejected and
     * nothing but the busy flag changes. Otherwise the output is crossfaded
     * into every channel of the project's waveform and all dirty flags are
     * cleared.
     */
    method OnInferenceComplete(job: Job, synthesized: seq<real>) returns (success: bool)
      requires job.startSample >= 0 && job.hopSize > 0
      modifies this, job.project, job.project.waveform
      ensures !isBusy
      ensures jobId == old(jobId) && cancelFlag == old(cancelFlag)
      ensures vocoder == old(vocoder) && project == old(project)
      ensures success <==> Accepts(old(job.flag.cancelled) || job.id != old(jobId), job.hopSize,
        job.startSample, job.endSample, |synthesized|, old(job.project.waveform.Length1))
      ensures !success ==> unchanged(job.project) && unchanged(job.project.waveform)
      ensures success ==>
        var w := job.project.waveform;
        var n := Min(|synthesized|, w.Length1 - job.startSample);
        var cf := CrossfadeLength(job.hopSize, |synthesized|);
        && w == old(job.project.waveform)
        && (forall ch, idx :: 0 <= ch < w.Length0 && 0 <= idx < w.Length1 ==>
          w[ch, idx] == Spliced(old(w[ch, idx]), synthesized[..n], idx, job.startSample, cf, w.Length1))
        && !job.project.HasDirtyNotes() && !job.project.HasF0DirtyRange()
        && |job.project.notes| == old(|job.project.notes|)
        && (forall k :: 0 <= k < |job.project.notes| ==>
          job.project.notes[k] == old(job.project.notes[k]).(dirty := false))
        && job.project.f0 == old(job.project.f0) && job.project.voicedMask == old(job.project.voicedMask)
        && job.project.melSpectrogram == old(job.project.melSpectrogram)
        && job.project.globalPitchOffset == old(job.project.globalPitchOffset)
        && job.project.curveRebuilds == old(job.project.curveRebuilds)
    {
      if job.flag.cancelled || job.id != jobId {
        isBusy := false;
        return false;
      }
      if |synthesized| == 0 {
        isBusy := false;
        return false;
      }
      var waveform := job.project.waveform;
      var totalSamples := waveform.Length1;
      var expectedSamples := job.endSample - job.startSample;
      var actualSamples := |synthesized|;
      if AbsInt(actualSamples - expectedSamples) > job.hopSize * 2 {
        isBusy := false;
        return false;
      }
      var replaceStartSample := job.startSample;
      var replaceSamples := Min(actualSamples, totalSamples - replaceStartSample);
      if replaceSamples <= 0 {
        isBusy := false;
        return false;
      }
      var crossfadeSamples := CrossfadeLength(job.hopSize, actualSamples);
      ApplyCrossfade(waveform, synthesized[..replaceSamples], replaceStartSample, crossfadeSamples);
      job.project.ClearAllDirty();
      isBusy := false;
      success := true;
    }
  }

  /**
   * Once a newer job has been submitted, the completion of any job issued
   * before it reports false and leaves the waveform and the notes alone.
   */
  method StaleCompletionNeverWrites(s: IncrementalSynthesizer, stale: Job, synthesized: seq<real>,
                                    adjustedF0ForRange: (int, int) -> seq<real>)
    returns (submitted: bool, success: bool)
    requires s.project != null ==> StartsNonNegative(s.project.notes)
    requires stale.id <= s.jobId && stale.startSample >= 0 && stale.hopSize > 0
    modifies s, s.cancelFlag, stale.project, stale.project.waveform
    ensures submitted ==> !success
    ensures submitted ==> unchanged(stale.project) && unchanged(stale.project.waveform)
  {
    var job := s.SynthesizeDirtyRegion(adjustedF0ForRange);
    submitted := job.Some?;
    success := false;
    if submitted {
      success := s.OnInferenceComplete(stale, synthesized);
    }
  }
}
