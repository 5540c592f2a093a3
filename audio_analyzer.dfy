/**
 * The analysis pipeline (Source/Audio/Analysis/AudioAnalyzer.cpp): the mel
 * spectrogram, F0 extraction (neural FCPE mapped onto the vocoder's frame
 * grid, or YIN), smoothing, and note segmentation, with a cancel check
 * between the stages.
 *
 * The mel spectrogram, the FCPE network, the F0 smoother and the unvoiced-gap
 * interpolation are outside this model; they enter as function parameters.
 */
module AudioAnalysis {
  import opened Wrappers
  import opened RealMath
  import opened Units
  import opened Notes
  import opened Projects
  import opened PitchDetection
  import opened SomeDetection
  import opened NoteSegmentation

  /** Seconds per FCPE frame: a hop of 160 samples at 16 kHz. */
  const FCPE_FRAME_TIME: real := 160.0 / 16000.0
  /** Seconds per vocoder frame: a hop of 512 samples at 44.1 kHz. */
  const VOCODER_FRAME_TIME: real := 512.0 / 44100.0

  /** The position of vocoder frame i on the FCPE frame grid. */
  function FcpePosition(i: nat): (p: real)
    ensures p >= 0.0
  {
    i as real * VOCODER_FRAME_TIME / FCPE_FRAME_TIME
  }

  /** The FCPE frame at or before vocoder frame i. */
  function SourceIndex(i: nat): (k: nat)
    ensures k as real <= FcpePosition(i) < k as real + 1.0
  {
    Trunc(FcpePosition(i))
  }

  /** How far vocoder frame i lies past its FCPE frame. */
  function Fraction(i: nat): (t: real)
    ensures 0.0 <= t < 1.0
  {
    FcpePosition(i) - SourceIndex(i) as real
  }

  /** Interpolation in the log domain: exp((1 - t)·log a + t·log b), positive, and a at t = 0, b at t = 1. */
  function LogLerp(a: real, b: real, t: real): (r: real)
    ensures Laws() ==> r > 0.0
    ensures Laws() && a > 0.0 && t == 0.0 ==> r == a
    ensures Laws() && b > 0.0 && t == 1.0 ==> r == b
  {
    var x := Log(a) * (1.0 - t) + Log(b) * t;
    assert t == 0.0 ==> x == Log(a);
    assert t == 1.0 ==> x == Log(b);
    Exp(x)
  }

  /**
   * The F0 of vocoder frame i, from an FCPE output of at least one frame:
   * unvoiced when the whole output is, voiced when the whole output is.
   */
  function FcpeAt(fcpe: seq<real>, i: nat): (r: real)
    requires fcpe != []
    ensures (forall k :: 0 <= k < |fcpe| ==> fcpe[k] <= 0.0) ==> r <= 0.0
    ensures Laws() && (forall k :: 0 <= k < |fcpe| ==> fcpe[k] > 0.0) ==> r > 0.0
  {
    var srcIdx := SourceIndex(i);
    var frac := Fraction(i);
    if srcIdx + 1 < |fcpe| then
      var a := fcpe[srcIdx];
      var b := fcpe[srcIdx + 1];
      if a > 0.0 && b > 0.0 then LogLerp(a, b, frac)
      else if a > 0.0 then a
      else if b > 0.0 then b
      else 0.0
    else if srcIdx < |fcpe| then fcpe[srcIdx]
    else if fcpe[|fcpe| - 1] > 0.0 then fcpe[|fcpe| - 1]
    else 0.0
  }

  /** The F0 curve on the vocoder grid: targetFrames values, or none when either side is empty. */
  function FcpeF0(fcpe: seq<real>, targetFrames: int): (f0: seq<real>)
    ensures fcpe != [] && targetFrames > 0 ==> |f0| == targetFrames
    ensures fcpe == [] || targetFrames <= 0 ==> f0 == []
    ensures forall i :: 0 <= i < |f0| ==> fcpe != [] && f0[i] == FcpeAt(fcpe, i)
  {
    if fcpe != [] && targetFrames > 0 then seq(targetFrames, i requires 0 <= i => FcpeAt(fcpe, i)) else []
  }

  /** The voiced mask the neural path derives: a frame is voiced when its F0 is positive. */
  function VoicedOf(f0: seq<real>): (mask: seq<bool>)
    ensures |mask| == |f0|
    ensures forall i :: 0 <= i < |f0| ==> (mask[i] <==> f0[i] > 0.0)
  {
    seq(|f0|, i requires 0 <= i < |f0| => f0[i] > 0.0)
  }

  /** The FCPE frames vocoder frame i is taken from: its two brackets, the last one, or the final frame past the end. */
  function Brackets(n: nat, i: nat): (b: set<int>)
    requires n > 0
    ensures forall j :: j in b ==> 0 <= j < n
    ensures b != {}
  {
    var srcIdx := SourceIndex(i);
    if srcIdx + 1 < n then {srcIdx, srcIdx + 1}
    else if srcIdx < n then {srcIdx}
    else {n - 1}
  }

  /** A vocoder frame is voiced exactly when one of its FCPE frames is. */
  lemma FcpeVoicing(fcpe: seq<real>, i: nat)
    requires Laws() && fcpe != []
    ensures FcpeAt(fcpe, i) > 0.0 <==> exists j :: j in Brackets(|fcpe|, i) && fcpe[j] > 0.0
  {
    var srcIdx := SourceIndex(i);
    var br := Brackets(|fcpe|, i);
    if srcIdx + 1 < |fcpe| {
      assert srcIdx in br && srcIdx + 1 in br;
      var a := fcpe[srcIdx];
      var b := fcpe[srcIdx + 1];
      if a > 0.0 && b > 0.0 {
        assert Exp(Log(a) * (1.0 - Fraction(i)) + Log(b) * Fraction(i)) > 0.0;
      }
    } else if srcIdx < |fcpe| {
      assert srcIdx in br;
    } else {
      assert |fcpe| - 1 in br;
    }
  }

  /**
   * A voiced vocoder frame takes a value between the values of its voiced
   * FCPE frames: log-domain interpolation never leaves the bracket.
   */
  lemma FcpeBetweenBrackets(fcpe: seq<real>, i: nat)
    requires Laws() && MonotoneLaws() && fcpe != []
    requires FcpeAt(fcpe, i) > 0.0
    ensures exists j, k ::
              && j in Brackets(|fcpe|, i) && k in Brackets(|fcpe|, i)
              && fcpe[j] > 0.0 && fcpe[k] > 0.0 && fcpe[j] <= FcpeAt(fcpe, i) <= fcpe[k]
  {
    var srcIdx := SourceIndex(i);
    var br := Brackets(|fcpe|, i);
    var v := FcpeAt(fcpe, i);
    if srcIdx + 1 < |fcpe| {
      assert srcIdx in br && srcIdx + 1 in br;
      var a := fcpe[srcIdx];
      var b := fcpe[srcIdx + 1];
      if a > 0.0 && b > 0.0 {
        var t := Fraction(i);
        var la := Log(a);
        var lb := Log(b);
        assert la * (1.0 - t) + lb * t == la + t * (lb - la);
        LerpBetween(la, lb, t);
        var x := la * (1.0 - t) + lb * t;
        assert v == Exp(x);
        if a <= b {
          assert Log(a) <= Log(b);
          assert Exp(la) <= Exp(x) <= Exp(lb);
          assert a <= v <= b;
        } else {
          assert Log(b) <= Log(a);
          assert Exp(lb) <= Exp(x) <= Exp(la);
          assert b <= v <= a;
        }
      } else if a > 0.0 {
        assert a <= v <= a;
      } else {
        assert b <= v <= b;
      }
    } else if srcIdx < |fcpe| {
      assert srcIdx in br;
    } else {
      assert |fcpe| - 1 in br;
    }
  }

  /** A vocoder frame that falls exactly on a voiced FCPE frame takes that frame's value. */
  lemma FcpeOnGrid(fcpe: seq<real>, i: nat)
    requires Laws() && fcpe != []
    requires Fraction(i) == 0.0 && SourceIndex(i) < |fcpe| && fcpe[SourceIndex(i)] > 0.0
    ensures FcpeAt(fcpe, i) == fcpe[SourceIndex(i)]
  {
    var srcIdx := SourceIndex(i);
    if srcIdx + 1 < |fcpe| {
      var a := fcpe[srcIdx];
      var b := fcpe[srcIdx + 1];
      assert Log(a) * (1.0 - 0.0) + Log(b) * 0.0 == Log(a);
    }
  }

  /** The YIN track: one F0 per analysis frame, 0 where no pitch was found. */
  function YinTrack(audio: seq<real>, windowSize: int, hopSize: int, sampleRate: int): (f0: seq<real>)
    requires hopSize > 0 && sampleRate > 0
    ensures |f0| == FrameCount(|audio|, windowSize, hopSize)
    ensures forall i :: 0 <= i < |f0| ==> f0[i] == FrameF0(audio, i, windowSize, hopSize, sampleRate)
  {
    seq(FrameCount(|audio|, windowSize, hopSize), i requires 0 <= i => FrameF0(audio, i, windowSize, hopSize, sampleRate))
  }

  /** The first channel of a waveform with at least one channel. */
  function Channel0(w: array2<real>): (s: seq<real>)
    requires w.Length0 > 0
    reads w
    ensures |s| == w.Length1
    ensures forall j :: 0 <= j < w.Length1 ==> s[j] == w[0, j]
  {
    seq(w.Length1, j requires 0 <= j < w.Length1 reads w => w[0, j])
  }

  /** How analyze ended. */
  datatype Outcome = EmptyWaveform | CancelledAfterMel | CancelledAfterF0 | CancelledAfterSmoothing | Completed

  class AudioAnalyzer {
    /** Set by another thread to stop the analysis; the model reads it at each check. */
    var cancelFlag: bool
    var useFCPE: bool
    /** isFCPEAvailable: an FCPE model is loaded. */
    var fcpeAvailable: bool
    const pitchDetector: PitchDetector
    const someDetector: SomeDetector?

    /** The analyzer after initialize: a YIN detector at 44.1 kHz with a 512-sample hop. */
    constructor (useFCPE: bool, fcpeAvailable: bool, someDetector: SomeDetector?)
      ensures !cancelFlag && this.useFCPE == useFCPE && this.fcpeAvailable == fcpeAvailable
      ensures this.someDetector == someDetector
      ensures pitchDetector.Valid() && pitchDetector.sampleRate == SAMPLE_RATE && pitchDetector.hopSize == HOP_SIZE
    {
      cancelFlag := false;
      this.useFCPE := useFCPE;
      this.fcpeAvailable := fcpeAvailable;
      this.someDetector := someDetector;
      pitchDetector := new PitchDetector(SAMPLE_RATE, HOP_SIZE);
    }

    /** Whether the stage check number `check` sees a cancel request that arrives before check cancelAt. */
    predicate CancelSeen(check: nat, cancelAt: nat)
      reads this
    {
      cancelFlag || check >= cancelAt
    }

    /** A cancel request, once seen by a stage check, is seen by every later one. */
    lemma CancelSticks(check: nat, later: nat, cancelAt: nat)
      requires CancelSeen(check, cancelAt) && check <= later
      ensures CancelSeen(later, cancelAt)
    {
    }

    /** The raw F0 of the chosen extractor: targetFrames frames from FCPE, or one per YIN hop. */
    ghost function RawF0(audio: seq<real>, targetFrames: int, fcpe: seq<real> -> seq<real>): (r: seq<real>)
      reads this
      requires pitchDetector.Valid()
      ensures useFCPE && fcpeAvailable && fcpe(audio) != [] && targetFrames > 0 ==> |r| == targetFrames
      ensures !(useFCPE && fcpeAvailable) ==> |r| == FrameCount(|audio|, pitchDetector.windowSize, pitchDetector.hopSize)
    {
      if useFCPE && fcpeAvailable then FcpeF0(fcpe(audio), targetFrames)
      else YinTrack(audio, pitchDetector.windowSize, pitchDetector.hopSize, pitchDetector.sampleRate)
    }

    /** The notes segmentIntoNotes produces: none without an F0 curve, otherwise notes of at least 3 frames inside it. */
    ghost function Segmented(f0: seq<real>, voicedMask: seq<bool>, audio: seq<real>, infer: seq<real> -> Option<seq<Token>>): (r: seq<Note>)
      reads this, someDetector
      ensures f0 == [] ==> r == []
      ensures forall k :: 0 <= k < |r| ==> 0 <= r[k].startFrame && r[k].startFrame + 3 <= r[k].endFrame <= |f0|
    {
      if f0 == [] then []
      else if someDetector != null && someDetector.loaded && |audio| > 0 then
        SomeNotes(f0, voicedMask, Concat(StreamSpec(audio, SOME_SAMPLE_RATE, infer)))
      else FallbackNotes(f0, voicedMask)
    }

    /** extractF0WithFCPE: the FCPE output mapped onto targetFrames vocoder frames, and its voiced mask. */
    method ExtractF0WithFcpe(project: Project, fcpeF0: seq<real>, targetFrames: int)
      modifies project`f0, project`voicedMask
      ensures project.f0 == FcpeF0(fcpeF0, targetFrames)
      ensures project.voicedMask == VoicedOf(project.f0)
    {
      if fcpeF0 != [] && targetFrames > 0 {
        project.f0 := MapFcpe(fcpeF0, targetFrames);
      } else {
        project.f0 := [];
      }
      project.voicedMask := VoicedMask(project.f0);
    }

    /** extractF0WithYIN: the YIN track of the first channel and its mask, which marks exactly the positive frames. */
    method ExtractF0WithYin(project: Project)
      requires pitchDetector.Valid() && project.waveform.Length0 > 0
      modifies project`f0, project`voicedMask
      ensures project.f0 == YinTrack(Channel0(project.waveform), pitchDetector.windowSize, pitchDetector.hopSize, pitchDetector.sampleRate)
      ensures project.voicedMask == VoicedOf(project.f0)
    {
      var samples := Channel0(project.waveform);
      var f0Values, voicedValues := pitchDetector.ExtractF0(samples);
      project.f0 := f0Values;
      project.voicedMask := voicedValues;
    }

    /** The F0 stage of analyze: FCPE when it is enabled and loaded, YIN otherwise. */
    method ExtractRawF0(project: Project, samples: seq<real>, fcpe: seq<real> -> seq<real>, targetFrames: int)
      requires pitchDetector.Valid() && project.waveform.Length0 > 0 && samples == Channel0(project.waveform)
      modifies project`f0, project`voicedMask
      ensures project.f0 == RawF0(samples, targetFrames, fcpe)
      ensures project.voicedMask == VoicedOf(project.f0)
    {
      if useFCPE && fcpeAvailable {
        ExtractF0WithFcpe(project, fcpe(samples), targetFrames);
      } else {
        ExtractF0WithYin(project);
      }
    }

    /**
     * segmentIntoNotes: the notes are replaced; none for an empty F0 curve,
     * the neural detector's notes when it is loaded and there is audio, and
     * the fallback's notes otherwise. Either segmenter ends by rebuilding the
     * curves from the (non-empty) F0 curve.
     */
    method SegmentIntoNotes(project: Project, infer: seq<real> -> Option<seq<Token>>)
      requires project.waveform.Length1 > 0 ==> project.waveform.Length0 > 0
      modifies project`notes, project`curveRebuilds
      ensures project.waveform.Length0 > 0 ==>
        project.notes == Segmented(project.f0, project.voicedMask, Channel0(project.waveform), infer)
      ensures project.f0 == [] ==> project.notes == []
      ensures project.curveRebuilds == old(project.curveRebuilds) + FinalRebuild(project.f0)
    {
      project.notes := [];
      if project.f0 == [] {
        return;
      }
      if someDetector != null && someDetector.loaded && project.waveform.Length1 > 0 {
        var samples := Channel0(project.waveform);
        var batches := someDetector.DetectNotesStreaming(samples, SOME_SAMPLE_RATE, infer);
        SegmentWithSome(project, batches);
        return;
      }
      SegmentFallback(project);
    }

    /**
     * analyze: nothing for an empty waveform; otherwise the stages run in
     * order and the first cancel check that sees a request ends the run,
     * leaving the results of the stages already done. A run that is not
     * cancelled rebuilds the curves from the final F0 curve, after the
     * segmenter's own rebuild, and then calls onComplete: the outcome
     * Completed is exactly the case in which onComplete is called.
     */
    method Analyze(project: Project,
                   mel: seq<real> -> seq<seq<real>>,
                   fcpe: seq<real> -> seq<real>,
                   smooth: (seq<real>, seq<bool>) -> seq<real>,
                   interpolate: (seq<real>, seq<bool>) -> seq<real>,
                   infer: seq<real> -> Option<seq<Token>>,
                   cancelAt: nat)
        returns (outcome: Outcome)
      requires pitchDetector.Valid()
      requires project.waveform.Length1 > 0 ==> project.waveform.Length0 > 0
      modifies project`melSpectrogram, project`f0, project`voicedMask, project`notes, project`curveRebuilds
      ensures outcome == EmptyWaveform <==> project.waveform.Length1 == 0
      ensures outcome == EmptyWaveform ==> unchanged(project)
      ensures outcome == CancelledAfterMel <==> project.waveform.Length1 > 0 && CancelSeen(1, cancelAt)
      ensures outcome == CancelledAfterF0 <==> project.waveform.Length1 > 0 && !CancelSeen(1, cancelAt) && CancelSeen(2, cancelAt)
      ensures outcome == CancelledAfterSmoothing <==> project.waveform.Length1 > 0 && !CancelSeen(2, cancelAt) && CancelSeen(3, cancelAt)
      ensures outcome == Completed <==> project.waveform.Length1 > 0 && !CancelSeen(3, cancelAt)
      ensures outcome != EmptyWaveform ==>
        var audio := Channel0(project.waveform);
        var raw := RawF0(audio, |mel(audio)|, fcpe);
        && project.melSpectrogram == mel(audio)
        && (outcome == CancelledAfterMel ==> project.f0 == old(project.f0) && project.voicedMask == old(project.voicedMask))
        && (outcome != CancelledAfterMel ==> project.voicedMask == VoicedOf(raw))
        && (outcome == CancelledAfterF0 ==> project.f0 == raw)
        && (outcome in {CancelledAfterSmoothing, Completed} ==>
              project.f0 == interpolate(smooth(raw, VoicedOf(raw)), VoicedOf(raw)))
        && (outcome == Completed ==> project.notes == Segmented(project.f0, project.voicedMask, audio, infer))
        && (outcome != Completed ==> project.notes == old(project.notes))
      ensures outcome == Completed ==>
        project.curveRebuilds == old(project.curveRebuilds) + FinalRebuild(project.f0) + [project.f0]
      ensures outcome != Completed ==> project.curveRebuilds == old(project.curveRebuilds)
    {
      if project.waveform.Length1 == 0 {
        return EmptyWaveform;
      }
      var samples := Channel0(project.waveform);
      project.melSpectrogram := mel(samples);
      var targetFrames := |project.melSpectrogram|;
      assert Channel0(project.waveform) == samples;
      if CancelSeen(1, cancelAt) {
        return CancelledAfterMel;
      }
      ghost var raw := RawF0(samples, targetFrames, fcpe);
      ExtractRawF0(project, samples, fcpe, targetFrames);
      assert Channel0(project.waveform) == samples;
      if CancelSeen(2, cancelAt) {
        return CancelledAfterF0;
      }
      outcome := FinishAnalysis(project, smooth, interpolate, infer, cancelAt);
    }

    /**
     * The last stages of analyze: the F0 curve is smoothed and its gaps
     * filled; unless cancellation is then seen, the notes are segmented and
     * the curves rebuilt from the final F0.
     */
    method FinishAnalysis(project: Project,
                          smooth: (seq<real>, seq<bool>) -> seq<real>,
                          interpolate: (seq<real>, seq<bool>) -> seq<real>,
                          infer: seq<real> -> Option<seq<Token>>,
                          cancelAt: nat)
        returns (outcome: Outcome)
      requires project.waveform.Length1 > 0 && project.waveform.Length0 > 0
      modifies project`f0, project`notes, project`curveRebuilds
      ensures outcome == (if CancelSeen(3, cancelAt) then CancelledAfterSmoothing else Completed)
      ensures project.f0 == interpolate(smooth(old(project.f0), project.voicedMask), project.voicedMask)
      ensures outcome == Completed ==>
        && project.notes == Segmented(project.f0, project.voicedMask, Channel0(project.waveform), infer)
        && project.curveRebuilds == old(project.curveRebuilds) + FinalRebuild(project.f0) + [project.f0]
      ensures outcome != Completed ==>
        project.notes == old(project.notes) && project.curveRebuilds == old(project.curveRebuilds)
    {
      project.f0 := smooth(project.f0, project.voicedMask);
      project.f0 := interpolate(project.f0, project.voicedMask);
      if CancelSeen(3, cancelAt) {
        return CancelledAfterSmoothing;
      }
      SegmentIntoNotes(project, infer);
      project.RebuildCurvesFromSource(project.f0);
      return Completed;
    }
  }

  /** The frame loop of extractF0WithFCPE. */
  method MapFcpe(fcpeF0: seq<real>, targetFrames: nat) returns (values: seq<real>)
    requires fcpeF0 != []
    ensures values == FcpeF0(fcpeF0, targetFrames)
  {
    var f0 := new real[targetFrames];
    for i := 0 to targetFrames
      invariant forall x :: 0 <= x < i ==> f0[x] == FcpeAt(fcpeF0, x)
    {
      f0[i] := FcpeFrame(fcpeF0, i);
    }
    values := f0[..];
    if targetFrames == 0 {
      assert values == [];
    } else {
      assert values == FcpeF0(fcpeF0, targetFrames);
    }
  }

  /** The body of the frame loop of extractF0WithFCPE. */
  method FcpeFrame(fcpeF0: seq<real>, i: nat) returns (f0: real)
    requires fcpeF0 != []
    ensures f0 == FcpeAt(fcpeF0, i)
  {
    var srcIdx := SourceIndex(i);
    var frac := Fraction(i);
    if srcIdx + 1 < |fcpeF0| {
      var f0a := fcpeF0[srcIdx];
      var f0b := fcpeF0[srcIdx + 1];
      if f0a > 0.0 && f0b > 0.0 {
        f0 := LogLerp(f0a, f0b, frac);
      } else if f0a > 0.0 {
        f0 := f0a;
      } else if f0b > 0.0 {
        f0 := f0b;
      } else {
        f0 := 0.0;
      }
    } else if srcIdx < |fcpeF0| {
      f0 := fcpeF0[srcIdx];
    } else {
      f0 := if fcpeF0[|fcpeF0| - 1] > 0.0 then fcpeF0[|fcpeF0| - 1] else 0.0;
    }
  }

  /** The voiced-mask loop of extractF0WithFCPE. */
  method VoicedMask(values: seq<real>) returns (voicedMask: seq<bool>)
    ensures voicedMask == VoicedOf(values)
  {
    var mask := new bool[|values|];
    for i := 0 to |values|
      invariant forall x :: 0 <= x < i ==> mask[x] == (values[x] > 0.0)
    {
      mask[i] := values[i] > 0.0;
    }
    voicedMask := mask[..];
  }

  /** The YIN detector's own mask marks exactly the frames with a positive F0. */
  lemma YinMaskIsVoicing(audio: seq<real>, windowSize: int, hopSize: int, sampleRate: int, mask: seq<bool>)
    requires hopSize > 0 && sampleRate > 0
    requires |mask| == FrameCount(|audio|, windowSize, hopSize)
    requires forall i :: 0 <= i < |mask| ==> (mask[i] <==> F0_MIN <= FrameF0(audio, i, windowSize, hopSize, sampleRate) <= F0_MAX)
    ensures mask == VoicedOf(YinTrack(audio, windowSize, hopSize, sampleRate))
  {
  }
}
