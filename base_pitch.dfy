/**
 * The smoothed base-pitch curve (Source/Utils/BasePitchCurve.cpp).
 *
 * Notes are laid out on a 1 ms grid (each note's MIDI inside its span, the
 * nearer neighbour's MIDI in a gap, the outer notes' MIDI before the first
 * and after the last note), convolved with a normalised 119-tap cosine
 * kernel, and resampled to the 512-sample frame grid. The delta curve is the
 * F0 in MIDI minus the base; re-applying a delta on a new base yields Hz.
 */
module BasePitch {
  import opened RealMath
  import opened Units

  /** BasePitchCurve::NoteSegment */
  datatype NoteSegment = NoteSegment(startFrame: int, endFrame: int, midiNote: real)

  const KERNEL_SIZE: int := 119
  /** KERNEL_SIZE / 2 in integer arithmetic */
  const KERNEL_HALF: int := 59
  /** the total smoothing window, in seconds */
  const SMOOTH_WINDOW: real := 0.12
  /** 1000 * HOP_SIZE / SAMPLE_RATE milliseconds per frame */
  const MS_PER_FRAME: real := 512000.0 / 44100.0
  /** milliseconds of padding after the last frame */
  const MS_PADDING: int := 200

  // ---------------------------------------------------------------------------
  // The cosine kernel
  // ---------------------------------------------------------------------------

  /** The cosine argument of tap i: pi times the tap's time offset over the window. */
  function KernelArg(i: int): real
  {
    PI * (0.001 * (i - KERNEL_HALF) as real) / SMOOTH_WINDOW
  }

  function Tap(i: int): real
  {
    Cos(KernelArg(i))
  }

  /** The first n taps, before normalisation. */
  function TapsUpTo(n: nat): (t: seq<real>)
    ensures |t| == n
  {
    seq(n, i => Tap(i))
  }

  /** The kernel before normalisation. */
  function Taps(): (t: seq<real>)
    ensures |t| == KERNEL_SIZE
  {
    TapsUpTo(KERNEL_SIZE)
  }

  /** Every tap's argument stays inside the half period where cos is positive. */
  lemma KernelArgInRange(i: int)
    requires 0 <= i < KERNEL_SIZE
    ensures -1.57 <= KernelArg(i) <= 1.57
  {
    var k := (i - KERNEL_HALF) as real;
    assert -59.0 <= k <= 59.0;
    assert KernelArg(i) == PI * k / 120.0;
  }

  lemma TapsSumPositive()
    requires Laws()
    ensures Sum(Taps()) > 0.0
    ensures forall i :: 0 <= i < KERNEL_SIZE ==> Taps()[i] > 0.0
  {
    forall i | 0 <= i < KERNEL_SIZE
      ensures Taps()[i] > 0.0
    {
      KernelArgInRange(i);
    }
    SumPositive(Taps());
  }

  /** The kernel createCosineKernel returns: the taps divided by their sum. */
  function Kernel(): (k: seq<real>)
    requires Laws()
    ensures |k| == KERNEL_SIZE
  {
    TapsSumPositive();
    var total := Sum(Taps());
    seq(KERNEL_SIZE, i requires 0 <= i < KERNEL_SIZE => Taps()[i] / total)
  }

  /** The normalised kernel is positive and sums to exactly 1. */
  lemma KernelNormalised()
    requires Laws()
    ensures Sum(Kernel()) == 1.0
    ensures forall i :: 0 <= i < KERNEL_SIZE ==> Kernel()[i] > 0.0
  {
    TapsSumPositive();
    var taps := Taps();
    var total := Sum(taps);
    SumScaled(taps, total);
    assert Kernel() == seq(|taps|, i requires 0 <= i < |taps| => taps[i] / total);
    KernelPositive();
  }

  lemma KernelPositive()
    requires Laws()
    ensures forall i :: 0 <= i < KERNEL_SIZE ==> Kernel()[i] > 0.0
  {
    TapsSumPositive();
    var taps := Taps();
    var total := Sum(taps);
    var k := Kernel();
    forall i | 0 <= i < KERNEL_SIZE
      ensures k[i] > 0.0
    {
      assert k[i] == taps[i] / total;
      DivPositive(taps[i], total);
    }
  }

  lemma DivPositive(a: real, b: real)
    requires a > 0.0 && b > 0.0
    ensures a / b > 0.0
  {
  }

  /** createCosineKernel: the taps with their running sum, then normalised in place. */
  method CreateCosineKernel() returns (kernel: array<real>)
    requires Laws()
    ensures fresh(kernel)
    ensures kernel[..] == Kernel()
  {
    var sum;
    kernel, sum := FillTaps(KERNEL_SIZE);
    TapsSumPositive();
    Normalise(kernel, sum);
    assert kernel[..] == Kernel();
  }

  /** The first loop of createCosineKernel: every tap, with the running sum. */
  method FillTaps(n: nat) returns (kernel: array<real>, sum: real)
    ensures fresh(kernel)
    ensures kernel[..] == TapsUpTo(n) && sum == Sum(TapsUpTo(n))
  {
    kernel := new real[n];
    sum := 0.0;
    for i := 0 to n
      invariant forall x :: 0 <= x < i ==> kernel[x] == Tap(x)
      invariant sum == Sum(kernel[..i])
    {
      kernel[i] := CosineTap(i);
      assert kernel[..i + 1][..i] == kernel[..i];
      sum := sum + kernel[i];
    }
    assert kernel[..] == kernel[..n] == TapsUpTo(n);
  }

  /** The body of the first loop of createCosineKernel: the cosine at the tap's time offset. */
  method CosineTap(i: int) returns (v: real)
    ensures v == Tap(i)
  {
    var time := 0.001 * (i - KERNEL_HALF) as real;
    v := Cos(PI * time / SMOOTH_WINDOW);
  }

  /** The second loop of createCosineKernel: every value divided by the sum, in place. */
  method Normalise(kernel: array<real>, sum: real)
    requires sum != 0.0
    modifies kernel
    ensures kernel[..] == seq(kernel.Length, i requires 0 <= i < kernel.Length => old(kernel[i]) / sum)
  {
    for i := 0 to kernel.Length
      invariant forall x :: 0 <= x < i ==> kernel[x] == old(kernel[x]) / sum
      invariant forall x :: i <= x < kernel.Length ==> kernel[x] == old(kernel[x])
    {
      kernel[i] := kernel[i] / sum;
    }
  }

  // ---------------------------------------------------------------------------
  // The millisecond grid
  // ---------------------------------------------------------------------------

  /** Grid points: the frames' duration in whole milliseconds, plus the padding. */
  function TotalMs(totalFrames: int): (n: int)
    requires totalFrames > 0
    ensures n >= MS_PADDING
    ensures (n - MS_PADDING) as real <= totalFrames as real * MS_PER_FRAME < (n - MS_PADDING + 1) as real
  {
    Trunc(totalFrames as real * MS_PER_FRAME) + MS_PADDING
  }

  /** The frame position of a grid point. */
  function FramePos(ms: int): real
  {
    ms as real / MS_PER_FRAME
  }

  /**
   * The note search of one grid point, from note i on: the inner loop of
   * generateForNotes. What it finds is the MIDI of note i or a later one;
   * 0 means nothing was found.
   */
  function SearchFrom(notes: seq<NoteSegment>, pos: real, i: nat): (r: real)
    ensures r == 0.0 || exists k :: i <= k < |notes| && r == notes[k].midiNote
    decreases |notes| - i
  {
    if i >= |notes| then 0.0
    else if pos >= notes[i].startFrame as real && pos < notes[i].endFrame as real then notes[i].midiNote
    else if i < |notes| - 1 && pos >= notes[i].endFrame as real && pos < notes[i + 1].startFrame as real then
      (if pos < 0.5 * (notes[i].endFrame + notes[i + 1].startFrame) as real then notes[i].midiNote else notes[i + 1].midiNote)
    else SearchFrom(notes, pos, i + 1)
  }

  /**
   * The initial value of a grid point: the search result, or the outer
   * notes' MIDI where it is still 0. It is always some note's MIDI, or 0.
   */
  function InitValue(notes: seq<NoteSegment>, pos: real): (r: real)
    requires notes != []
    ensures r == 0.0 || exists k :: 0 <= k < |notes| && r == notes[k].midiNote
  {
    var v := SearchFrom(notes, pos, 0);
    if v == 0.0 then
      if pos < notes[0].startFrame as real then notes[0].midiNote
      else if pos >= notes[|notes| - 1].endFrame as real then notes[|notes| - 1].midiNote
      else 0.0
    else v
  }

  function InitValues(notes: seq<NoteSegment>, totalMs: nat): (r: seq<real>)
    requires notes != []
    ensures |r| == totalMs
  {
    seq(totalMs, ms => InitValue(notes, FramePos(ms)))
  }

  /** The first j products of the convolution at grid point i; source indices are clamped to the grid, so a silent grid stays silent. */
  function ConvSum(init: seq<real>, kernel: seq<real>, i: int, j: nat): (r: real)
    requires init != [] && j <= |kernel|
    ensures (forall x :: 0 <= x < |init| ==> init[x] == 0.0) ==> r == 0.0
  {
    if j == 0 then 0.0
    else ConvSum(init, kernel, i, j - 1) + init[Clamp(i - KERNEL_HALF + (j - 1), 0, |init| - 1)] * kernel[j - 1]
  }

  function Smoothed(init: seq<real>, kernel: seq<real>): (r: seq<real>)
    requires init != []
    ensures |r| == |init|
  {
    seq(|init|, i => ConvSum(init, kernel, i, |kernel|))
  }

  /** The frame value: linear interpolation between the two grid points around the frame's time; a constant grid gives its constant. */
  function ResampleAt(smoothed: seq<real>, frame: nat): (r: real)
    requires smoothed != []
    ensures (forall x :: 0 <= x < |smoothed| ==> smoothed[x] == smoothed[0]) ==> r == smoothed[0]
  {
    var ms := frame as real * MS_PER_FRAME;
    var msIdx := Trunc(ms);
    var frac := ms - msIdx as real;
    assert smoothed[0] * (1.0 - frac) + smoothed[0] * frac == smoothed[0];
    if msIdx + 1 < |smoothed| then smoothed[msIdx] * (1.0 - frac) + smoothed[msIdx + 1] * frac
    else if msIdx < |smoothed| then smoothed[msIdx]
    else smoothed[|smoothed| - 1]
  }

  /** The curve generateForNotes returns. */
  function BaseCurve(notes: seq<NoteSegment>, totalFrames: int): (r: seq<real>)
    requires Laws()
    ensures notes == [] || totalFrames <= 0 ==> r == []
    ensures notes != [] && totalFrames > 0 ==> |r| == totalFrames
  {
    if notes == [] || totalFrames <= 0 then []
    else
      var smoothed := Smoothed(InitValues(notes, TotalMs(totalFrames)), Kernel());
      seq(totalFrames, f requires 0 <= f => ResampleAt(smoothed, f))
  }

  // ---------------------------------------------------------------------------
  // generateForNotes, stage by stage
  // ---------------------------------------------------------------------------

  /** The grid loop of generateForNotes, with its note search and its outer-note fallback. */
  method FillInitValues(notes: seq<NoteSegment>, totalMs: nat) returns (initValues: array<real>)
    requires notes != []
    ensures fresh(initValues)
    ensures initValues[..] == InitValues(notes, totalMs)
  {
    initValues := new real[totalMs](_ => 0.0);
    for ms := 0 to totalMs
      invariant forall x :: 0 <= x < ms ==> initValues[x] == InitValue(notes, FramePos(x))
      invariant forall x :: ms <= x < totalMs ==> initValues[x] == 0.0
    {
      var framePos := ms as real / MS_PER_FRAME;
      var i := 0;
      var found := false;
      while i < |notes| && !found
        invariant 0 <= i <= |notes|
        decreases |notes| - i, if found then 0 else 1
        invariant !found ==> initValues[ms] == 0.0 && SearchFrom(notes, framePos, i) == SearchFrom(notes, framePos, 0)
        invariant found ==> initValues[ms] == SearchFrom(notes, framePos, 0)
        invariant forall x :: 0 <= x < ms ==> initValues[x] == InitValue(notes, FramePos(x))
        invariant forall x :: ms < x < totalMs ==> initValues[x] == 0.0
      {
        if framePos >= notes[i].startFrame as real && framePos < notes[i].endFrame as real {
          initValues[ms] := notes[i].midiNote;
          found := true;
        } else if i < |notes| - 1 && framePos >= notes[i].endFrame as real && framePos < notes[i + 1].startFrame as real {
          var midpoint := 0.5 * (notes[i].endFrame + notes[i + 1].startFrame) as real;
          initValues[ms] := if framePos < midpoint then notes[i].midiNote else notes[i + 1].midiNote;
          found := true;
        } else {
          i := i + 1;
        }
      }
      if initValues[ms] == 0.0 {
        if framePos < notes[0].startFrame as real {
          initValues[ms] := notes[0].midiNote;
        } else if framePos >= notes[|notes| - 1].endFrame as real {
          initValues[ms] := notes[|notes| - 1].midiNote;
        }
      }
    }
  }

  /** The convolution loops of generateForNotes: each grid point accumulates its kernel products. */
  method Convolve(initValues: array<real>, kernel: array<real>) returns (smoothedMs: array<real>)
    requires initValues.Length > 0
    ensures fresh(smoothedMs)
    ensures smoothedMs[..] == Smoothed(initValues[..], kernel[..])
  {
    var totalMs := initValues.Length;
    smoothedMs := new real[totalMs](_ => 0.0);
    for i := 0 to totalMs
      invariant forall x :: 0 <= x < i ==> smoothedMs[x] == ConvSum(initValues[..], kernel[..], x, kernel.Length)
    {
      smoothedMs[i] := ConvolveAt(initValues, kernel, i);
    }
  }

  /** The inner loop of the convolution: the kernel products of grid point i, summed from 0.0. */
  method ConvolveAt(initValues: array<real>, kernel: array<real>, i: int) returns (acc: real)
    requires initValues.Length > 0
    ensures acc == ConvSum(initValues[..], kernel[..], i, kernel.Length)
  {
    var totalMs := initValues.Length;
    acc := 0.0;
    for j := 0 to kernel.Length
      invariant acc == ConvSum(initValues[..], kernel[..], i, j)
    {
      var srcIdx := Clamp(i - KERNEL_HALF + j, 0, totalMs - 1);
      acc := acc + initValues[srcIdx] * kernel[j];
    }
  }

  /** The resampling loop of generateForNotes: the smoothed grid read at each frame's time. */
  method Resample(smoothedMs: array<real>, totalFrames: nat) returns (out: array<real>)
    requires smoothedMs.Length > 0
    ensures fresh(out) && out.Length == totalFrames
    ensures forall f :: 0 <= f < totalFrames ==> out[f] == ResampleAt(smoothedMs[..], f)
  {
    var totalMs := smoothedMs.Length;
    var msPerFrame := 1000.0 * HOP_SIZE as real / SAMPLE_RATE as real;
    assert msPerFrame == MS_PER_FRAME;
    out := new real[totalFrames];
    for frame := 0 to totalFrames
      invariant forall x :: 0 <= x < frame ==> out[x] == ResampleAt(smoothedMs[..], x)
    {
      var ms := frame as real * msPerFrame;
      var msIdx := Trunc(ms);
      var frac := ms - msIdx as real;
      var v;
      if msIdx + 1 < totalMs {
        v := smoothedMs[msIdx] * (1.0 - frac) + smoothedMs[msIdx + 1] * frac;
      } else if msIdx < totalMs {
        v := smoothedMs[msIdx];
      } else {
        v := smoothedMs[totalMs - 1];
      }
      assert v == ResampleAt(smoothedMs[..], frame);
      out[frame] := v;
    }
  }

  /** generateForNotes */
  method GenerateForNotes(notes: seq<NoteSegment>, totalFrames: int) returns (result: seq<real>)
    requires Laws()
    ensures result == BaseCurve(notes, totalFrames)
  {
    if notes == [] || totalFrames <= 0 {
      return [];
    }
    var msPerFrame := 1000.0 * HOP_SIZE as real / SAMPLE_RATE as real;
    assert msPerFrame == MS_PER_FRAME;
    var totalMs := Trunc(totalFrames as real * msPerFrame) + 200;
    assert totalMs == TotalMs(totalFrames);
    var initValues := FillInitValues(notes, totalMs);
    var kernel := CreateCosineKernel();
    var smoothedMs := Convolve(initValues, kernel);
    ghost var smoothed := Smoothed(InitValues(notes, totalMs), Kernel());
    assert smoothedMs[..] == smoothed;
    var out := Resample(smoothedMs, totalFrames);
    result := out[..];
    forall f | 0 <= f < totalFrames
      ensures result[f] == ResampleAt(smoothed, f)
    {
      assert result[f] == out[f];
    }
    assert result == BaseCurve(notes, totalFrames);
  }

  /** generateForNote: generateForNotes on the one segment. */
  method GenerateForNote(startFrame: int, endFrame: int, midiNote: real, totalFrames: int) returns (result: seq<real>)
    requires Laws()
    ensures result == BaseCurve([NoteSegment(startFrame, endFrame, midiNote)], totalFrames)
  {
    result := GenerateForNotes([NoteSegment(startFrame, endFrame, midiNote)], totalFrames);
  }

  // ---------------------------------------------------------------------------
  // Properties of the base curve
  // ---------------------------------------------------------------------------

  /** Notes in increasing frame order, each non-empty, none overlapping the next. */
  predicate Ordered(notes: seq<NoteSegment>)
  {
    && (forall i :: 0 <= i < |notes| ==> notes[i].startFrame < notes[i].endFrame)
    && (forall i, j :: 0 <= i < j < |notes| ==> notes[i].endFrame <= notes[j].startFrame)
  }

  /** For ordered notes, a grid point inside a note takes that note's MIDI. */
  lemma {:induction false} SearchInsideNote(notes: seq<NoteSegment>, pos: real, k: nat, i: nat)
    requires Ordered(notes) && i <= k < |notes|
    requires notes[k].startFrame as real <= pos < notes[k].endFrame as real
    ensures SearchFrom(notes, pos, i) == notes[k].midiNote
    decreases k - i
  {
    if i < k {
      assert notes[i].endFrame <= notes[k].startFrame;
      assert notes[i + 1].startFrame <= notes[k].startFrame;
      SearchInsideNote(notes, pos, k, i + 1);
    }
  }

  /**
   * For ordered notes, a grid point in the gap between notes k and k + 1
   * takes the left note's MIDI before the gap's midpoint and the right note's
   * from the midpoint on.
   */
  lemma {:induction false} SearchInGap(notes: seq<NoteSegment>, pos: real, k: nat, i: nat)
    requires Ordered(notes) && i <= k && k + 1 < |notes|
    requires notes[k].endFrame as real <= pos < notes[k + 1].startFrame as real
    ensures SearchFrom(notes, pos, i) ==
      if pos < 0.5 * (notes[k].endFrame + notes[k + 1].startFrame) as real then notes[k].midiNote else notes[k + 1].midiNote
    decreases k - i
  {
    if i < k {
      assert notes[i].endFrame <= notes[k].startFrame;
      assert notes[i + 1].startFrame <= notes[k].startFrame;
      SearchInGap(notes, pos, k, i + 1);
    }
  }

  /** For ordered notes, no note and no gap is found before the first note or after the last. */
  lemma {:induction false} SearchOutside(notes: seq<NoteSegment>, pos: real, i: nat)
    requires Ordered(notes) && notes != [] && i <= |notes|
    requires pos < notes[0].startFrame as real || pos >= notes[|notes| - 1].endFrame as real
    ensures SearchFrom(notes, pos, i) == 0.0
    decreases |notes| - i
  {
    if i < |notes| {
      if 0 < i {
        assert notes[0].endFrame <= notes[i].startFrame;
      }
      if i < |notes| - 1 {
        assert notes[i + 1].endFrame <= notes[|notes| - 1].endFrame by {
          if i + 1 < |notes| - 1 {
            assert notes[i + 1].endFrame <= notes[|notes| - 1].startFrame;
          }
        }
        assert notes[0].startFrame <= notes[i + 1].startFrame by {
          if 0 < i + 1 {
            assert notes[0].endFrame <= notes[i + 1].startFrame;
          }
        }
      }
      if i < |notes| - 1 {
        assert notes[i].endFrame <= notes[|notes| - 1].startFrame;
      }
      SearchOutside(notes, pos, i + 1);
    }
  }

  /** For ordered notes, grid points before the first note take its MIDI, and so do points after the last. */
  lemma OutsideTakesOuterNotes(notes: seq<NoteSegment>, pos: real)
    requires Ordered(notes) && notes != []
    ensures pos < notes[0].startFrame as real ==> InitValue(notes, pos) == notes[0].midiNote
    ensures pos >= notes[|notes| - 1].endFrame as real ==> InitValue(notes, pos) == notes[|notes| - 1].midiNote
  {
    if pos < notes[0].startFrame as real || pos >= notes[|notes| - 1].endFrame as real {
      SearchOutside(notes, pos, 0);
      if |notes| > 1 {
        assert notes[0].endFrame <= notes[|notes| - 1].startFrame;
      }
    }
  }

  /** A single note covers the whole grid with its MIDI. */
  lemma SingleNoteInit(seg: NoteSegment, pos: real)
    ensures InitValue([seg], pos) == seg.midiNote
  {
    assert SearchFrom([seg], pos, 1) == 0.0;
  }

  /** Convolving a constant grid gives the constant times the kernel's partial sum. */
  lemma {:induction false} ConvConstant(init: seq<real>, kernel: seq<real>, i: int, j: nat, c: real)
    requires init != [] && j <= |kernel|
    requires forall x :: 0 <= x < |init| ==> init[x] == c
    ensures ConvSum(init, kernel, i, j) == c * Sum(kernel[..j])
  {
    if j > 0 {
      ConvConstant(init, kernel, i, j - 1, c);
      assert kernel[..j][..j - 1] == kernel[..j - 1];
    }
  }

  /** Resampling a constant grid gives the constant. */
  lemma ResampleConstant(smoothed: seq<real>, frame: nat, c: real)
    requires smoothed != []
    requires forall x :: 0 <= x < |smoothed| ==> smoothed[x] == c
    ensures ResampleAt(smoothed, frame) == c
  {
    var ms := frame as real * MS_PER_FRAME;
    var msIdx := Trunc(ms);
    var frac := ms - msIdx as real;
    assert c * (1.0 - frac) + c * frac == c;
  }

  /** generateForNote is flat: every frame of a single note's base curve is the note's MIDI. */
  lemma SingleNoteFlat(seg: NoteSegment, totalFrames: int)
    requires Laws() && totalFrames > 0
    ensures BaseCurve([seg], totalFrames) == seq(totalFrames, _ => seg.midiNote)
  {
    var init := InitValues([seg], TotalMs(totalFrames));
    SingleNoteInitFlat(seg, TotalMs(totalFrames));
    var smoothed := Smoothed(init, Kernel());
    KernelNormalised();
    SmoothedFlat(init, Kernel(), seg.midiNote);
    forall f | 0 <= f < totalFrames
      ensures BaseCurve([seg], totalFrames)[f] == seg.midiNote
    {
      ResampleConstant(smoothed, f, seg.midiNote);
    }
  }

  lemma SingleNoteInitFlat(seg: NoteSegment, totalMs: nat)
    ensures forall x :: 0 <= x < totalMs ==> InitValues([seg], totalMs)[x] == seg.midiNote
  {
    forall x | 0 <= x < totalMs
      ensures InitValues([seg], totalMs)[x] == seg.midiNote
    {
      SingleNoteInit(seg, FramePos(x));
    }
  }

  /** Smoothing a constant grid with a kernel that sums to 1 gives the constant. */
  lemma SmoothedFlat(init: seq<real>, kernel: seq<real>, c: real)
    requires init != [] && Sum(kernel) == 1.0
    requires forall x :: 0 <= x < |init| ==> init[x] == c
    ensures forall x :: 0 <= x < |init| ==> Smoothed(init, kernel)[x] == c
  {
    assert kernel[..|kernel|] == kernel;
    var smoothed := Smoothed(init, kernel);
    forall x | 0 <= x < |init|
      ensures smoothed[x] == c
    {
      ConvConstant(init, kernel, x, |kernel|, c);
    }
  }

  // ---------------------------------------------------------------------------
  // Delta pitch
  // ---------------------------------------------------------------------------

  /** calculateDeltaPitch: the voiced F0 in MIDI minus the base at the frame's global index. */
  function CalculateDeltaPitch(f0Values: seq<real>, basePitch: seq<real>, startFrame: int): (delta: seq<real>)
    ensures |delta| == |f0Values|
  {
    seq(|f0Values|, i requires 0 <= i < |f0Values| =>
      var globalFrame := startFrame + i;
      if globalFrame < 0 || globalFrame >= |basePitch| then 0.0
      else if f0Values[i] > 0.0 then FreqToMidi(f0Values[i]) - basePitch[globalFrame]
      else 0.0)
  }

  /** applyBasePitchChange: new base plus delta, back in Hz; frames past the delta stay 0. */
  function ApplyBasePitchChange(deltaPitch: seq<real>, newBaseMidi: real, numFrames: nat): (newF0: seq<real>)
    ensures |newF0| == numFrames
  {
    seq(numFrames, i requires 0 <= i < numFrames =>
      if i < |deltaPitch| then MidiToFreq(newBaseMidi + deltaPitch[i]) else 0.0)
  }

  /** The delta is 0 for unvoiced frames and for frames whose global index is off the base curve. */
  lemma DeltaZeroCases(f0Values: seq<real>, basePitch: seq<real>, startFrame: int, i: int)
    requires 0 <= i < |f0Values|
    requires f0Values[i] <= 0.0 || startFrame + i < 0 || startFrame + i >= |basePitch|
    ensures CalculateDeltaPitch(f0Values, basePitch, startFrame)[i] == 0.0
  {
  }

  /**
   * Splitting a voiced F0 into base and delta and re-applying the delta on
   * the same base restores the F0.
   */
  lemma DeltaRoundTrip(f0Values: seq<real>, basePitch: seq<real>, startFrame: int, numFrames: nat, i: int)
    requires Laws()
    requires 0 <= i < |f0Values| && i < numFrames && f0Values[i] > 0.0
    requires 0 <= startFrame + i < |basePitch|
    ensures ApplyBasePitchChange(CalculateDeltaPitch(f0Values, basePitch, startFrame),
      basePitch[startFrame + i], numFrames)[i] == f0Values[i]
  {
    var b := basePitch[startFrame + i];
    var delta := CalculateDeltaPitch(f0Values, basePitch, startFrame);
    assert b + delta[i] == FreqToMidi(f0Values[i]);
    FreqRoundTrip(f0Values[i]);
  }

  /** A frame with no delta (unvoiced or off the base curve) comes back voiced, at the new base's frequency. */
  lemma ZeroDeltaTakesNewBase(deltaPitch: seq<real>, newBaseMidi: real, numFrames: nat, i: int)
    requires Laws()
    requires 0 <= i < |deltaPitch| && i < numFrames && deltaPitch[i] == 0.0
    ensures ApplyBasePitchChange(deltaPitch, newBaseMidi, numFrames)[i] == MidiToFreq(newBaseMidi)
    ensures ApplyBasePitchChange(deltaPitch, newBaseMidi, numFrames)[i] > 0.0
  {
  }
}
