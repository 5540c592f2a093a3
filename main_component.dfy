/**
 * The main window's own audio loading and note segmentation
 * (Source/UI/MainComponent.cpp): the stereo-to-mono mix, the linear
 * resampler to 44.1 kHz, and the segmenter that turns every run of at least
 * five voiced frames into a note.
 */
module MainComponent {
  import opened RealMath
  import opened Units
  import opened Notes
  import opened Projects

  // ---------------------------------------------------------------------------
  // Mono mix
  // ---------------------------------------------------------------------------

  /** The mix of two channels: the mean of each pair of samples. */
  method MixToMono(left: array<real>, right: array<real>, numSamples: nat) returns (mono: array<real>)
    requires numSamples <= left.Length && numSamples <= right.Length
    ensures fresh(mono) && mono.Length == numSamples
    ensures forall i :: 0 <= i < numSamples ==> mono[i] == (left[i] + right[i]) * 0.5
    ensures forall i :: 0 <= i < numSamples ==> MinR(left[i], right[i]) <= mono[i] <= MaxR(left[i], right[i])
  {
    mono := new real[numSamples];
    for i := 0 to numSamples
      invariant forall x :: 0 <= x < i ==> mono[x] == (left[x] + right[x]) * 0.5
    {
      mono[i] := (left[i] + right[i]) * 0.5;
    }
  }

  // ---------------------------------------------------------------------------
  // Linear resampling
  // ---------------------------------------------------------------------------

  /** The source-to-target rate ratio. */
  function Ratio(sampleRate: int): (r: real)
    requires sampleRate > 0
    ensures r > 0.0
  {
    sampleRate as real / SAMPLE_RATE as real
  }

  /** The number of samples after resampling: trunc(numSamples / ratio). */
  function ResampledLength(numSamples: nat, sampleRate: int): (n: nat)
    requires sampleRate > 0
    ensures n as real * Ratio(sampleRate) <= numSamples as real
  {
    var q := numSamples as real / Ratio(sampleRate);
    assert Trunc(q) as real <= q;
    MulMonotoneReal(Trunc(q) as real, q, Ratio(sampleRate));
    Trunc(q)
  }

  lemma MulMonotoneReal(a: real, b: real, c: real)
    requires a <= b && c >= 0.0
    ensures a * c <= b * c
  {
    MulNonNegative(b - a, c);
  }

  /** Output sample i read from the source: its source index and the weight of the next sample. */
  function SourceIndex(i: nat, sampleRate: int): (k: nat)
    requires sampleRate > 0
    ensures k as real <= i as real * Ratio(sampleRate) < k as real + 1.0
  {
    MulNonNegative(i as real, Ratio(sampleRate));
    Trunc(i as real * Ratio(sampleRate))
  }

  /** Output sample i: linear between its two source samples, or the last source sample; a constant source stays constant. */
  function LinearAt(src: seq<real>, sampleRate: int, i: nat): (v: real)
    requires sampleRate > 0
    requires SourceIndex(i, sampleRate) < |src|
    ensures (forall k :: 0 <= k < |src| ==> src[k] == src[0]) ==> v == src[0]
  {
    var srcIndex := SourceIndex(i, sampleRate);
    var frac := i as real * Ratio(sampleRate) - srcIndex as real;
    if srcIndex + 1 < |src| then src[srcIndex] * (1.0 - frac) + src[srcIndex + 1] * frac
    else src[srcIndex]
  }

  /** Every output position reads inside the source: the source index is below the source length. */
  lemma SourceIndexInside(numSamples: nat, sampleRate: int, i: nat)
    requires sampleRate > 0 && i < ResampledLength(numSamples, sampleRate)
    ensures SourceIndex(i, sampleRate) < numSamples
  {
    var r := Ratio(sampleRate);
    var n := ResampledLength(numSamples, sampleRate);
    MulMonotoneReal(i as real + 1.0, n as real, r);
    assert i as real * r + r <= numSamples as real;
  }

  /** The resampled signal. */
  function LinearResampled(src: seq<real>, sampleRate: int): (dst: seq<real>)
    requires sampleRate > 0
    ensures |dst| == ResampledLength(|src|, sampleRate)
  {
    seq(ResampledLength(|src|, sampleRate), i requires 0 <= i < ResampledLength(|src|, sampleRate) =>
      SourceIndexInside(|src|, sampleRate, i); LinearAt(src, sampleRate, i))
  }

  /** The resampling loop of loadAudioFile, run only when the file's rate is not 44.1 kHz. */
  method Resample(src: array<real>, sampleRate: int) returns (dst: array<real>)
    requires sampleRate > 0
    ensures fresh(dst)
    ensures dst[..] == LinearResampled(src[..], sampleRate)
  {
    var numSamples := src.Length;
    var ratio := sampleRate as real / SAMPLE_RATE as real;
    var newNumSamples := ResampledLength(numSamples, sampleRate);
    dst := new real[newNumSamples];
    for i := 0 to newNumSamples
      invariant forall x :: 0 <= x < i ==> SourceIndex(x, sampleRate) < numSamples && dst[x] == LinearAt(src[..], sampleRate, x)
    {
      SourceIndexInside(numSamples, sampleRate, i);
      var srcPos := i as real * ratio;
      var srcIndex := SourceIndex(i, sampleRate);
      var frac := srcPos - srcIndex as real;
      if srcIndex + 1 < numSamples {
        dst[i] := src[srcIndex] * (1.0 - frac) + src[srcIndex + 1] * frac;
      } else {
        dst[i] := src[srcIndex];
      }
    }
    assert dst[..] == LinearResampled(src[..], sampleRate);
  }

  /** Every resampled value lies between the two source samples it is read from. */
  lemma LinearBetweenNeighbours(src: seq<real>, sampleRate: int, i: nat)
    requires sampleRate > 0 && i < ResampledLength(|src|, sampleRate)
    ensures var k := SourceIndex(i, sampleRate);
      k < |src| &&
      (k + 1 < |src| ==> MinR(src[k], src[k + 1]) <= LinearResampled(src, sampleRate)[i] <= MaxR(src[k], src[k + 1])) &&
      (k + 1 >= |src| ==> LinearResampled(src, sampleRate)[i] == src[k])
  {
    SourceIndexInside(|src|, sampleRate, i);
    var k := SourceIndex(i, sampleRate);
    if k + 1 < |src| {
      var frac := i as real * Ratio(sampleRate) - k as real;
      var a := src[k];
      var b := src[k + 1];
      assert a * (1.0 - frac) + b * frac == a + frac * (b - a);
      LerpBetween(a, b, frac);
    }
  }

  /** At the target rate nothing changes; any other rate yields trunc(n / ratio) samples. */
  function LoadedSamples(mono: seq<real>, sampleRate: int): (s: seq<real>)
    requires sampleRate > 0
    ensures sampleRate == SAMPLE_RATE ==> s == mono
    ensures sampleRate != SAMPLE_RATE ==> |s| == ResampledLength(|mono|, sampleRate)
  {
    if sampleRate != SAMPLE_RATE then LinearResampled(mono, sampleRate) else mono
  }

  /** Resampling a 44.1 kHz signal with the general formula would also give it back unchanged. */
  lemma ResampleAtTargetRate(src: seq<real>)
    ensures LinearResampled(src, SAMPLE_RATE) == src
  {
    var dst := LinearResampled(src, SAMPLE_RATE);
    assert Ratio(SAMPLE_RATE) == 1.0;
    assert |dst| == |src|;
    forall i | 0 <= i < |src|
      ensures dst[i] == src[i]
    {
      assert SourceIndex(i, SAMPLE_RATE) == i;
    }
  }

  // ---------------------------------------------------------------------------
  // Segmentation by voiced runs
  // ---------------------------------------------------------------------------

  const MIN_RUN_FRAMES: int := 5

  /** [start, end) is a maximal run of voiced frames of a curve of n frames. */
  ghost predicate MaximalRun(voicedMask: seq<bool>, n: int, start: int, end: int)
    requires n <= |voicedMask|
  {
    && 0 <= start < end <= n
    && (forall j :: start <= j < end ==> voicedMask[j])
    && (start == 0 || !voicedMask[start - 1])
    && (end == n || !voicedMask[end])
  }

  /** The note of a voiced run: pitched at freqToMidi of the run's mean F0. */
  function RunNote(f0: seq<real>, start: int, end: int): (n: Note)
    requires 0 <= start < end <= |f0|
    ensures n.startFrame == start && n.endFrame == end && n.f0Values == f0[start..end]
    ensures n.midiNote == FreqToMidi(Sum(f0[start..end]) / (end - start) as real)
  {
    NewNote(start, end, FreqToMidi(Sum(f0[start..end]) / (end - start) as real)).(f0Values := f0[start..end])
  }

  /** The loop state of segmentIntoNotes and the notes emitted so far. */
  datatype RunState = RunState(inNote: bool, noteStart: int, noteF0Sum: real, noteF0Count: int, notes: seq<Note>)

  /**
   * The loop body for frame i. Afterwards a run is open exactly when frame
   * i is voiced; a note is added only when an unvoiced frame closes a run
   * of at least MIN_RUN_FRAMES frames, and it is that run's note.
   */
  function RunStep(f0: seq<real>, voicedMask: seq<bool>, i: nat, s: RunState): (r: RunState)
    requires i < |f0| <= |voicedMask|
    requires s.inNote ==> 0 <= s.noteStart < i
    ensures r.inNote == voicedMask[i]
    ensures r.inNote ==> 0 <= r.noteStart <= i
    ensures r.notes == s.notes
      || (s.inNote && !voicedMask[i] && i - s.noteStart >= MIN_RUN_FRAMES && r.notes == s.notes + [RunNote(f0, s.noteStart, i)])
  {
    var voiced := voicedMask[i];
    if voiced && !s.inNote then s.(inNote := true, noteStart := i, noteF0Sum := f0[i], noteF0Count := 1)
    else if voiced && s.inNote then s.(noteF0Sum := s.noteF0Sum + f0[i], noteF0Count := s.noteF0Count + 1)
    else if !voiced && s.inNote then
      s.(notes := s.notes + (if i - s.noteStart >= MIN_RUN_FRAMES then [RunNote(f0, s.noteStart, i)] else []), inNote := false)
    else s
  }

  /** The state after the first n frames: the notes so far are runs of at least MIN_RUN_FRAMES closed before frame n. */
  function RunScan(f0: seq<real>, voicedMask: seq<bool>, n: nat): (s: RunState)
    requires n <= |f0| <= |voicedMask|
    ensures s.inNote ==> 0 <= s.noteStart < n
    ensures forall k :: 0 <= k < |s.notes| ==>
      0 <= s.notes[k].startFrame && s.notes[k].startFrame + MIN_RUN_FRAMES <= s.notes[k].endFrame < n
      && s.notes[k].f0Values == f0[s.notes[k].startFrame .. s.notes[k].endFrame]
  {
    if n == 0 then RunState(false, 0, 0.0, 0, [])
    else RunStep(f0, voicedMask, n - 1, RunScan(f0, voicedMask, n - 1))
  }

  /**
   * segmentIntoNotes: the run notes, a run still open at the end closed
   * there. Each is at least MIN_RUN_FRAMES frames inside the F0 curve and
   * carries its slice of it.
   */
  function RunNotes(f0: seq<real>, voicedMask: seq<bool>): (r: seq<Note>)
    requires |f0| <= |voicedMask|
    ensures forall k :: 0 <= k < |r| ==>
      0 <= r[k].startFrame && r[k].startFrame + MIN_RUN_FRAMES <= r[k].endFrame <= |f0|
      && r[k].f0Values == f0[r[k].startFrame .. r[k].endFrame]
  {
    var s := RunScan(f0, voicedMask, |f0|);
    if s.inNote && |f0| - s.noteStart >= MIN_RUN_FRAMES then s.notes + [RunNote(f0, s.noteStart, |f0|)] else s.notes
  }

  /** segmentIntoNotes of the main window; it reads the voiced mask at every F0 frame. */
  method SegmentIntoNotes(project: Project)
    requires |project.f0| <= |project.voicedMask|
    modifies project`notes
    ensures project.notes == RunNotes(project.f0, project.voicedMask)
  {
    project.notes := [];
    if |project.f0| == 0 {
      return;
    }
    var inNote := false;
    var noteStart := 0;
    var noteF0Sum := 0.0;
    var noteF0Count := 0;
    for i := 0 to |project.f0|
      invariant RunState(inNote, noteStart, noteF0Sum, noteF0Count, project.notes) == RunScan(project.f0, project.voicedMask, i)
    {
      var voiced := project.voicedMask[i];
      if voiced && !inNote {
        inNote := true;
        noteStart := i;
        noteF0Sum := project.f0[i];
        noteF0Count := 1;
      } else if voiced && inNote {
        noteF0Sum := noteF0Sum + project.f0[i];
        noteF0Count := noteF0Count + 1;
      } else if !voiced && inNote {
        var noteEnd := i;
        var duration := noteEnd - noteStart;
        if duration >= MIN_RUN_FRAMES {
          project.notes := project.notes + [RunNote(project.f0, noteStart, noteEnd)];
        }
        inNote := false;
      }
    }
    if inNote {
      var noteEnd := |project.f0|;
      if noteEnd - noteStart >= MIN_RUN_FRAMES {
        project.notes := project.notes + [RunNote(project.f0, noteStart, noteEnd)];
      }
    }
  }

  /** The open run: voiced from its start to frame n, preceded by an unvoiced frame, with its F0 sum and count. */
  ghost predicate OpenRun(f0: seq<real>, voicedMask: seq<bool>, n: nat, s: RunState)
    requires n <= |f0| <= |voicedMask|
  {
    && (s.inNote ==>
          && 0 <= s.noteStart < n
          && (forall j :: s.noteStart <= j < n ==> voicedMask[j])
          && (s.noteStart == 0 || !voicedMask[s.noteStart - 1])
          && s.noteF0Sum == Sum(f0[s.noteStart..n]) && s.noteF0Count == n - s.noteStart)
    && (!s.inNote ==> n == 0 || !voicedMask[n - 1])
  }

  /** Every note is a maximal run of at least five frames ending before bound; the notes are in order. */
  ghost predicate NotesAreRuns(f0: seq<real>, voicedMask: seq<bool>, notes: seq<Note>, bound: int)
    requires |f0| <= |voicedMask|
  {
    && (forall k :: 0 <= k < |notes| ==>
          && MaximalRun(voicedMask, |f0|, notes[k].startFrame, notes[k].endFrame)
          && notes[k].endFrame <= bound
          && notes[k].endFrame - notes[k].startFrame >= MIN_RUN_FRAMES
          && notes[k] == RunNote(f0, notes[k].startFrame, notes[k].endFrame))
    && (forall k :: 0 <= k < |notes| - 1 ==> notes[k].endFrame <= notes[k + 1].startFrame)
  }

  /** Every maximal run of at least five frames that ends before bound has its note. */
  ghost predicate RunsHaveNotes(voicedMask: seq<bool>, n: int, notes: seq<Note>, bound: int)
    requires n <= |voicedMask|
  {
    forall start, end :: end < bound && MaximalRun(voicedMask, n, start, end) && end - start >= MIN_RUN_FRAMES ==>
      exists k :: 0 <= k < |notes| && notes[k].startFrame == start && notes[k].endFrame == end
  }

  /** What the loop keeps true after n frames. */
  ghost predicate RunInvariant(f0: seq<real>, voicedMask: seq<bool>, n: nat, s: RunState)
    requires n <= |f0| <= |voicedMask|
  {
    && OpenRun(f0, voicedMask, n, s)
    && NotesAreRuns(f0, voicedMask, s.notes, n - 1)
    && (s.inNote && s.notes != [] ==> s.notes[|s.notes| - 1].endFrame < s.noteStart)
    && RunsHaveNotes(voicedMask, |f0|, s.notes, n)
  }

  /** Two maximal runs that end at the same frame start at the same frame. */
  lemma RunStartUnique(voicedMask: seq<bool>, s1: int, s2: int, end: int)
    requires 0 <= s1 < end && 0 <= s2 < end && end <= |voicedMask|
    requires forall j :: s1 <= j < end ==> voicedMask[j]
    requires forall j :: s2 <= j < end ==> voicedMask[j]
    requires s1 == 0 || !voicedMask[s1 - 1]
    requires s2 == 0 || !voicedMask[s2 - 1]
    ensures s1 == s2
  {
  }

  lemma SumExtend(f0: seq<real>, start: int, n: int)
    requires 0 <= start <= n < |f0|
    ensures Sum(f0[start..n + 1]) == Sum(f0[start..n]) + f0[n]
  {
    assert f0[start..n + 1][..n - start] == f0[start..n];
  }

  /** While frame i is voiced, or no run is open, no maximal run ends at frame i. */
  lemma NoRunEndsAt(f0: seq<real>, voicedMask: seq<bool>, i: nat, s: RunState)
    requires i < |f0| <= |voicedMask|
    requires OpenRun(f0, voicedMask, i, s) && RunsHaveNotes(voicedMask, |f0|, s.notes, i)
    requires voicedMask[i] || !s.inNote
    ensures RunsHaveNotes(voicedMask, |f0|, s.notes, i + 1)
  {
    forall start, end | end < i + 1 && MaximalRun(voicedMask, |f0|, start, end) && end - start >= MIN_RUN_FRAMES
      ensures exists k :: 0 <= k < |s.notes| && s.notes[k].startFrame == start && s.notes[k].endFrame == end
    {
    }
  }

  /** A voiced frame opens a run or extends the open one. */
  lemma VoicedStep(f0: seq<real>, voicedMask: seq<bool>, i: nat, s: RunState)
    requires i < |f0| <= |voicedMask| && voicedMask[i]
    requires RunInvariant(f0, voicedMask, i, s)
    ensures RunInvariant(f0, voicedMask, i + 1, RunStep(f0, voicedMask, i, s))
  {
    var s' := RunStep(f0, voicedMask, i, s);
    VoicedOpenRun(f0, voicedMask, i, s);
    assert s'.notes == s.notes;
    NotesWiden(f0, voicedMask, s.notes, i - 1, i);
    NoRunEndsAt(f0, voicedMask, i, s);
  }

  /** After a voiced frame the run is open and covers that frame. */
  lemma VoicedOpenRun(f0: seq<real>, voicedMask: seq<bool>, i: nat, s: RunState)
    requires i < |f0| <= |voicedMask| && voicedMask[i]
    requires OpenRun(f0, voicedMask, i, s)
    ensures OpenRun(f0, voicedMask, i + 1, RunStep(f0, voicedMask, i, s))
    ensures RunStep(f0, voicedMask, i, s).inNote
    ensures s.inNote ==> RunStep(f0, voicedMask, i, s).noteStart == s.noteStart
  {
    if !s.inNote {
      assert f0[i..i + 1] == [f0[i]];
    } else {
      SumExtend(f0, s.noteStart, i);
    }
  }

  /** Notes that are runs ending before one bound are runs ending before any larger bound. */
  lemma NotesWiden(f0: seq<real>, voicedMask: seq<bool>, notes: seq<Note>, bound: int, bound': int)
    requires |f0| <= |voicedMask|
    requires NotesAreRuns(f0, voicedMask, notes, bound) && bound <= bound'
    ensures NotesAreRuns(f0, voicedMask, notes, bound')
  {
  }

  /** Appending the note of a maximal run that starts after the last note keeps the notes runs. */
  lemma AppendRun(f0: seq<real>, voicedMask: seq<bool>, notes: seq<Note>, start: int, end: int, oldBound: int, bound: int)
    requires |f0| <= |voicedMask|
    requires NotesAreRuns(f0, voicedMask, notes, oldBound) && oldBound <= bound
    requires notes != [] ==> notes[|notes| - 1].endFrame < start
    requires MaximalRun(voicedMask, |f0|, start, end) && end - start >= MIN_RUN_FRAMES && end <= bound
    ensures NotesAreRuns(f0, voicedMask, notes + [RunNote(f0, start, end)], bound)
  {
    var all := notes + [RunNote(f0, start, end)];
    assert all[|notes|] == RunNote(f0, start, end);
    forall k | 0 <= k < |notes|
      ensures all[k] == notes[k]
    {
    }
  }

  /** Once the note of the run ending at end is there, every long run ending at or before end has its note. */
  lemma RunCompleted(voicedMask: seq<bool>, n: int, notes: seq<Note>, note: Note, start: int, end: int)
    requires n <= |voicedMask|
    requires RunsHaveNotes(voicedMask, n, notes, end)
    requires MaximalRun(voicedMask, n, start, end)
    requires note.startFrame == start && note.endFrame == end
    ensures RunsHaveNotes(voicedMask, n, notes + [note], end + 1)
  {
    var all := notes + [note];
    forall s, e | e < end + 1 && MaximalRun(voicedMask, n, s, e) && e - s >= MIN_RUN_FRAMES
      ensures exists k :: 0 <= k < |all| && all[k].startFrame == s && all[k].endFrame == e
    {
      if e == end {
        RunStartUnique(voicedMask, s, start, end);
        assert all[|notes|] == note;
      } else {
        var k :| 0 <= k < |notes| && notes[k].startFrame == s && notes[k].endFrame == e;
        assert all[k] == notes[k];
      }
    }
  }

  /** A run shorter than five frames needs no note. */
  lemma ShortRunSkipped(voicedMask: seq<bool>, n: int, notes: seq<Note>, start: int, end: int)
    requires n <= |voicedMask|
    requires RunsHaveNotes(voicedMask, n, notes, end)
    requires MaximalRun(voicedMask, n, start, end) && end - start < MIN_RUN_FRAMES
    ensures RunsHaveNotes(voicedMask, n, notes, end + 1)
  {
    forall s, e | e < end + 1 && MaximalRun(voicedMask, n, s, e) && e - s >= MIN_RUN_FRAMES
      ensures exists k :: 0 <= k < |notes| && notes[k].startFrame == s && notes[k].endFrame == e
    {
      if e == end {
        RunStartUnique(voicedMask, s, start, end);
      }
    }
  }

  /** An unvoiced frame closes the open run, emitting its note when it is long enough. */
  lemma CloseStep(f0: seq<real>, voicedMask: seq<bool>, i: nat, s: RunState)
    requires i < |f0| <= |voicedMask| && !voicedMask[i] && s.inNote
    requires RunInvariant(f0, voicedMask, i, s)
    ensures RunInvariant(f0, voicedMask, i + 1, RunStep(f0, voicedMask, i, s))
  {
    var r := RunStep(f0, voicedMask, i, s);
    if i - s.noteStart >= MIN_RUN_FRAMES {
      CloseLongRun(f0, voicedMask, i, s);
      assert r == s.(notes := s.notes + [RunNote(f0, s.noteStart, i)], inNote := false);
    } else {
      CloseShortRun(f0, voicedMask, i, s);
      assert r == s.(inNote := false);
    }
  }

  lemma CloseLongRun(f0: seq<real>, voicedMask: seq<bool>, i: nat, s: RunState)
    requires i < |f0| <= |voicedMask| && !voicedMask[i] && s.inNote
    requires RunInvariant(f0, voicedMask, i, s) && i - s.noteStart >= MIN_RUN_FRAMES
    ensures RunInvariant(f0, voicedMask, i + 1, s.(notes := s.notes + [RunNote(f0, s.noteStart, i)], inNote := false))
  {
    assert MaximalRun(voicedMask, |f0|, s.noteStart, i);
    AppendRun(f0, voicedMask, s.notes, s.noteStart, i, i - 1, i);
    RunCompleted(voicedMask, |f0|, s.notes, RunNote(f0, s.noteStart, i), s.noteStart, i);
  }

  lemma CloseShortRun(f0: seq<real>, voicedMask: seq<bool>, i: nat, s: RunState)
    requires i < |f0| <= |voicedMask| && !voicedMask[i] && s.inNote
    requires RunInvariant(f0, voicedMask, i, s) && i - s.noteStart < MIN_RUN_FRAMES
    ensures RunInvariant(f0, voicedMask, i + 1, s.(inNote := false))
  {
    assert MaximalRun(voicedMask, |f0|, s.noteStart, i);
    NotesWiden(f0, voicedMask, s.notes, i - 1, i);
    ShortRunSkipped(voicedMask, |f0|, s.notes, s.noteStart, i);
  }

  lemma RunStepKeepsInvariant(f0: seq<real>, voicedMask: seq<bool>, i: nat, s: RunState)
    requires i < |f0| <= |voicedMask|
    requires RunInvariant(f0, voicedMask, i, s)
    ensures RunInvariant(f0, voicedMask, i + 1, RunStep(f0, voicedMask, i, s))
  {
    if voicedMask[i] {
      VoicedStep(f0, voicedMask, i, s);
    } else if s.inNote {
      CloseStep(f0, voicedMask, i, s);
    } else {
      NoRunEndsAt(f0, voicedMask, i, s);
    }
  }

  lemma {:induction false} RunScanKeepsInvariant(f0: seq<real>, voicedMask: seq<bool>, n: nat)
    requires n <= |f0| <= |voicedMask|
    ensures RunInvariant(f0, voicedMask, n, RunScan(f0, voicedMask, n))
  {
    if n > 0 {
      RunScanKeepsInvariant(f0, voicedMask, n - 1);
      RunStepKeepsInvariant(f0, voicedMask, n - 1, RunScan(f0, voicedMask, n - 1));
    }
  }

  /** The final close: the notes of the scan plus the open run's note make all the run notes. */
  lemma FinalClose(f0: seq<real>, voicedMask: seq<bool>)
    requires |f0| <= |voicedMask|
    ensures NotesAreRuns(f0, voicedMask, RunNotes(f0, voicedMask), |f0|)
    ensures RunsHaveNotes(voicedMask, |f0|, RunNotes(f0, voicedMask), |f0| + 1)
  {
    RunScanKeepsInvariant(f0, voicedMask, |f0|);
    var s := RunScan(f0, voicedMask, |f0|);
    if s.inNote {
      assert MaximalRun(voicedMask, |f0|, s.noteStart, |f0|);
      if |f0| - s.noteStart >= MIN_RUN_FRAMES {
        CloseLongOpenRun(f0, voicedMask, s.notes, s.noteStart);
        assert RunNotes(f0, voicedMask) == s.notes + [RunNote(f0, s.noteStart, |f0|)];
      } else {
        CloseShortOpenRun(f0, voicedMask, s.notes, s.noteStart);
        assert RunNotes(f0, voicedMask) == s.notes;
      }
    } else {
      NoRunEndsAtClose(voicedMask, |f0|, s.notes);
    }
  }

  /** A run of at least five frames still open at the end gets its note. */
  lemma CloseLongOpenRun(f0: seq<real>, voicedMask: seq<bool>, notes: seq<Note>, start: int)
    requires |f0| <= |voicedMask|
    requires NotesAreRuns(f0, voicedMask, notes, |f0| - 1) && RunsHaveNotes(voicedMask, |f0|, notes, |f0|)
    requires notes != [] ==> notes[|notes| - 1].endFrame < start
    requires MaximalRun(voicedMask, |f0|, start, |f0|) && |f0| - start >= MIN_RUN_FRAMES
    ensures NotesAreRuns(f0, voicedMask, notes + [RunNote(f0, start, |f0|)], |f0|)
    ensures RunsHaveNotes(voicedMask, |f0|, notes + [RunNote(f0, start, |f0|)], |f0| + 1)
  {
    AppendRun(f0, voicedMask, notes, start, |f0|, |f0| - 1, |f0|);
    RunCompleted(voicedMask, |f0|, notes, RunNote(f0, start, |f0|), start, |f0|);
  }

  /** A shorter run still open at the end needs no note. */
  lemma CloseShortOpenRun(f0: seq<real>, voicedMask: seq<bool>, notes: seq<Note>, start: int)
    requires |f0| <= |voicedMask|
    requires NotesAreRuns(f0, voicedMask, notes, |f0| - 1) && RunsHaveNotes(voicedMask, |f0|, notes, |f0|)
    requires MaximalRun(voicedMask, |f0|, start, |f0|) && |f0| - start < MIN_RUN_FRAMES
    ensures NotesAreRuns(f0, voicedMask, notes, |f0|)
    ensures RunsHaveNotes(voicedMask, |f0|, notes, |f0| + 1)
  {
    NotesWiden(f0, voicedMask, notes, |f0| - 1, |f0|);
    ShortRunSkipped(voicedMask, |f0|, notes, start, |f0|);
  }

  /** With the last frame unvoiced, no maximal run ends at the end of the curve. */
  lemma NoRunEndsAtClose(voicedMask: seq<bool>, n: int, notes: seq<Note>)
    requires 0 <= n <= |voicedMask| && (n == 0 || !voicedMask[n - 1])
    requires RunsHaveNotes(voicedMask, n, notes, n)
    ensures RunsHaveNotes(voicedMask, n, notes, n + 1)
  {
  }

  /**
   * The notes are exactly the maximal voiced runs of at least five frames,
   * in frame order, each carrying its F0 slice and the MIDI pitch of the
   * run's mean F0.
   */
  lemma RunNotesAreRuns(f0: seq<real>, voicedMask: seq<bool>)
    requires |f0| <= |voicedMask|
    ensures forall k :: 0 <= k < |RunNotes(f0, voicedMask)| ==>
      var n := RunNotes(f0, voicedMask)[k];
      && MaximalRun(voicedMask, |f0|, n.startFrame, n.endFrame)
      && n.endFrame - n.startFrame >= MIN_RUN_FRAMES
      && n == RunNote(f0, n.startFrame, n.endFrame)
    ensures forall k :: 0 <= k < |RunNotes(f0, voicedMask)| - 1 ==>
      RunNotes(f0, voicedMask)[k].endFrame <= RunNotes(f0, voicedMask)[k + 1].startFrame
    ensures forall start, end :: MaximalRun(voicedMask, |f0|, start, end) && end - start >= MIN_RUN_FRAMES ==>
      exists k :: 0 <= k < |RunNotes(f0, voicedMask)| &&
        RunNotes(f0, voicedMask)[k].startFrame == start && RunNotes(f0, voicedMask)[k].endFrame == end
  {
    FinalClose(f0, voicedMask);
  }
}
