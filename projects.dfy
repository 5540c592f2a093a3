/**
 * The edit model's project (Source/Models/Project.cpp): the analysed audio,
 * the note collection, the global pitch offset, and the per-frame F0 curve
 * that is sent to the vocoder.
 */
module Projects {
  import opened RealMath
  import opened Wrappers
  import opened Notes

  // ---------------------------------------------------------------------------
  // Specification of Project::getAdjustedF0
  // ---------------------------------------------------------------------------

  /** Two neighbouring frame ratios that differ by more than this start a transition. */
  const RATIO_EPSILON: real := 0.001
  /** smoothFrames in getAdjustedF0 is 5: a ramp reaches smoothFrames/2 = 2 frames back and smoothFrames/2 + 2 = 4 ahead */
  const RAMP_BACK: int := 2
  const RAMP_AHEAD: int := 4

  /** Every note of the collection starts at a frame index (the segmenters never produce a negative start). */
  predicate StartsNonNegative(notes: seq<Note>)
  {
    forall k :: 0 <= k < |notes| ==> notes[k].startFrame >= 0
  }

  /** The global offset stage: every voiced (positive) value is scaled by 2^(g/12), the rest are untouched. */
  function GlobalScaled(f0: seq<real>, g: real): (r: seq<real>)
    ensures |r| == |f0|
    ensures forall i :: 0 <= i < |f0| && f0[i] <= 0.0 ==> r[i] == f0[i]
    ensures forall i :: 0 <= i < |f0| && f0[i] > 0.0 ==> r[i] == (if g != 0.0 then f0[i] * OffsetRatio(g) else f0[i])
  {
    if g == 0.0 then f0
    else seq(|f0|, i requires 0 <= i < |f0| => if f0[i] > 0.0 then f0[i] * OffsetRatio(g) else f0[i])
  }

  /** One note's contribution to the frame ratios: its offset ratio on [start, min(end, size)). */
  function ApplyNoteRatio(r: seq<real>, n: Note): (r': seq<real>)
    ensures |r'| == |r|
    ensures forall j :: 0 <= j < |r| ==>
      r'[j] == (if n.pitchOffset != 0.0 && n.startFrame <= j < Min(n.endFrame, |r|) then OffsetRatio(n.pitchOffset) else r[j])
  {
    if n.pitchOffset == 0.0 then r
    else (seq(|r|, j requires 0 <= j < |r| =>
      if n.startFrame <= j < Min(n.endFrame, |r|) then OffsetRatio(n.pitchOffset) else r[j]))
  }

  /** The frame ratios after the note loop: all 1.0, then each note in collection order. */
  function NoteRatios(notes: seq<Note>, size: nat): (r: seq<real>)
    ensures |r| == size
  {
    if notes == [] then seq(size, _ => 1.0)
    else ApplyNoteRatio(NoteRatios(notes[..|notes| - 1], size), notes[|notes| - 1])
  }

  /** The linear ramp of a transition at frame i over [max(0, i-2), min(size, i+4)). */
  function Ramp(r: seq<real>, i: int): (r': seq<real>)
    ensures |r'| == |r|
  {
    var s := Max(0, i - RAMP_BACK);
    var e := Min(|r|, i + RAMP_AHEAD);
    if e - s > 1 then
      seq(|r|, j requires 0 <= j < |r| => if s <= j < e then RampValue(r, s, e, j) else r[j])
    else r
  }

  /** The ramp's value at j: the straight line from r[s] at s to r[e - 1] at e - 1, meeting both ends exactly. */
  function RampValue(r: seq<real>, s: int, e: int, j: int): (v: real)
    requires 0 <= s < e <= |r| && e - s > 1
    ensures j == s ==> v == r[s]
    ensures j == e - 1 ==> v == r[e - 1]
  {
    r[s] + ((j - s) as real / (e - s - 1) as real) * (r[e - 1] - r[s])
  }

  /** One iteration of the transition loop. */
  function SmoothStep(r: seq<real>, i: int): (r': seq<real>)
    requires 1 <= i < |r|
    ensures |r'| == |r|
  {
    if AbsR(r[i] - r[i - 1]) > RATIO_EPSILON then Ramp(r, i) else r
  }

  /** The transition loop from index i to the end; later iterations see earlier ramps. */
  function SmoothFrom(r: seq<real>, i: nat): (r': seq<real>)
    requires i >= 1
    ensures |r'| == |r|
    decreases |r| - i
  {
    if i >= |r| then r else SmoothFrom(SmoothStep(r, i), i + 1)
  }

  /** The last stage: ratios apply where the voiced mask exists and is true. */
  function ApplyVoiced(f: seq<real>, ratios: seq<real>, voiced: seq<bool>): (r: seq<real>)
    requires |ratios| == |f|
    ensures |r| == |f|
    ensures forall i :: 0 <= i < |f| ==>
      r[i] == (if i < |voiced| && voiced[i] then f[i] * ratios[i] else f[i])
  {
    seq(|f|, i requires 0 <= i < |f| => if i < |voiced| && voiced[i] then f[i] * ratios[i] else f[i])
  }

  /** The per-frame F0 curve handed to the vocoder. */
  function AdjustedF0Spec(f0: seq<real>, voiced: seq<bool>, notes: seq<Note>, g: real): (r: seq<real>)
    ensures |r| == |f0|
  {
    if f0 == [] then []
    else ApplyVoiced(GlobalScaled(f0, g), SmoothFrom(NoteRatios(notes, |f0|), 1), voiced)
  }

  // ---------------------------------------------------------------------------
  // Properties of the specification
  // ---------------------------------------------------------------------------

  /** No offset anywhere: every frame ratio stays 1.0. */
  lemma {:induction false} NoteRatiosAllOne(notes: seq<Note>, size: nat)
    requires forall k :: 0 <= k < |notes| ==> notes[k].pitchOffset == 0.0
    ensures NoteRatios(notes, size) == seq(size, _ => 1.0)
  {
    if notes != [] {
      NoteRatiosAllOne(notes[..|notes| - 1], size);
    }
  }

  /** A frame that no note with a non-zero offset covers keeps ratio 1.0. */
  lemma {:induction false} NoteRatiosUncovered(notes: seq<Note>, size: nat, j: nat)
    requires j < size
    requires forall k :: 0 <= k < |notes| && notes[k].pitchOffset != 0.0 ==> !notes[k].ContainsFrame(j)
    ensures NoteRatios(notes, size)[j] == 1.0
  {
    if notes != [] {
      var prefix := notes[..|notes| - 1];
      assert forall k :: 0 <= k < |prefix| ==> prefix[k] == notes[k];
      NoteRatiosUncovered(prefix, size, j);
      var last := notes[|notes| - 1];
      assert last.pitchOffset != 0.0 ==> !last.ContainsFrame(j);
    }
  }

  /**
   * A frame covered by note k (non-zero offset) and by no later such note takes
   * note k's ratio: later notes in collection order win on overlaps.
   */
  lemma {:induction false} NoteRatiosLastWins(notes: seq<Note>, size: nat, j: nat, k: nat)
    requires j < size && k < |notes|
    requires notes[k].pitchOffset != 0.0 && notes[k].ContainsFrame(j)
    requires forall m :: k < m < |notes| && notes[m].pitchOffset != 0.0 ==> !notes[m].ContainsFrame(j)
    ensures NoteRatios(notes, size)[j] == OffsetRatio(notes[k].pitchOffset)
  {
    var last := notes[|notes| - 1];
    if k < |notes| - 1 {
      var prefix := notes[..|notes| - 1];
      assert forall m :: 0 <= m < |prefix| ==> prefix[m] == notes[m];
      NoteRatiosLastWins(prefix, size, j, k);
      assert last.pitchOffset != 0.0 ==> !last.ContainsFrame(j);
    }
  }

  /** A ramp writes only inside its window and keeps the values at both ends of the window. */
  lemma RampFrame(r: seq<real>, i: int)
    ensures var r' := Ramp(r, i);
      var s := Max(0, i - 2);
      var e := Min(|r|, i + 4);
      && (forall j :: 0 <= j < |r| && !(s <= j < e) ==> r'[j] == r[j])
      && (0 <= s < |r| ==> r'[s] == r[s])
      && (0 <= e - 1 < |r| ==> r'[e - 1] == r[e - 1])
  {
    var s := Max(0, i - 2);
    var e := Min(|r|, i + 4);
    if e - s > 1 {
      var d := (e - s - 1) as real;
      assert (e - 1 - s) as real == d;
      assert d / d == 1.0;
    }
  }

  /** Every ramp value lies between the two values the ramp joins. */
  lemma RampBetween(r: seq<real>, i: int, j: int)
    requires 0 <= j < |r|
    requires Min(|r|, i + 4) - Max(0, i - 2) > 1
    requires Max(0, i - 2) <= j < Min(|r|, i + 4)
    ensures MinR(r[Max(0, i - 2)], r[Min(|r|, i + 4) - 1]) <= Ramp(r, i)[j]
    ensures Ramp(r, i)[j] <= MaxR(r[Max(0, i - 2)], r[Min(|r|, i + 4) - 1])
  {
    var s := Max(0, i - 2);
    var e := Min(|r|, i + 4);
    RampAt(r, i, j);
    RampValueBetween(r, s, e, j);
  }

  lemma RampValueBetween(r: seq<real>, s: int, e: int, j: int)
    requires 0 <= s <= j < e <= |r| && e - s > 1
    ensures MinR(r[s], r[e - 1]) <= RampValue(r, s, e, j) <= MaxR(r[s], r[e - 1])
  {
    var t := (j - s) as real / (e - s - 1) as real;
    FractionInUnit(j - s, e - s - 1);
    LerpBetween(r[s], r[e - 1], t);
  }

  /** Frames more than RAMP_BACK behind the loop's position are final: no later ramp reaches back to them. */
  lemma {:induction false} SmoothFromSettled(r: seq<real>, i: nat, j: int)
    requires i >= 1 && 0 <= j < |r| && j < i - RAMP_BACK
    ensures SmoothFrom(r, i)[j] == r[j]
    decreases |r| - i
  {
    if i < |r| {
      SmoothFromSettled(SmoothStep(r, i), i + 1, j);
    }
  }

  /**
   * A frame keeps its ratio when the curve is flat from the first frame to
   * RAMP_BACK frames past it: no index up to there is a transition, and a
   * ramp at a later index starts after the frame. (Flatness next to the
   * frame alone is not enough: a ramp makes a sloped stretch whose next
   * index is again a transition, so ramps can cascade forward.)
   */
  lemma {:induction false} SmoothFromFlatPrefix(r: seq<real>, i: nat, j: int)
    requires i >= 1 && 0 <= j < |r|
    requires forall k :: 0 <= k < |r| && k <= j + RAMP_BACK ==> r[k] == r[0]
    ensures SmoothFrom(r, i)[j] == r[j]
    decreases |r| - i
  {
    if i < |r| {
      if i <= j + RAMP_BACK {
        assert SmoothStep(r, i) == r;
        SmoothFromFlatPrefix(r, i + 1, j);
      } else {
        SmoothFromSettled(r, i, j);
      }
    }
  }

  /** The transition loop leaves a constant curve alone. */
  lemma {:induction false} SmoothFromConstant(r: seq<real>, i: nat, c: real)
    requires i >= 1
    requires forall j :: 0 <= j < |r| ==> r[j] == c
    ensures SmoothFrom(r, i) == r
    decreases |r| - i
  {
    if i < |r| {
      assert SmoothStep(r, i) == r;
      SmoothFromConstant(r, i + 1, c);
    }
  }

  /**
   * With global offset 0 and every note offset 0 the adjusted curve is the raw
   * F0 exactly: the ratios stay 1, so there are no transitions.
   */
  lemma AdjustedF0Identity(f0: seq<real>, voiced: seq<bool>, notes: seq<Note>)
    requires forall k :: 0 <= k < |notes| ==> notes[k].pitchOffset == 0.0
    ensures AdjustedF0Spec(f0, voiced, notes, 0.0) == f0
  {
    if f0 != [] {
      var smoothed := SmoothFrom(NoteRatios(notes, |f0|), 1);
      RatiosStayOne(notes, |f0|);
      assert GlobalScaled(f0, 0.0) == f0;
      var r := ApplyVoiced(f0, smoothed, voiced);
      assert AdjustedF0Spec(f0, voiced, notes, 0.0) == r;
      assert forall i :: 0 <= i < |f0| ==> r[i] == f0[i];
    }
  }

  /** No note offset: every smoothed frame ratio is 1.0. */
  lemma RatiosStayOne(notes: seq<Note>, size: nat)
    requires forall k :: 0 <= k < |notes| ==> notes[k].pitchOffset == 0.0
    ensures forall i :: 0 <= i < size ==> SmoothFrom(NoteRatios(notes, size), 1)[i] == 1.0
  {
    NoteRatiosAllOne(notes, size);
    SmoothFromConstant(NoteRatios(notes, size), 1, 1.0);
  }

  /** Unvoiced frames (mask false or absent) carry only the global stage. */
  lemma AdjustedF0Unvoiced(f0: seq<real>, voiced: seq<bool>, notes: seq<Note>, g: real, i: nat)
    requires i < |f0|
    requires !(i < |voiced| && voiced[i])
    ensures AdjustedF0Spec(f0, voiced, notes, g)[i] == GlobalScaled(f0, g)[i]
  {
  }

  // ---------------------------------------------------------------------------
  // The project object
  // ---------------------------------------------------------------------------

  // ---------------------------------------------------------------------------
  // Dirty tracking (the bodies of these Project members are not part of the
  // source files modelled here; they follow the documented behaviour and what
  // IncrementalSynthesizer relies on)
  // ---------------------------------------------------------------------------

  /** No dirty region is reported as the pair (-1, -1). */
  const NO_RANGE: (int, int) := (-1, -1)

  /** The smallest range covering two ranges, either of which may be absent. */
  function RangeUnion(a: (int, int), b: (int, int)): (int, int)
  {
    if a.0 < 0 then b
    else if b.0 < 0 then a
    else (Min(a.0, b.0), Max(a.1, b.1))
  }

  /** The union of the spans of the dirty notes, or NO_RANGE when no note is dirty. */
  function DirtyNotesRange(notes: seq<Note>): (r: (int, int))
    requires StartsNonNegative(notes)
    ensures r == NO_RANGE <==> forall k :: 0 <= k < |notes| ==> !notes[k].dirty
    ensures r != NO_RANGE ==> r.0 >= 0
    ensures forall k :: 0 <= k < |notes| && notes[k].dirty ==>
      r.0 <= notes[k].startFrame && notes[k].endFrame <= r.1
    ensures r != NO_RANGE ==> exists k :: 0 <= k < |notes| && notes[k].dirty && notes[k].startFrame == r.0
    ensures r != NO_RANGE ==> exists k :: 0 <= k < |notes| && notes[k].dirty && notes[k].endFrame == r.1
  {
    if notes == [] then NO_RANGE
    else
      var rest := DirtyNotesRange(notes[..|notes| - 1]);
      var last := notes[|notes| - 1];
      assert forall k :: 0 <= k < |notes| - 1 ==> notes[..|notes| - 1][k] == notes[k];
      if last.dirty then RangeUnion(rest, (last.startFrame, last.endFrame)) else rest
  }

  /** Marking a single note dirty in an otherwise clean collection makes the dirty region exactly its span. */
  lemma OneDirtyNoteRange(notes: seq<Note>, k: nat)
    requires StartsNonNegative(notes) && k < |notes| && notes[k].startFrame < notes[k].endFrame
    requires forall m :: 0 <= m < |notes| && m != k ==> !notes[m].dirty
    requires notes[k].dirty
    ensures DirtyNotesRange(notes) == (notes[k].startFrame, notes[k].endFrame)
  {
  }

  class Project {
    /** AudioData::waveform, channels × samples */
    var waveform: array2<real>
    /** AudioData::f0 and voicedMask, one entry per frame */
    var f0: seq<real>
    var voicedMask: seq<bool>
    /** AudioData::melSpectrogram, one mel vector per frame */
    var melSpectrogram: seq<seq<real>>
    var notes: seq<Note>
    var globalPitchOffset: real
    /** the freehand F0-dirty range; start -1 means there is none */
    var f0DirtyStart: int
    var f0DirtyEnd: int
    /**
     * The F0 curves the dense base/delta curves were rebuilt from, one per
     * call of PitchCurveProcessor::rebuildCurvesFromSource, oldest first.
     * What the rebuild computes is not part of this model; only the calls are.
     */
    var curveRebuilds: seq<seq<real>>

    constructor ()
      ensures waveform.Length0 == 0 && waveform.Length1 == 0
      ensures f0 == [] && voicedMask == [] && melSpectrogram == [] && notes == []
      ensures globalPitchOffset == 0.0 && f0DirtyStart == -1 && f0DirtyEnd == -1
      ensures curveRebuilds == []
    {
      waveform := new real[0, 0];
      f0, voicedMask, melSpectrogram, notes := [], [], [], [];
      globalPitchOffset := 0.0;
      f0DirtyStart, f0DirtyEnd := -1, -1;
      curveRebuilds := [];
    }

    /** PitchCurveProcessor::rebuildCurvesFromSource(project, f0): records the call and its F0 curve. */
    method RebuildCurvesFromSource(source: seq<real>)
      modifies this`curveRebuilds
      ensures curveRebuilds == old(curveRebuilds) + [source]
    {
      curveRebuilds := curveRebuilds + [source];
    }

    /** getNoteAtFrame: the first note in collection order that contains the frame, or none. */
    method GetNoteAtFrame(frame: int) returns (r: Option<nat>)
      ensures r.Some? ==> r.value < |notes| && notes[r.value].ContainsFrame(frame)
      ensures r.Some? ==> forall k :: 0 <= k < r.value ==> !notes[k].ContainsFrame(frame)
      ensures r.None? <==> forall k :: 0 <= k < |notes| ==> !notes[k].ContainsFrame(frame)
    {
      var k := 0;
      while k < |notes|
        invariant 0 <= k <= |notes|
        invariant forall m :: 0 <= m < k ==> !notes[m].ContainsFrame(frame)
      {
        if notes[k].ContainsFrame(frame) {
          return Some(k);
        }
        k := k + 1;
      }
      return None;
    }

    /** getNotesInRange: in collection order, exactly the notes overlapping [startFrame, endFrame). */
    method GetNotesInRange(startFrame: int, endFrame: int) returns (r: seq<nat>)
      ensures forall x :: 0 <= x < |r| ==> r[x] < |notes|
      ensures forall x, y :: 0 <= x < y < |r| ==> r[x] < r[y]
      ensures forall k :: 0 <= k < |notes| ==>
        (k in r <==> notes[k].startFrame < endFrame && notes[k].endFrame > startFrame)
    {
      r := [];
      var k := 0;
      while k < |notes|
        invariant 0 <= k <= |notes|
        invariant forall x :: 0 <= x < |r| ==> r[x] < k
        invariant forall x, y :: 0 <= x < y < |r| ==> r[x] < r[y]
        invariant forall m :: 0 <= m < k ==>
          (m in r <==> notes[m].startFrame < endFrame && notes[m].endFrame > startFrame)
      {
        if notes[k].startFrame < endFrame && notes[k].endFrame > startFrame {
          r := r + [k];
        }
        k := k + 1;
      }
    }

    /** getSelectedNotes: in collection order, exactly the selected notes. */
    method GetSelectedNotes() returns (r: seq<nat>)
      ensures forall x :: 0 <= x < |r| ==> r[x] < |notes|
      ensures forall x, y :: 0 <= x < y < |r| ==> r[x] < r[y]
      ensures forall k :: 0 <= k < |notes| ==> (k in r <==> notes[k].selected)
    {
      r := [];
      var k := 0;
      while k < |notes|
        invariant 0 <= k <= |notes|
        invariant forall x :: 0 <= x < |r| ==> r[x] < k
        invariant forall x, y :: 0 <= x < y < |r| ==> r[x] < r[y]
        invariant forall m :: 0 <= m < k ==> (m in r <==> notes[m].selected)
      {
        if notes[k].selected {
          r := r + [k];
        }
        k := k + 1;
      }
    }

    /** hasDirtyNotes: some note carries the dirty flag, exactly when the dirty notes span a range. */
    predicate HasDirtyNotes()
      reads this
      ensures StartsNonNegative(notes) ==> (HasDirtyNotes() <==> DirtyNotesRange(notes) != NO_RANGE)
    {
      exists k :: 0 <= k < |notes| && notes[k].dirty
    }

    /** hasF0DirtyRange: a freehand F0 edit range is recorded. */
    predicate HasF0DirtyRange()
      reads this
    {
      f0DirtyStart >= 0 && f0DirtyEnd >= 0
    }

    /**
     * getDirtyFrameRange: the union of the dirty notes' spans and the F0-dirty
     * range, or (-1, -1) when nothing is dirty.
     */
    function GetDirtyFrameRange(): (r: (int, int))
      reads this
      requires StartsNonNegative(notes)
      ensures r == NO_RANGE <==> !HasDirtyNotes() && !HasF0DirtyRange()
      ensures r != NO_RANGE ==> r.0 >= 0
      ensures forall k :: 0 <= k < |notes| && notes[k].dirty ==>
        r.0 <= notes[k].startFrame && notes[k].endFrame <= r.1
      ensures HasF0DirtyRange() ==> r.0 <= f0DirtyStart && f0DirtyEnd <= r.1
    {
      var fromNotes := DirtyNotesRange(notes);
      if fromNotes != NO_RANGE then
        RangeUnion(fromNotes, if HasF0DirtyRange() then (f0DirtyStart, f0DirtyEnd) else NO_RANGE)
      else if HasF0DirtyRange() then (f0DirtyStart, f0DirtyEnd)
      else NO_RANGE
    }

    /** With no dirty note, the dirty range is exactly the recorded freehand edit range. */
    lemma F0EditRangeAlone()
      requires StartsNonNegative(notes) && HasF0DirtyRange() && !HasDirtyNotes()
      ensures GetDirtyFrameRange() == (f0DirtyStart, f0DirtyEnd)
    {
    }

    /** markDirty on the k-th note. */
    method MarkNoteDirty(k: nat)
      requires k < |notes|
      modifies this
      ensures notes == old(notes)[k := old(notes)[k].(dirty := true)]
      ensures waveform == old(waveform) && f0 == old(f0) && voicedMask == old(voicedMask)
      ensures melSpectrogram == old(melSpectrogram) && globalPitchOffset == old(globalPitchOffset)
      ensures f0DirtyStart == old(f0DirtyStart) && f0DirtyEnd == old(f0DirtyEnd)
      ensures curveRebuilds == old(curveRebuilds)
    {
      notes := notes[k := notes[k].(dirty := true)];
    }

    /** clearAllDirty: every note becomes clean and the F0-dirty range is dropped. */
    method ClearAllDirty()
      modifies this
      ensures |notes| == |old(notes)|
      ensures forall k :: 0 <= k < |notes| ==> notes[k] == old(notes)[k].(dirty := false)
      ensures f0DirtyStart == -1 && f0DirtyEnd == -1
      ensures !HasDirtyNotes() && !HasF0DirtyRange()
      ensures waveform == old(waveform) && f0 == old(f0) && voicedMask == old(voicedMask)
      ensures melSpectrogram == old(melSpectrogram) && globalPitchOffset == old(globalPitchOffset)
      ensures curveRebuilds == old(curveRebuilds)
    {
      var k := 0;
      while k < |notes|
        invariant 0 <= k <= |notes| == |old(notes)|
        invariant forall m :: 0 <= m < k ==> notes[m] == old(notes)[m].(dirty := false)
        invariant forall m :: k <= m < |notes| ==> notes[m] == old(notes)[m]
        invariant waveform == old(waveform) && f0 == old(f0) && voicedMask == old(voicedMask)
        invariant melSpectrogram == old(melSpectrogram) && globalPitchOffset == old(globalPitchOffset)
        invariant curveRebuilds == old(curveRebuilds)
      {
        notes := notes[k := notes[k].(dirty := false)];
        k := k + 1;
      }
      f0DirtyStart, f0DirtyEnd := -1, -1;
    }

    /** deselectAllNotes: clears the selected flag of every note and nothing else. */
    method DeselectAllNotes()
      modifies this
      ensures |notes| == |old(notes)|
      ensures forall k :: 0 <= k < |notes| ==> notes[k] == old(notes)[k].(selected := false)
      ensures waveform == old(waveform) && f0 == old(f0) && voicedMask == old(voicedMask)
      ensures melSpectrogram == old(melSpectrogram) && globalPitchOffset == old(globalPitchOffset)
      ensures f0DirtyStart == old(f0DirtyStart) && f0DirtyEnd == old(f0DirtyEnd)
      ensures curveRebuilds == old(curveRebuilds)
    {
      var k := 0;
      while k < |notes|
        invariant 0 <= k <= |notes| == |old(notes)|
        invariant forall m :: 0 <= m < k ==> notes[m] == old(notes)[m].(selected := false)
        invariant forall m :: k <= m < |notes| ==> notes[m] == old(notes)[m]
        invariant waveform == old(waveform) && f0 == old(f0) && voicedMask == old(voicedMask)
        invariant melSpectrogram == old(melSpectrogram) && globalPitchOffset == old(globalPitchOffset)
        invariant f0DirtyStart == old(f0DirtyStart) && f0DirtyEnd == old(f0DirtyEnd)
        invariant curveRebuilds == old(curveRebuilds)
      {
        notes := notes[k := notes[k].(selected := false)];
        k := k + 1;
      }
    }

    /**
     * getAdjustedF0: copy the F0, apply the global ratio, build the frame
     * ratios from the notes, ramp every transition, and scale voiced frames.
     */
    method GetAdjustedF0() returns (r: seq<real>)
      requires StartsNonNegative(notes)
      ensures r == AdjustedF0Spec(f0, voicedMask, notes, globalPitchOffset)
    {
      var f0, voicedMask, notes, g := this.f0, this.voicedMask, this.notes, this.globalPitchOffset;
      if |f0| == 0 {
        return [];
      }
      var n := |f0|;
      var adjusted := new real[n];
      forall i | 0 <= i < n {
        adjusted[i] := f0[i];
      }
      assert adjusted[..] == f0;
      ApplyGlobalRatio(adjusted, g);
      var frameRatios := FrameRatios(notes, n);
      SmoothTransitions(frameRatios);
      ApplyRatiosToVoiced(adjusted, frameRatios, voicedMask);
      r := adjusted[..];
    }
  }

  /** The global stage of getAdjustedF0, in place on the copy of the F0. */
  method ApplyGlobalRatio(adjusted: array<real>, g: real)
    modifies adjusted
    ensures adjusted[..] == GlobalScaled(old(adjusted[..]), g)
  {
    ghost var scaled := GlobalScaled(adjusted[..], g);
    ghost var f0 := adjusted[..];
    if g != 0.0 {
      assert forall x :: 0 <= x < adjusted.Length ==> f0[x] == adjusted[x];
      ScaleVoiced(adjusted, OffsetRatio(g));
      assert forall x :: 0 <= x < adjusted.Length ==> adjusted[x] == scaled[x];
      assert adjusted[..] == scaled;
    }
  }

  /** The loop of the global stage: every voiced (positive) frame times the ratio. */
  method ScaleVoiced(adjusted: array<real>, ratio: real)
    modifies adjusted
    ensures forall x :: 0 <= x < adjusted.Length ==>
      adjusted[x] == if old(adjusted[x]) > 0.0 then old(adjusted[x]) * ratio else old(adjusted[x])
  {
    for i := 0 to adjusted.Length
      invariant forall x :: 0 <= x < i ==>
        adjusted[x] == if old(adjusted[x]) > 0.0 then old(adjusted[x]) * ratio else old(adjusted[x])
      invariant forall x :: i <= x < adjusted.Length ==> adjusted[x] == old(adjusted[x])
    {
      if adjusted[i] > 0.0 {
        adjusted[i] := adjusted[i] * ratio;
      }
    }
  }

  /** The last loop of getAdjustedF0: scale the frames whose voiced flag exists and is set. */
  method ApplyRatiosToVoiced(adjusted: array<real>, frameRatios: array<real>, voicedMask: seq<bool>)
    requires adjusted != frameRatios && frameRatios.Length == adjusted.Length
    modifies adjusted
    ensures adjusted[..] == ApplyVoiced(old(adjusted[..]), frameRatios[..], voicedMask)
  {
    ghost var f := adjusted[..];
    for i := 0 to adjusted.Length
      invariant forall x :: 0 <= x < i ==>
        adjusted[x] == (if x < |voicedMask| && voicedMask[x] then f[x] * frameRatios[x] else f[x])
      invariant forall x :: i <= x < adjusted.Length ==> adjusted[x] == f[x]
    {
      if i < |voicedMask| && voicedMask[i] {
        adjusted[i] := adjusted[i] * frameRatios[i];
      }
    }
    ghost var expected := ApplyVoiced(f, frameRatios[..], voicedMask);
    forall x | 0 <= x < adjusted.Length
      ensures adjusted[x] == expected[x]
    {
    }
    assert adjusted[..] == expected;
  }

  /** The note loop of getAdjustedF0: a fresh ratio array of 1.0, overwritten note by note. */
  method FrameRatios(notes: seq<Note>, n: nat) returns (frameRatios: array<real>)
    requires StartsNonNegative(notes)
    ensures fresh(frameRatios)
    ensures frameRatios[..] == NoteRatios(notes, n)
  {
    frameRatios := new real[n](_ => 1.0);
    assert frameRatios[..] == NoteRatios(notes[..0], n);
    for k := 0 to |notes|
      invariant frameRatios[..] == NoteRatios(notes[..k], n)
    {
      OverwriteNoteRatio(frameRatios, notes[k]);
      assert notes[..k + 1][..k] == notes[..k];
    }
    assert notes[..|notes|] == notes;
  }

  /** One note of the note loop: its offset ratio over its frames inside the array. */
  method OverwriteNoteRatio(frameRatios: array<real>, note: Note)
    requires note.startFrame >= 0
    modifies frameRatios
    ensures frameRatios[..] == ApplyNoteRatio(old(frameRatios[..]), note)
  {
    ghost var before := frameRatios[..];
    var n := frameRatios.Length;
    if note.pitchOffset != 0.0 {
      var noteRatio := OffsetRatio(note.pitchOffset);
      var start := note.startFrame;
      var end := Min(note.endFrame, n);
      var i := start;
      while i < end
        invariant start <= i
        invariant start <= end ==> i <= end
        invariant start > end ==> i == start
        invariant forall x :: 0 <= x < n ==>
          frameRatios[x] == (if start <= x < i then noteRatio else before[x])
      {
        frameRatios[i] := noteRatio;
        i := i + 1;
      }
      forall x | 0 <= x < n
        ensures frameRatios[x] == ApplyNoteRatio(before, note)[x]
      {
        assert start <= x < i <==> note.startFrame <= x < Min(note.endFrame, |before|);
      }
    }
    assert frameRatios[..] == ApplyNoteRatio(before, note);
  }

  /** The transition loop of getAdjustedF0, in place on the ratio array. */
  method SmoothTransitions(frameRatios: array<real>)
    modifies frameRatios
    ensures frameRatios[..] == SmoothFrom(old(frameRatios[..]), 1)
  {
    var n := frameRatios.Length;
    ghost var target := SmoothFrom(frameRatios[..], 1);
    var i := 1;
    while i < n
      invariant 1 <= i
      invariant SmoothFrom(frameRatios[..], i) == target
    {
      ghost var before := frameRatios[..];
      assert SmoothFrom(before, i) == SmoothFrom(SmoothStep(before, i), i + 1);
      if AbsR(frameRatios[i] - frameRatios[i - 1]) > RATIO_EPSILON {
        RampInPlace(frameRatios, i);
      }
      assert frameRatios[..] == SmoothStep(before, i);
      i := i + 1;
    }
  }

  /** The body of one transition: the linear ramp written over the window. */
  method RampInPlace(frameRatios: array<real>, i: int)
    modifies frameRatios
    ensures frameRatios[..] == Ramp(old(frameRatios[..]), i)
  {
    var n := frameRatios.Length;
    ghost var before := frameRatios[..];
    var startIdx := Max(0, i - RAMP_BACK);
    var endIdx := Min(n, i + RAMP_AHEAD);
    if endIdx - startIdx > 1 {
      var valBefore := frameRatios[startIdx];
      var valAfter := frameRatios[endIdx - 1];
      for j := startIdx to endIdx
        invariant forall x :: 0 <= x < n ==>
          frameRatios[x] == (if startIdx <= x < j then RampValue(before, startIdx, endIdx, x) else before[x])
      {
        var t := (j - startIdx) as real / (endIdx - startIdx - 1) as real;
        frameRatios[j] := valBefore + t * (valAfter - valBefore);
      }
      forall x | 0 <= x < n
        ensures frameRatios[x] == Ramp(before, i)[x]
      {
        RampAt(before, i, x);
      }
    }
  }

  lemma RampAt(r: seq<real>, i: int, j: int)
    requires 0 <= j < |r|
    ensures var s := Max(0, i - RAMP_BACK);
      var e := Min(|r|, i + RAMP_AHEAD);
      Ramp(r, i)[j] == (if e - s > 1 && s <= j < e then RampValue(r, s, e, j) else r[j])
  {
  }
}
