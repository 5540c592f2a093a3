/**
 * The two note segmenters of the analyzer (Source/Audio/Analysis/AudioAnalyzer.cpp):
 * the mapping of the neural detector's note events onto the F0 grid, and the
 * fallback state machine that splits voiced F0 into notes by pitch changes.
 *
 * Both append to the project's note vector; both compute a note's MIDI pitch
 * as the mean freqToMidi of its voiced frames, with the same loop.
 */
module NoteSegmentation {
  import opened Wrappers
  import opened RealMath
  import opened Units
  import opened Notes
  import opened Projects
  import opened SomeDetection

  /** A frame counts towards a note's pitch when the mask has it voiced and its F0 is positive. */
  predicate VoicedAt(f0: seq<real>, voicedMask: seq<bool>, j: int)
    requires 0 <= j < |f0|
  {
    j < |voicedMask| && voicedMask[j] && f0[j] > 0.0
  }

  /** The sum of freqToMidi over the voiced frames of [start, end). */
  function VoicedMidiSum(f0: seq<real>, voicedMask: seq<bool>, start: int, end: int): real
    requires 0 <= start && end <= |f0|
    decreases end - start
  {
    if end <= start then 0.0
    else VoicedMidiSum(f0, voicedMask, start, end - 1) + (if VoicedAt(f0, voicedMask, end - 1) then FreqToMidi(f0[end - 1]) else 0.0)
  }

  /** The number of voiced frames in [start, end). */
  function VoicedCount(f0: seq<real>, voicedMask: seq<bool>, start: int, end: int): (c: int)
    requires 0 <= start && end <= |f0|
    ensures 0 <= c
    ensures start <= end ==> c <= end - start
    decreases end - start
  {
    if end <= start then 0
    else VoicedCount(f0, voicedMask, start, end - 1) + (if VoicedAt(f0, voicedMask, end - 1) then 1 else 0)
  }

  /** The averaging loop shared by segmentWithSOME and finalizeNote. */
  method VoicedMidi(f0: seq<real>, voicedMask: seq<bool>, start: int, end: int) returns (midiSum: real, midiCount: int)
    requires 0 <= start && end <= |f0|
    ensures midiSum == VoicedMidiSum(f0, voicedMask, start, end)
    ensures midiCount == VoicedCount(f0, voicedMask, start, end)
  {
    midiSum, midiCount := 0.0, 0;
    if end <= start {
      return;
    }
    for j := start to end
      invariant midiSum == VoicedMidiSum(f0, voicedMask, start, j)
      invariant midiCount == VoicedCount(f0, voicedMask, start, j)
    {
      if j < |voicedMask| && voicedMask[j] && f0[j] > 0.0 {
        midiSum := midiSum + FreqToMidi(f0[j]);
        midiCount := midiCount + 1;
      }
    }
  }

  /** A span without a voiced frame has count 0, and one with a voiced frame a positive count. */
  lemma {:induction false} VoicedCountPositive(f0: seq<real>, voicedMask: seq<bool>, start: int, end: int)
    requires 0 <= start && end <= |f0|
    ensures VoicedCount(f0, voicedMask, start, end) > 0 <==> exists j :: start <= j < end && VoicedAt(f0, voicedMask, j)
    decreases end - start
  {
    if end > start {
      VoicedCountPositive(f0, voicedMask, start, end - 1);
      if VoicedCount(f0, voicedMask, start, end) > 0 && !VoicedAt(f0, voicedMask, end - 1) {
        var j :| start <= j < end - 1 && VoicedAt(f0, voicedMask, j);
        assert start <= j < end;
      }
    }
  }

  /** The note a span becomes: its start, end and pitch, with the F0 values of the span cached. */
  function SpanNote(f0: seq<real>, start: int, end: int, midi: real): (n: Note)
    requires 0 <= start <= end <= |f0|
    ensures n.startFrame == start && n.endFrame == end && n.midiNote == midi && n.f0Values == f0[start..end]
    ensures n.pitchOffset == 0.0 && !n.selected && !n.dirty
  {
    NewNote(start, end, midi).(f0Values := f0[start..end])
  }

  // ---------------------------------------------------------------------------
  // segmentWithSOME: note events clamped onto the F0 grid
  // ---------------------------------------------------------------------------

  /** The clamped span of a note event on an F0 curve of f0Size frames: never empty, inside a non-empty curve, and the event's own span when that already lies inside. */
  function ClampedSpan(ev: NoteEvent, f0Size: int): (r: (int, int))
    ensures 0 <= r.0 < r.1
    ensures f0Size > 0 ==> r.1 <= f0Size
    ensures 0 <= ev.startFrame < ev.endFrame <= f0Size ==> r == (ev.startFrame, ev.endFrame)
  {
    var f0Start := Max(0, Min(ev.startFrame, f0Size - 1));
    (f0Start, Max(f0Start + 1, Min(ev.endFrame, f0Size)))
  }

  /**
   * The note made from one event: none for a rest or a clamped span under 3
   * frames; otherwise the clamped span, pitched at the mean MIDI of its
   * voiced frames, or at the event's own pitch when it has none.
   */
  function SomeNote(f0: seq<real>, voicedMask: seq<bool>, ev: NoteEvent): (r: Option<Note>)
    ensures r.Some? ==> !ev.isRest
    ensures r.Some? ==> 0 <= r.value.startFrame && r.value.startFrame + 3 <= r.value.endFrame <= |f0|
    ensures r.Some? ==> r.value.f0Values == f0[r.value.startFrame .. r.value.endFrame]
    ensures r.Some? ==> (r.value.startFrame, r.value.endFrame) == ClampedSpan(ev, |f0|)
  {
    if ev.isRest then None
    else
      var (f0Start, f0End) := ClampedSpan(ev, |f0|);
      if f0End - f0Start < 3 then None
      else
        var count := VoicedCount(f0, voicedMask, f0Start, f0End);
        var midi := if count > 0 then VoicedMidiSum(f0, voicedMask, f0Start, f0End) / count as real else ev.midiNote;
        Some(SpanNote(f0, f0Start, f0End, midi))
  }

  /** The notes made from a sequence of events, in event order: at most one per event, each inside the F0 curve. */
  function SomeNotes(f0: seq<real>, voicedMask: seq<bool>, events: seq<NoteEvent>): (r: seq<Note>)
    ensures |r| <= |events|
    ensures forall k :: 0 <= k < |r| ==> 0 <= r[k].startFrame && r[k].startFrame + 3 <= r[k].endFrame <= |f0|
  {
    if events == [] then []
    else
      var last := SomeNote(f0, voicedMask, events[|events| - 1]);
      SomeNotes(f0, voicedMask, events[..|events| - 1]) + (if last.Some? then [last.value] else [])
  }

  /** The body of the note callback of segmentWithSOME: the notes of one batch appended. */
  method AddSomeBatch(project: Project, chunkNotes: seq<NoteEvent>)
    modifies project`notes
    ensures project.notes == old(project.notes) + SomeNotes(project.f0, project.voicedMask, chunkNotes)
  {
    var f0Size := |project.f0|;
    for k := 0 to |chunkNotes|
      invariant project.notes == old(project.notes) + SomeNotes(project.f0, project.voicedMask, chunkNotes[..k])
    {
      assert chunkNotes[..k + 1][..k] == chunkNotes[..k];
      var someNote := chunkNotes[k];
      if someNote.isRest {
        continue;
      }
      var f0Start := Max(0, Min(someNote.startFrame, f0Size - 1));
      var f0End := Max(f0Start + 1, Min(someNote.endFrame, f0Size));
      if f0End - f0Start < 3 {
        continue;
      }
      var midiSum, midiCount := VoicedMidi(project.f0, project.voicedMask, f0Start, f0End);
      var midi := someNote.midiNote;
      if midiCount > 0 {
        midi := midiSum / midiCount as real;
      }
      var note := NewNote(f0Start, f0End, midi);
      note := note.(f0Values := project.f0[f0Start .. f0End]);
      project.notes := project.notes + [note];
    }
    assert chunkNotes[..|chunkNotes|] == chunkNotes;
  }

  lemma SomeNotesConcat(f0: seq<real>, voicedMask: seq<bool>, a: seq<NoteEvent>, b: seq<NoteEvent>)
    ensures SomeNotes(f0, voicedMask, a + b) == SomeNotes(f0, voicedMask, a) + SomeNotes(f0, voicedMask, b)
    decreases |b|
  {
    if b == [] {
      assert a + b == a;
    } else {
      assert (a + b)[..|a + b| - 1] == a + b[..|b| - 1];
      assert (a + b)[|a + b| - 1] == b[|b| - 1];
      SomeNotesConcat(f0, voicedMask, a, b[..|b| - 1]);
    }
  }

  /** The rebuilds a segmenter ends with: one from the F0 curve, unless it is empty. */
  function FinalRebuild(f0: seq<real>): (r: seq<seq<real>>)
    ensures r == [] <==> f0 == []
    ensures r != [] ==> r == [f0]
  {
    if f0 == [] then [] else [f0]
  }

  /**
   * segmentWithSOME: the notes of every batch the streaming detector calls
   * back with, in callback order, appended to the project's notes; then the
   * curves are rebuilt from a non-empty F0 curve.
   */
  method SegmentWithSome(project: Project, batches: seq<seq<NoteEvent>>)
    modifies project`notes, project`curveRebuilds
    ensures project.notes == old(project.notes) + SomeNotes(project.f0, project.voicedMask, Concat(batches))
    ensures project.curveRebuilds == old(project.curveRebuilds) + FinalRebuild(project.f0)
  {
    AddSomeBatches(project, batches);
    if project.f0 != [] {
      project.RebuildCurvesFromSource(project.f0);
    }
  }

  /** The note callback over all batches, in callback order. */
  method AddSomeBatches(project: Project, batches: seq<seq<NoteEvent>>)
    modifies project`notes
    ensures project.notes == old(project.notes) + SomeNotes(project.f0, project.voicedMask, Concat(batches))
  {
    ghost var f0, voicedMask := project.f0, project.voicedMask;
    ghost var initial := project.notes;
    for b := 0 to |batches|
      invariant project.notes == initial + SomeNotes(f0, voicedMask, Concat(batches[..b]))
    {
      ghost var done := Concat(batches[..b]);
      assert batches[..b + 1][..b] == batches[..b];
      assert Concat(batches[..b + 1]) == done + batches[b];
      SomeNotesConcat(f0, voicedMask, done, batches[b]);
      AddSomeBatch(project, batches[b]);
    }
    assert batches[..|batches|] == batches;
  }

  /**
   * Every note made from the detector's events lies inside the F0 curve,
   * spans at least 3 frames and caches exactly its F0 slice; its pitch is
   * the mean MIDI of its voiced frames when it has any.
   */
  lemma {:induction false} SomeNotesWithinF0(f0: seq<real>, voicedMask: seq<bool>, events: seq<NoteEvent>)
    ensures forall n :: n in SomeNotes(f0, voicedMask, events) ==>
      && 0 <= n.startFrame && n.startFrame + 3 <= n.endFrame <= |f0|
      && n.f0Values == f0[n.startFrame .. n.endFrame]
      && (VoicedCount(f0, voicedMask, n.startFrame, n.endFrame) > 0 ==>
            n.midiNote == VoicedMidiSum(f0, voicedMask, n.startFrame, n.endFrame) / VoicedCount(f0, voicedMask, n.startFrame, n.endFrame) as real)
    ensures |SomeNotes(f0, voicedMask, events)| <= |events|
  {
    if events != [] {
      SomeNotesWithinF0(f0, voicedMask, events[..|events| - 1]);
    }
  }

  /** An event already inside the F0 curve and at least 3 frames long keeps its span exactly. */
  lemma SomeNoteKeepsSpanInside(f0: seq<real>, voicedMask: seq<bool>, ev: NoteEvent)
    requires !ev.isRest && 0 <= ev.startFrame && ev.startFrame + 3 <= ev.endFrame <= |f0|
    ensures SomeNote(f0, voicedMask, ev).Some?
    ensures SomeNote(f0, voicedMask, ev).value.startFrame == ev.startFrame
    ensures SomeNote(f0, voicedMask, ev).value.endFrame == ev.endFrame
  {
  }

  /** Ordered events inside the curve give ordered notes that do not overlap. */
  lemma {:induction false} SomeNotesOrdered(f0: seq<real>, voicedMask: seq<bool>, events: seq<NoteEvent>)
    requires EventsOrdered(events)
    requires forall k :: 0 <= k < |events| ==> 0 <= events[k].startFrame && events[k].endFrame <= |f0|
    ensures forall k :: 0 <= k < |SomeNotes(f0, voicedMask, events)| - 1 ==>
      SomeNotes(f0, voicedMask, events)[k].endFrame <= SomeNotes(f0, voicedMask, events)[k + 1].startFrame
    ensures forall n :: n in SomeNotes(f0, voicedMask, events) ==> events != [] && n.endFrame <= events[|events| - 1].endFrame
  {
    if events != [] {
      var prefix := events[..|events| - 1];
      SomeNotesOrdered(f0, voicedMask, prefix);
      var notes := SomeNotes(f0, voicedMask, prefix);
      var ev := events[|events| - 1];
      if prefix != [] {
        assert prefix[|prefix| - 1].endFrame <= ev.startFrame;
      }
      var last := SomeNote(f0, voicedMask, ev);
      if last.Some? {
        assert last.value.startFrame == ev.startFrame;
        assert forall n :: n in notes ==> n.endFrame <= ev.startFrame;
        assert notes != [] ==> notes[|notes| - 1] in notes;
      }
    }
  }

  // ---------------------------------------------------------------------------
  // segmentFallback: the pitch-change state machine
  // ---------------------------------------------------------------------------

  const PITCH_SPLIT_THRESHOLD: real := 0.5
  const MIN_FRAMES_FOR_SPLIT: int := 3
  /** INT_MAX: the unvoiced gap that would close a note. */
  const MAX_UNVOICED_GAP: int := 0x7fff_ffff
  const MIN_NOTE_FRAMES: int := 5

  /**
   * finalizeNote(start, end): a note for the span if it is at least 5 frames
   * long and has a voiced frame, pitched at the mean MIDI of those frames.
   */
  function Finalize(f0: seq<real>, voicedMask: seq<bool>, start: int, end: int): (r: seq<Note>)
    requires 0 <= start && end <= |f0|
    ensures |r| <= 1
    ensures r != [] ==> r[0].startFrame == start && r[0].endFrame == end && start + MIN_NOTE_FRAMES <= end
    ensures r != [] ==> r[0].f0Values == f0[start..end]
    ensures r != [] <==> end - start >= MIN_NOTE_FRAMES && VoicedCount(f0, voicedMask, start, end) > 0
  {
    if end - start < MIN_NOTE_FRAMES then []
    else
      var count := VoicedCount(f0, voicedMask, start, end);
      if count == 0 then []
      else [SpanNote(f0, start, end, VoicedMidiSum(f0, voicedMask, start, end) / count as real)]
  }

  /** finalizeNote, appending to the project's notes. */
  method FinalizeNote(project: Project, start: int, end: int)
    requires 0 <= start && end <= |project.f0|
    modifies project`notes
    ensures project.notes == old(project.notes) + Finalize(project.f0, project.voicedMask, start, end)
  {
    if end - start < MIN_NOTE_FRAMES {
      return;
    }
    var midiSum, midiCount := VoicedMidi(project.f0, project.voicedMask, start, end);
    if midiCount == 0 {
      return;
    }
    var midi := midiSum / midiCount as real;
    var note := NewNote(start, end, midi);
    note := note.(f0Values := project.f0[start..end]);
    project.notes := project.notes + [note];
  }

  /** The fallback's loop state and the notes emitted so far. */
  datatype Fallback = Fallback(
    inNote: bool,
    noteStart: int,
    currentMidiNote: int,
    pitchChangeCount: int,
    pitchChangeStart: int,
    unvoicedCount: int,
    notes: seq<Note>)

  /**
   * A voiced frame counts toward a pitch change when its MIDI value rounds to
   * another note than the current one and lies more than half a semitone
   * from it.
   */
  predicate Deviates(midi: real, current: int)
  {
    Round(midi) != current && AbsR(midi - current as real) > PITCH_SPLIT_THRESHOLD
  }

  /** The fallback's loop body for frame i. */
  function FallbackStep(f0: seq<real>, voicedMask: seq<bool>, i: nat, s: Fallback): (r: Fallback)
    requires i < |f0| && 0 <= s.noteStart && 0 <= s.pitchChangeStart <= i
    ensures 0 <= r.noteStart && 0 <= r.pitchChangeStart <= i
  {
    var voiced := i < |voicedMask| && voicedMask[i];
    if voiced && !s.inNote then
      s.(inNote := true, noteStart := i, currentMidiNote := Round(FreqToMidi(f0[i])), pitchChangeCount := 0, unvoicedCount := 0)
    else if voiced && s.inNote then
      var currentMidi := FreqToMidi(f0[i]);
      var quantizedMidi := Round(currentMidi);
      if Deviates(currentMidi, s.currentMidiNote) then
        var changeStart := if s.pitchChangeCount == 0 then i else s.pitchChangeStart;
        var changeCount := s.pitchChangeCount + 1;
        if changeCount >= MIN_FRAMES_FOR_SPLIT then
          s.(unvoicedCount := 0, pitchChangeStart := changeStart,
             notes := s.notes + Finalize(f0, voicedMask, s.noteStart, changeStart),
             noteStart := changeStart, currentMidiNote := quantizedMidi, pitchChangeCount := 0)
        else s.(unvoicedCount := 0, pitchChangeStart := changeStart, pitchChangeCount := changeCount)
      else s.(unvoicedCount := 0, pitchChangeCount := 0)
    else if !voiced && s.inNote then
      var unvoiced := s.unvoicedCount + 1;
      if unvoiced > MAX_UNVOICED_GAP then
        s.(notes := s.notes + Finalize(f0, voicedMask, s.noteStart, i - unvoiced), inNote := false, pitchChangeCount := 0, unvoicedCount := 0)
      else s.(unvoicedCount := unvoiced)
    else s
  }

  /** The fallback's state after the first n frames. */
  function FallbackScan(f0: seq<real>, voicedMask: seq<bool>, n: nat): (r: Fallback)
    requires n <= |f0|
    ensures 0 <= r.noteStart && 0 <= r.pitchChangeStart && (n > 0 ==> r.pitchChangeStart < n)
  {
    if n == 0 then Fallback(false, 0, 0, 0, 0, 0, [])
    else FallbackStep(f0, voicedMask, n - 1, FallbackScan(f0, voicedMask, n - 1))
  }

  /**
   * segmentFallback: the notes of the whole curve, an open note closed at
   * its end. Each note is at least 5 frames inside the F0 curve, carries
   * its slice of it and has a voiced frame; the notes do not overlap.
   */
  function FallbackNotes(f0: seq<real>, voicedMask: seq<bool>): (r: seq<Note>)
    ensures forall k :: 0 <= k < |r| ==>
      && 0 <= r[k].startFrame && r[k].startFrame + MIN_NOTE_FRAMES <= r[k].endFrame <= |f0|
      && r[k].f0Values == f0[r[k].startFrame .. r[k].endFrame]
      && VoicedCount(f0, voicedMask, r[k].startFrame, r[k].endFrame) > 0
    ensures forall k :: 0 <= k < |r| - 1 ==> r[k].endFrame <= r[k + 1].startFrame
  {
    var s := FallbackScan(f0, voicedMask, |f0|);
    FallbackKeepsInvariant(f0, voicedMask, |f0|);
    if s.inNote then
      FinalizeAppends(f0, voicedMask, s.notes, s.noteStart, |f0|, |f0|);
      s.notes + Finalize(f0, voicedMask, s.noteStart, |f0|)
    else s.notes
  }

  /** The notes one step appends do not depend on the notes emitted before it. */
  lemma StepAppends(f0: seq<real>, voicedMask: seq<bool>, i: nat, s: Fallback)
    requires i < |f0| && 0 <= s.noteStart && 0 <= s.pitchChangeStart <= i
    ensures FallbackStep(f0, voicedMask, i, s) == FallbackStep(f0, voicedMask, i, s.(notes := [])).(notes := s.notes + FallbackStep(f0, voicedMask, i, s.(notes := [])).notes)
  {
  }

  /** The fallback's loop body for frame i, on the loop's own variables. */
  method FallbackFrame(project: Project, i: nat,
                       inNote: bool, noteStart: int, currentMidiNote: int,
                       pitchChangeCount: int, pitchChangeStart: int, unvoicedCount: int)
      returns (inNote': bool, noteStart': int, currentMidiNote': int,
               pitchChangeCount': int, pitchChangeStart': int, unvoicedCount': int)
    requires i < |project.f0| && 0 <= noteStart && 0 <= pitchChangeStart <= i
    modifies project`notes
    ensures var r := FallbackStep(project.f0, project.voicedMask, i,
                                  Fallback(inNote, noteStart, currentMidiNote, pitchChangeCount, pitchChangeStart, unvoicedCount, []));
      && project.notes == old(project.notes) + r.notes
      && Fallback(inNote', noteStart', currentMidiNote', pitchChangeCount', pitchChangeStart', unvoicedCount', r.notes) == r
  {
    inNote', noteStart', currentMidiNote' := inNote, noteStart, currentMidiNote;
    pitchChangeCount', pitchChangeStart', unvoicedCount' := pitchChangeCount, pitchChangeStart, unvoicedCount;
    var voiced := i < |project.voicedMask| && project.voicedMask[i];
    if voiced && !inNote {
      inNote' := true;
      noteStart' := i;
      currentMidiNote' := Round(FreqToMidi(project.f0[i]));
      pitchChangeCount' := 0;
      unvoicedCount' := 0;
    } else if voiced && inNote {
      unvoicedCount' := 0;
      var currentMidi := FreqToMidi(project.f0[i]);
      var quantizedMidi := Round(currentMidi);
      if quantizedMidi != currentMidiNote && AbsR(currentMidi - currentMidiNote as real) > PITCH_SPLIT_THRESHOLD {
        if pitchChangeCount == 0 {
          pitchChangeStart' := i;
        }
        pitchChangeCount' := pitchChangeCount + 1;
        if pitchChangeCount' >= MIN_FRAMES_FOR_SPLIT {
          FinalizeNote(project, noteStart, pitchChangeStart');
          noteStart' := pitchChangeStart';
          currentMidiNote' := quantizedMidi;
          pitchChangeCount' := 0;
        }
      } else {
        pitchChangeCount' := 0;
      }
    } else if !voiced && inNote {
      unvoicedCount' := unvoicedCount + 1;
      if unvoicedCount' > MAX_UNVOICED_GAP {
        FinalizeNote(project, noteStart, i - unvoicedCount');
        inNote' := false;
        pitchChangeCount' := 0;
        unvoicedCount' := 0;
      }
    }
  }

  /** segmentFallback: the fallback notes are appended, then the curves are rebuilt from a non-empty F0 curve. */
  method SegmentFallback(project: Project)
    modifies project`notes, project`curveRebuilds
    ensures project.notes == old(project.notes) + FallbackNotes(project.f0, project.voicedMask)
    ensures project.curveRebuilds == old(project.curveRebuilds) + FinalRebuild(project.f0)
  {
    ghost var initial := project.notes;
    ghost var s := FallbackScan(project.f0, project.voicedMask, |project.f0|);
    var inNote, noteStart := ScanFallback(project);
    if inNote {
      FinalizeNote(project, noteStart, |project.f0|);
    }
    assert FallbackNotes(project.f0, project.voicedMask) ==
      if s.inNote then s.notes + Finalize(project.f0, project.voicedMask, s.noteStart, |project.f0|) else s.notes;
    if project.f0 != [] {
      project.RebuildCurvesFromSource(project.f0);
    }
  }

  /** The frame loop of segmentFallback: the notes it closes are appended, and the note still open at the end is returned. */
  method ScanFallback(project: Project) returns (inNote: bool, noteStart: int)
    modifies project`notes
    ensures var s := FallbackScan(project.f0, project.voicedMask, |project.f0|);
      && project.notes == old(project.notes) + s.notes
      && inNote == s.inNote && noteStart == s.noteStart
    ensures 0 <= noteStart
  {
    inNote := false;
    noteStart := 0;
    var currentMidiNote := 0;
    var pitchChangeCount := 0;
    var pitchChangeStart := 0;
    var unvoicedCount := 0;
    ghost var f0, voicedMask := project.f0, project.voicedMask;
    ghost var initial := project.notes;
    for i := 0 to |project.f0|
      invariant project.notes == initial + FallbackScan(f0, voicedMask, i).notes
      invariant Fallback(inNote, noteStart, currentMidiNote, pitchChangeCount, pitchChangeStart, unvoicedCount,
                         FallbackScan(f0, voicedMask, i).notes) == FallbackScan(f0, voicedMask, i)
    {
      ghost var s := FallbackScan(f0, voicedMask, i);
      assert FallbackScan(f0, voicedMask, i + 1) == FallbackStep(f0, voicedMask, i, s);
      StepAppends(f0, voicedMask, i, s);
      inNote, noteStart, currentMidiNote, pitchChangeCount, pitchChangeStart, unvoicedCount :=
        FallbackFrame(project, i, inNote, noteStart, currentMidiNote, pitchChangeCount, pitchChangeStart, unvoicedCount);
    }
  }

  /** Notes inside [0, bound), each at least 5 frames with a voiced frame and its F0 slice, in order. */
  ghost predicate NotesWellFormed(f0: seq<real>, voicedMask: seq<bool>, notes: seq<Note>, bound: int)
  {
    && (forall k :: 0 <= k < |notes| ==>
          && 0 <= notes[k].startFrame && notes[k].startFrame + MIN_NOTE_FRAMES <= notes[k].endFrame <= bound <= |f0|
          && notes[k].f0Values == f0[notes[k].startFrame .. notes[k].endFrame]
          && VoicedCount(f0, voicedMask, notes[k].startFrame, notes[k].endFrame) > 0)
    && (forall k :: 0 <= k < |notes| - 1 ==> notes[k].endFrame <= notes[k + 1].startFrame)
  }

  /** The end of the last note, or 0 when there is none. */
  function LastEnd(notes: seq<Note>): int
  {
    if notes == [] then 0 else notes[|notes| - 1].endFrame
  }

  /** Appending the note of a span that starts after the last note keeps the notes well formed. */
  lemma FinalizeAppends(f0: seq<real>, voicedMask: seq<bool>, notes: seq<Note>, start: int, end: int, bound: int)
    requires 0 <= start && end <= bound <= |f0|
    requires NotesWellFormed(f0, voicedMask, notes, bound)
    requires LastEnd(notes) <= start
    ensures NotesWellFormed(f0, voicedMask, notes + Finalize(f0, voicedMask, start, end), bound)
    ensures LastEnd(notes + Finalize(f0, voicedMask, start, end)) <= Max(LastEnd(notes), end)
  {
    var added := Finalize(f0, voicedMask, start, end);
    if added != [] {
      var all := notes + added;
      assert all[|notes|] == added[0];
      if notes != [] {
        assert all[|notes| - 1] == notes[|notes| - 1];
      }
    } else {
      assert notes + added == notes;
    }
  }

  /** What the fallback keeps true after its first n frames. */
  ghost predicate FallbackInvariant(f0: seq<real>, voicedMask: seq<bool>, n: nat, s: Fallback)
    requires n <= |f0|
  {
    && 0 <= s.unvoicedCount <= n
    && (s.inNote ==> s.noteStart < n)
    && (s.pitchChangeCount > 0 ==> s.inNote && s.noteStart < s.pitchChangeStart)
    && NotesWellFormed(f0, voicedMask, s.notes, n)
    && LastEnd(s.notes) <= (if s.inNote then s.noteStart else n)
  }

  lemma {:induction false} FallbackKeepsInvariant(f0: seq<real>, voicedMask: seq<bool>, n: nat)
    requires n <= |f0|
    ensures FallbackInvariant(f0, voicedMask, n, FallbackScan(f0, voicedMask, n))
  {
    if n > 0 {
      FallbackKeepsInvariant(f0, voicedMask, n - 1);
      FallbackScanStep(f0, voicedMask, n);
    }
  }

  lemma FallbackScanStep(f0: seq<real>, voicedMask: seq<bool>, n: nat)
    requires 0 < n <= |f0| && FallbackInvariant(f0, voicedMask, n - 1, FallbackScan(f0, voicedMask, n - 1))
    ensures FallbackInvariant(f0, voicedMask, n, FallbackScan(f0, voicedMask, n))
  {
    var s := FallbackScan(f0, voicedMask, n - 1);
    var r := FallbackScan(f0, voicedMask, n);
    assert r == FallbackStep(f0, voicedMask, n - 1, s);
    FallbackStepKeepsInvariant(f0, voicedMask, n - 1, s, r);
  }

  /** Notes well formed up to one bound are well formed up to any larger bound inside the curve. */
  lemma NotesWiden(f0: seq<real>, voicedMask: seq<bool>, notes: seq<Note>, bound: int, wider: int)
    requires NotesWellFormed(f0, voicedMask, notes, bound) && bound <= wider <= |f0|
    ensures NotesWellFormed(f0, voicedMask, notes, wider)
  {
  }

  lemma FallbackStepKeepsInvariant(f0: seq<real>, voicedMask: seq<bool>, i: nat, s: Fallback, r: Fallback)
    requires i < |f0| && 0 <= s.noteStart && 0 <= s.pitchChangeStart <= i
    requires FallbackInvariant(f0, voicedMask, i, s)
    requires r == FallbackStep(f0, voicedMask, i, s)
    ensures FallbackInvariant(f0, voicedMask, i + 1, r)
  {
    NotesWiden(f0, voicedMask, s.notes, i, i + 1);
    var voiced := i < |voicedMask| && voicedMask[i];
    if voiced && s.inNote {
      PitchStepKeepsInvariant(f0, voicedMask, i, s, r);
    } else if !voiced && s.inNote {
      GapStepKeepsInvariant(f0, voicedMask, i, s, r);
    }
  }

  /** A voiced frame inside a note keeps the invariant, also when it completes a split. */
  lemma PitchStepKeepsInvariant(f0: seq<real>, voicedMask: seq<bool>, i: nat, s: Fallback, r: Fallback)
    requires i < |f0| && 0 <= s.noteStart && 0 <= s.pitchChangeStart <= i
    requires FallbackInvariant(f0, voicedMask, i, s) && NotesWellFormed(f0, voicedMask, s.notes, i + 1)
    requires i < |voicedMask| && voicedMask[i] && s.inNote
    requires r == FallbackStep(f0, voicedMask, i, s)
    ensures FallbackInvariant(f0, voicedMask, i + 1, r)
  {
    var currentMidi := FreqToMidi(f0[i]);
    if Deviates(currentMidi, s.currentMidiNote) {
      var changeStart := if s.pitchChangeCount == 0 then i else s.pitchChangeStart;
      if s.pitchChangeCount + 1 >= MIN_FRAMES_FOR_SPLIT {
        assert r.notes == s.notes + Finalize(f0, voicedMask, s.noteStart, changeStart);
        assert r.inNote && r.noteStart == changeStart && r.pitchChangeCount == 0 && r.unvoicedCount == 0;
        FinalizeAppends(f0, voicedMask, s.notes, s.noteStart, changeStart, i + 1);
      } else {
        assert r == s.(unvoicedCount := 0, pitchChangeStart := changeStart, pitchChangeCount := s.pitchChangeCount + 1);
      }
    } else {
      assert r == s.(unvoicedCount := 0, pitchChangeCount := 0);
    }
  }

  /** An unvoiced frame inside a note keeps the invariant, also when the gap closes the note. */
  lemma GapStepKeepsInvariant(f0: seq<real>, voicedMask: seq<bool>, i: nat, s: Fallback, r: Fallback)
    requires i < |f0| && 0 <= s.noteStart && 0 <= s.pitchChangeStart <= i
    requires FallbackInvariant(f0, voicedMask, i, s) && NotesWellFormed(f0, voicedMask, s.notes, i + 1)
    requires !(i < |voicedMask| && voicedMask[i]) && s.inNote
    requires r == FallbackStep(f0, voicedMask, i, s)
    ensures FallbackInvariant(f0, voicedMask, i + 1, r)
  {
    var unvoiced := s.unvoicedCount + 1;
    if unvoiced > MAX_UNVOICED_GAP {
      FinalizeAppends(f0, voicedMask, s.notes, s.noteStart, i - unvoiced, i + 1);
    }
  }

  /**
   * With fewer than INT_MAX frames an unvoiced gap never closes a note: once
   * a note is open it stays open until a split or the end of the curve.
   */
  lemma FallbackGapNeverCloses(f0: seq<real>, voicedMask: seq<bool>, n: nat)
    requires n < |f0| <= MAX_UNVOICED_GAP
    requires FallbackScan(f0, voicedMask, n).inNote
    ensures FallbackScan(f0, voicedMask, n + 1).inNote
  {
    FallbackKeepsInvariant(f0, voicedMask, n);
  }

  /** Where no frame is voiced the fallback emits no note. */
  lemma {:induction false} FallbackSilence(f0: seq<real>, voicedMask: seq<bool>, n: nat)
    requires n <= |f0|
    requires forall j :: 0 <= j < |voicedMask| ==> !voicedMask[j]
    ensures !FallbackScan(f0, voicedMask, n).inNote && FallbackScan(f0, voicedMask, n).notes == []
  {
    if n > 0 {
      FallbackSilence(f0, voicedMask, n - 1);
    }
  }

  /** A curve held at one voiced frequency for at least 5 frames becomes exactly one note over all of it. */
  lemma FallbackSteadyTone(f0: seq<real>, voicedMask: seq<bool>)
    requires |f0| >= MIN_NOTE_FRAMES && |voicedMask| >= |f0|
    requires forall j :: 0 <= j < |f0| ==> voicedMask[j] && f0[j] == f0[0] && f0[0] > 0.0
    ensures |FallbackNotes(f0, voicedMask)| == 1
    ensures FallbackNotes(f0, voicedMask)[0].startFrame == 0 && FallbackNotes(f0, voicedMask)[0].endFrame == |f0|
  {
    SteadyScan(f0, voicedMask, |f0|);
    assert VoicedAt(f0, voicedMask, 0);
    VoicedCountPositive(f0, voicedMask, 0, |f0|);
  }

  lemma {:induction false} SteadyScan(f0: seq<real>, voicedMask: seq<bool>, n: nat)
    requires 0 < n <= |f0| && |voicedMask| >= |f0|
    requires forall j :: 0 <= j < |f0| ==> voicedMask[j] && f0[j] == f0[0] && f0[0] > 0.0
    ensures var s := FallbackScan(f0, voicedMask, n);
      s.inNote && s.noteStart == 0 && s.notes == [] && s.currentMidiNote == Round(FreqToMidi(f0[0]))
  {
    if n > 1 {
      SteadyScan(f0, voicedMask, n - 1);
    }
  }

  /** The number of consecutive frames ending at frame n - 1 whose pitch deviates from the given note. */
  ghost function DeviationRun(f0: seq<real>, current: int, n: nat): (c: nat)
    requires n <= |f0|
    ensures c <= n
  {
    if n == 0 || !Deviates(FreqToMidi(f0[n - 1]), current) then 0
    else DeviationRun(f0, current, n - 1) + 1
  }

  /**
   * On a voiced curve with no three consecutive frames deviating from the
   * first frame's note, the note opened at frame 0 stays open with its pitch,
   * no note is emitted, and the pitch-change counter is the length of the
   * current deviating run.
   */
  lemma {:induction false} NoRunScan(f0: seq<real>, voicedMask: seq<bool>, n: nat)
    requires 0 < n <= |f0| <= |voicedMask|
    requires forall j :: 0 <= j < |f0| ==> voicedMask[j]
    requires forall j :: 0 <= j && j + 2 < n ==>
      var a := Round(FreqToMidi(f0[0]));
      !(Deviates(FreqToMidi(f0[j]), a) && Deviates(FreqToMidi(f0[j + 1]), a) && Deviates(FreqToMidi(f0[j + 2]), a))
    ensures var s := FallbackScan(f0, voicedMask, n);
      && s.inNote && s.noteStart == 0 && s.notes == []
      && s.currentMidiNote == Round(FreqToMidi(f0[0]))
      && s.pitchChangeCount == DeviationRun(f0, Round(FreqToMidi(f0[0])), n) < MIN_FRAMES_FOR_SPLIT
  {
    if n > 1 {
      NoRunScan(f0, voicedMask, n - 1);
    }
  }

  /**
   * A split needs three consecutive deviating frames: a voiced curve without
   * such a run is segmented as a single span from frame 0 to its end, and it
   * becomes exactly one note when it is at least 5 frames long and starts
   * at a positive frequency.
   */
  lemma FallbackNoSplit(f0: seq<real>, voicedMask: seq<bool>)
    requires 0 < |f0| <= |voicedMask|
    requires forall j :: 0 <= j < |f0| ==> voicedMask[j]
    requires forall j :: 0 <= j && j + 2 < |f0| ==>
      var a := Round(FreqToMidi(f0[0]));
      !(Deviates(FreqToMidi(f0[j]), a) && Deviates(FreqToMidi(f0[j + 1]), a) && Deviates(FreqToMidi(f0[j + 2]), a))
    ensures FallbackNotes(f0, voicedMask) == Finalize(f0, voicedMask, 0, |f0|)
    ensures |f0| >= MIN_NOTE_FRAMES && f0[0] > 0.0 ==>
      |FallbackNotes(f0, voicedMask)| == 1
      && FallbackNotes(f0, voicedMask)[0].startFrame == 0 && FallbackNotes(f0, voicedMask)[0].endFrame == |f0|
  {
    NoRunScan(f0, voicedMask, |f0|);
    if |f0| >= MIN_NOTE_FRAMES && f0[0] > 0.0 {
      assert VoicedAt(f0, voicedMask, 0);
      VoicedCountPositive(f0, voicedMask, 0, |f0|);
    }
  }

  /**
   * A blip of one or two frames inside a held note, after which the curve
   * returns to the note's frequency, does not split it.
   */
  lemma FallbackBlipIgnored(f0: seq<real>, voicedMask: seq<bool>, q: nat, k: nat)
    requires 0 < |f0| <= |voicedMask|
    requires forall j :: 0 <= j < |f0| ==> voicedMask[j]
    requires 1 <= q && k < MIN_FRAMES_FOR_SPLIT
    requires forall j :: 0 <= j < |f0| && !(q <= j < q + k) ==> f0[j] == f0[0]
    ensures FallbackNotes(f0, voicedMask) == Finalize(f0, voicedMask, 0, |f0|)
    ensures |f0| >= MIN_NOTE_FRAMES && f0[0] > 0.0 ==>
      |FallbackNotes(f0, voicedMask)| == 1
      && FallbackNotes(f0, voicedMask)[0].startFrame == 0 && FallbackNotes(f0, voicedMask)[0].endFrame == |f0|
  {
    var a := Round(FreqToMidi(f0[0]));
    forall j | 0 <= j && j + 2 < |f0|
      ensures !(Deviates(FreqToMidi(f0[j]), a) && Deviates(FreqToMidi(f0[j + 1]), a) && Deviates(FreqToMidi(f0[j + 2]), a))
    {
      var held := if j < q then j else if j + 1 < q || q + k <= j + 1 then j + 1 else j + 2;
      assert f0[held] == f0[0];
    }
    FallbackNoSplit(f0, voicedMask);
  }

  /**
   * While an open note with no pending pitch change sees voiced frames that
   * do not deviate from its pitch, it stays open with the same start, pitch
   * and emitted notes.
   */
  lemma {:induction false} HoldScan(f0: seq<real>, voicedMask: seq<bool>, m: nat, n: nat)
    requires m <= n <= |f0| <= |voicedMask|
    requires forall j :: m <= j < n ==> voicedMask[j]
    requires FallbackScan(f0, voicedMask, m).inNote && FallbackScan(f0, voicedMask, m).pitchChangeCount == 0
    requires forall j :: m <= j < n ==> !Deviates(FreqToMidi(f0[j]), FallbackScan(f0, voicedMask, m).currentMidiNote)
    ensures var s, r := FallbackScan(f0, voicedMask, m), FallbackScan(f0, voicedMask, n);
      && r.inNote && r.pitchChangeCount == 0
      && r.noteStart == s.noteStart && r.currentMidiNote == s.currentMidiNote && r.notes == s.notes
  {
    if n > m {
      HoldScan(f0, voicedMask, m, n - 1);
    }
  }

  /**
   * Three consecutive frames deviating from the held note split it: the
   * first note ends at the run's first frame p and the second note starts
   * there. With both spans at least 5 frames long the curve becomes exactly
   * the two notes [0, p) and [p, n).
   */
  lemma FallbackSplit(f0: seq<real>, voicedMask: seq<bool>, p: nat)
    requires |f0| <= |voicedMask|
    requires forall j :: 0 <= j < |f0| ==> voicedMask[j]
    requires 1 <= p && p + MIN_FRAMES_FOR_SPLIT <= |f0|
    requires forall j :: 0 <= j < p ==> !Deviates(FreqToMidi(f0[j]), Round(FreqToMidi(f0[0])))
    requires forall j :: p <= j < p + MIN_FRAMES_FOR_SPLIT ==> Deviates(FreqToMidi(f0[j]), Round(FreqToMidi(f0[0])))
    requires forall j :: p + MIN_FRAMES_FOR_SPLIT <= j < |f0| ==>
      !Deviates(FreqToMidi(f0[j]), Round(FreqToMidi(f0[p + 2])))
    ensures FallbackNotes(f0, voicedMask) == Finalize(f0, voicedMask, 0, p) + Finalize(f0, voicedMask, p, |f0|)
    ensures p >= MIN_NOTE_FRAMES && f0[0] > 0.0 ==>
      |FallbackNotes(f0, voicedMask)| >= 1
      && FallbackNotes(f0, voicedMask)[0].startFrame == 0 && FallbackNotes(f0, voicedMask)[0].endFrame == p
    ensures p >= MIN_NOTE_FRAMES && f0[0] > 0.0 && |f0| - p >= MIN_NOTE_FRAMES && f0[p] > 0.0 ==>
      var r := FallbackNotes(f0, voicedMask);
      |r| == 2 && r[0].startFrame == 0 && r[0].endFrame == p && r[1].startFrame == p && r[1].endFrame == |f0|
  {
    SplitScan(f0, voicedMask, p);
    HoldScan(f0, voicedMask, p + 3, |f0|);
    var first, second := Finalize(f0, voicedMask, 0, p), Finalize(f0, voicedMask, p, |f0|);
    assert FallbackNotes(f0, voicedMask) == first + second;
    if p >= MIN_NOTE_FRAMES && f0[0] > 0.0 {
      assert VoicedAt(f0, voicedMask, 0);
      VoicedCountPositive(f0, voicedMask, 0, p);
      assert |first| == 1;
      if |f0| - p >= MIN_NOTE_FRAMES && f0[p] > 0.0 {
        assert VoicedAt(f0, voicedMask, p);
        VoicedCountPositive(f0, voicedMask, p, |f0|);
        assert |second| == 1;
      }
    }
  }

  /** The scan through the three deviating frames: the split at the third emits [0, p) and reopens at p. */
  lemma SplitScan(f0: seq<real>, voicedMask: seq<bool>, p: nat)
    requires |f0| <= |voicedMask|
    requires forall j :: 0 <= j < |f0| ==> voicedMask[j]
    requires 1 <= p && p + MIN_FRAMES_FOR_SPLIT <= |f0|
    requires forall j :: 0 <= j < p ==> !Deviates(FreqToMidi(f0[j]), Round(FreqToMidi(f0[0])))
    requires forall j :: p <= j < p + MIN_FRAMES_FOR_SPLIT ==> Deviates(FreqToMidi(f0[j]), Round(FreqToMidi(f0[0])))
    ensures var s := FallbackScan(f0, voicedMask, p + 3);
      && s.inNote && s.noteStart == p && s.pitchChangeCount == 0
      && s.notes == Finalize(f0, voicedMask, 0, p) && s.currentMidiNote == Round(FreqToMidi(f0[p + 2]))
  {
    var a := Round(FreqToMidi(f0[0]));
    NoRunScan(f0, voicedMask, p);
    assert DeviationRun(f0, a, p) == 0;
    var s0 := FallbackScan(f0, voicedMask, p);
    var s1 := FallbackStep(f0, voicedMask, p, s0);
    assert s1.inNote && s1.noteStart == 0 && s1.notes == [] && s1.currentMidiNote == a;
    assert s1.pitchChangeCount == 1 && s1.pitchChangeStart == p;
    var s2 := FallbackStep(f0, voicedMask, p + 1, s1);
    assert s2.inNote && s2.noteStart == 0 && s2.notes == [] && s2.currentMidiNote == a;
    assert s2.pitchChangeCount == 2 && s2.pitchChangeStart == p;
    assert FallbackScan(f0, voicedMask, p + 2) == s2;
    var s3 := FallbackStep(f0, voicedMask, p + 2, s2);
    assert s3.notes == [] + Finalize(f0, voicedMask, 0, p);
    assert FallbackScan(f0, voicedMask, p + 3) == s3;
  }

  /**
   * Two held tones whose pitches differ by more than the split threshold:
   * the first note ends where the second tone begins, and with a second
   * tone of at least 5 frames there are exactly two notes.
   */
  lemma FallbackTwoTones(f0: seq<real>, voicedMask: seq<bool>, p: nat)
    requires |f0| <= |voicedMask|
    requires forall j :: 0 <= j < |f0| ==> voicedMask[j]
    requires MIN_NOTE_FRAMES <= p && p + MIN_FRAMES_FOR_SPLIT <= |f0|
    requires f0[0] > 0.0 && f0[p] > 0.0
    requires forall j :: 0 <= j < p ==> f0[j] == f0[0]
    requires forall j :: p <= j < |f0| ==> f0[j] == f0[p]
    requires Deviates(FreqToMidi(f0[p]), Round(FreqToMidi(f0[0])))
    ensures var r := FallbackNotes(f0, voicedMask);
      && |r| >= 1 && r[0].startFrame == 0 && r[0].endFrame == p
      && (|f0| - p >= MIN_NOTE_FRAMES ==> |r| == 2 && r[1].startFrame == p && r[1].endFrame == |f0|)
      && (|f0| - p < MIN_NOTE_FRAMES ==> |r| == 1)
  {
    FallbackSplit(f0, voicedMask, p);
  }
}
