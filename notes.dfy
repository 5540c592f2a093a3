/**
 * A pitched note of the edit model (Source/Models/Note.cpp).
 *
 * Notes live by value in the project's note vector, so a note is a datatype;
 * the setters of the C++ class become record updates done by the project.
 */
module Notes {
  import opened RealMath

  datatype Note = Note(
    startFrame: int,      // first frame of the span
    endFrame: int,        // one past the last frame of the span
    midiNote: real,       // detected pitch
    pitchOffset: real,    // edit offset in semitones
    f0Values: seq<real>,  // cached F0 slice of the span
    selected: bool,
    dirty: bool)
  {
    /** containsFrame: the span is half open. */
    predicate ContainsFrame(frame: int)
    {
      startFrame <= frame < endFrame
    }
  }

  /** Note(startFrame, endFrame, midiNote): a fresh, unedited, unselected, clean note. */
  function NewNote(startFrame: int, endFrame: int, midiNote: real): (n: Note)
    ensures n.startFrame == startFrame && n.endFrame == endFrame && n.midiNote == midiNote
    ensures n.pitchOffset == 0.0 && n.f0Values == [] && !n.selected && !n.dirty
  {
    Note(startFrame, endFrame, midiNote, 0.0, [], false, false)
  }

  /** The frequency ratio of a pitch offset in semitones. */
  function OffsetRatio(semitones: real): real
  {
    Pow2(semitones / 12.0)
  }

  /**
   * Note::getAdjustedF0: the cached F0 slice shifted by the note's offset.
   * With no values or a zero offset the slice is returned as it is; otherwise
   * voiced (positive) values are scaled and every other value becomes 0.
   */
  function AdjustedF0(f0Values: seq<real>, pitchOffset: real): (r: seq<real>)
    ensures |r| == |f0Values|
    ensures f0Values == [] || pitchOffset == 0.0 ==> r == f0Values
    ensures pitchOffset != 0.0 ==> forall i :: 0 <= i < |r| ==>
      r[i] == (if f0Values[i] > 0.0 then f0Values[i] * OffsetRatio(pitchOffset) else 0.0)
  {
    if f0Values == [] || pitchOffset == 0.0 then f0Values
    else
      var ratio := OffsetRatio(pitchOffset);
      seq(|f0Values|, i requires 0 <= i < |f0Values| =>
        if f0Values[i] > 0.0 then f0Values[i] * ratio else 0.0)
  }

  /** Shifting up and then down by the same offset restores every voiced value and keeps the rest unvoiced. */
  lemma AdjustedF0Inverse(f0Values: seq<real>, offset: real)
    requires Laws()
    ensures var back := AdjustedF0(AdjustedF0(f0Values, offset), -offset);
      |back| == |f0Values| &&
      forall i :: 0 <= i < |back| && f0Values[i] > 0.0 ==> back[i] == f0Values[i]
  {
    if offset != 0.0 {
      var up := AdjustedF0(f0Values, offset);
      var back := AdjustedF0(up, -offset);
      var p, q := OffsetRatio(offset), OffsetRatio(-offset);
      assert p * q == 1.0 by {
        assert offset / 12.0 + (-offset) / 12.0 == 0.0;
      }
      forall i | 0 <= i < |back| && f0Values[i] > 0.0
        ensures back[i] == f0Values[i]
      {
        assert up[i] == f0Values[i] * p;
        assert up[i] > 0.0;
        calc {
          back[i];
          up[i] * q;
          f0Values[i] * (p * q);
        }
      }
    }
  }

  /** A voiced value stays voiced after any shift, and an unvoiced value stays unvoiced. */
  lemma AdjustedF0KeepsVoicing(f0Values: seq<real>, offset: real, i: int)
    requires Laws()
    requires 0 <= i < |f0Values|
    ensures var r := AdjustedF0(f0Values, offset);
      (f0Values[i] > 0.0 <==> r[i] > 0.0)
  {
    if f0Values != [] && offset != 0.0 {
      assert OffsetRatio(offset) > 0.0;
    }
  }
}
