/**
 * Audio and MIDI constants and the unit conversions between Hz and MIDI note
 * numbers and between seconds and analysis frames (Source/Utils/Constants.h).
 */
module Units {
  import opened RealMath

  const SAMPLE_RATE: int := 44100
  const HOP_SIZE: int := 512
  const WIN_SIZE: int := 2048
  const N_FFT: int := 2048
  const NUM_MELS: int := 128
  const FMIN: real := 40.0
  const FMAX: real := 16000.0
  const MIN_MIDI_NOTE: int := 24
  const MAX_MIDI_NOTE: int := 96
  const MIDI_A4: int := 69
  const FREQ_A4: real := 440.0

  /** midiToFreq: equal-tempered frequency of a (fractional) MIDI note. */
  function MidiToFreq(midi: real): (f: real)
    ensures Laws() ==> f > 0.0
  {
    FREQ_A4 * Pow2((midi - MIDI_A4 as real) / 12.0)
  }

  /** freqToMidi: 0 for a non-positive frequency, otherwise 12·log2(f/440) + 69. */
  function FreqToMidi(freq: real): (m: real)
    ensures freq <= 0.0 ==> m == 0.0
  {
    if freq <= 0.0 then 0.0 else 12.0 * Log2(freq / FREQ_A4) + MIDI_A4 as real
  }

  /** secondsToFrames: seconds · 44100 / 512, truncated toward zero. */
  function SecondsToFrames(seconds: real): (n: int)
    ensures seconds >= 0.0 ==> n >= 0 && n as real <= seconds * 44100.0 / 512.0 < n as real + 1.0
    ensures seconds < 0.0 ==> n <= 0 && n as real - 1.0 < seconds * 44100.0 / 512.0
  {
    Trunc(seconds * SAMPLE_RATE as real / HOP_SIZE as real)
  }

  /** framesToSeconds: frames · 512 / 44100. */
  function FramesToSeconds(frames: int): (s: real)
    ensures s * 44100.0 == frames as real * 512.0
  {
    frames as real * HOP_SIZE as real / SAMPLE_RATE as real
  }

  /** A4 sits at MIDI 69 in both directions. */
  lemma A4Anchors()
    requires Laws()
    ensures MidiToFreq(69.0) == 440.0
    ensures FreqToMidi(440.0) == 69.0
  {
    assert Log2(Pow2(0.0)) == 0.0;
    assert 440.0 / FREQ_A4 == 1.0;
  }

  /** Converting a MIDI value to Hz and back gives the value again, for every MIDI value. */
  lemma MidiRoundTrip(m: real)
    requires Laws()
    ensures FreqToMidi(MidiToFreq(m)) == m
  {
    var y := (m - 69.0) / 12.0;
    assert MidiToFreq(m) / FREQ_A4 == Pow2(y);
    assert Log2(Pow2(y)) == y;
  }

  /** Converting a positive frequency to MIDI and back gives the frequency again. */
  lemma FreqRoundTrip(f: real)
    requires Laws()
    requires f > 0.0
    ensures MidiToFreq(FreqToMidi(f)) == f
  {
    var y := Log2(f / FREQ_A4);
    assert (FreqToMidi(f) - 69.0) / 12.0 == y;
    assert Pow2(Log2(f / FREQ_A4)) == f / FREQ_A4;
  }

  /** A whole number of frames survives the trip to seconds and back. */
  lemma FramesRoundTrip(n: int)
    ensures SecondsToFrames(FramesToSeconds(n)) == n
  {
    assert FramesToSeconds(n) * 44100.0 / 512.0 == n as real;
  }
}
