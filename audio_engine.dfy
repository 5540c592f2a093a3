/**
 * The playback engine (Source/Audio/AudioEngine.cpp): a mono waveform, a
 * play position in samples and a playing flag, advanced by the audio
 * device's block callback.
 *
 * The device, the message-thread callbacks and the atomics are outside the
 * model; the block callback reports whether it would post the finish
 * notification.
 */
module Playback {
  import opened RealMath

  /** The samples a block carries from position pos: up to n samples, fewer at the end of the waveform. */
  function BlockSamples(waveform: seq<real>, pos: int, n: nat): (s: seq<real>)
    requires 0 <= pos <= |waveform|
    ensures |s| == Min(n, |waveform| - pos)
    ensures s == waveform[pos .. pos + |s|]
  {
    waveform[pos .. pos + Min(n, |waveform| - pos)]
  }

  /** The position a seek to timeSeconds lands on: the truncated sample index, clamped into the waveform. */
  function SeekTarget(timeSeconds: real, sampleRate: int, numSamples: nat): (p: int)
    ensures 0 <= p <= numSamples
  {
    Clamp(Trunc(timeSeconds * sampleRate as real), 0, numSamples)
  }

  /**
   * Seeking inside the waveform and reading the position back gives the
   * requested time, less than one sample early.
   */
  lemma SeekRoundTrip(timeSeconds: real, sampleRate: int, numSamples: nat)
    requires sampleRate > 0
    requires 0.0 <= timeSeconds * sampleRate as real <= numSamples as real
    ensures var p := SeekTarget(timeSeconds, sampleRate, numSamples);
      p as real / sampleRate as real <= timeSeconds < (p + 1) as real / sampleRate as real
  {
    var r := sampleRate as real;
    var p := SeekTarget(timeSeconds, sampleRate, numSamples);
    var x := timeSeconds * r;
    assert p == Trunc(x);
    assert p as real <= x < p as real + 1.0;
    assert timeSeconds == x / r;
    DivMonotone(p as real, x, r);
    DivStrict(x, (p + 1) as real, r);
  }

  lemma DivMonotone(a: real, b: real, c: real)
    requires a <= b && c > 0.0
    ensures a / c <= b / c
  {
    assert b / c - a / c == (b - a) / c;
  }

  lemma DivStrict(a: real, b: real, c: real)
    requires a < b && c > 0.0
    ensures a / c < b / c
  {
    assert b / c - a / c == (b - a) / c;
  }

  /**
   * Two consecutive blocks of continuous playback carry the same samples as
   * one block of their combined length: playback has no gaps or repeats.
   */
  lemma BlocksAreSeamless(waveform: seq<real>, pos: int, n1: nat, n2: nat)
    requires 0 <= pos <= |waveform|
    ensures var first := BlockSamples(waveform, pos, n1);
      first + BlockSamples(waveform, pos + |first|, n2) == BlockSamples(waveform, pos, n1 + n2)
  {
    var first := BlockSamples(waveform, pos, n1);
    var second := BlockSamples(waveform, pos + |first|, n2);
    assert waveform[pos .. pos + |first| + |second|] == waveform[pos .. pos + |first|] + waveform[pos + |first| .. pos + |first| + |second|];
  }

  /** One output channel of a block: the samples, then silence to the block's end; nothing is read past either. */
  function ChannelBlock(samples: seq<real>, n: nat, j: nat): (v: real)
    ensures j >= |samples| || j >= n ==> v == 0.0
    ensures v != 0.0 ==> j < |samples| && j < n && v == samples[j]
  {
    if j < |samples| && j < n then samples[j] else 0.0
  }

  /**
   * Writes a block into every channel of out: cell [ch, start + j] becomes
   * the j-th sample, or 0 past the samples; cells outside the block keep
   * their values.
   */
  method WriteBlock(out: array2<real>, start: nat, n: nat, samples: seq<real>)
    requires start + n <= out.Length1 && |samples| <= n
    modifies out
    ensures forall ch, j :: 0 <= ch < out.Length0 && start <= j < start + n ==> out[ch, j] == ChannelBlock(samples, n, j - start)
    ensures forall ch, j :: 0 <= ch < out.Length0 && 0 <= j < out.Length1 && !(start <= j < start + n) ==> out[ch, j] == old(out[ch, j])
  {
    for ch := 0 to out.Length0
      invariant forall c, j :: 0 <= c < ch && start <= j < start + n ==> out[c, j] == ChannelBlock(samples, n, j - start)
      invariant forall c, j :: 0 <= c < out.Length0 && 0 <= j < out.Length1 && (ch <= c || !(start <= j < start + n)) ==> out[c, j] == old(out[c, j])
    {
      for j := 0 to n
        invariant forall c, k :: 0 <= c < ch && start <= k < start + n ==> out[c, k] == ChannelBlock(samples, n, k - start)
        invariant forall k :: start <= k < start + j ==> out[ch, k] == ChannelBlock(samples, n, k - start)
        invariant forall c, k :: 0 <= c < out.Length0 && 0 <= k < out.Length1 && ((ch < c) || (c == ch && !(start <= k < start + j)) || !(start <= k < start + n)) ==> out[c, k] == old(out[c, k])
      {
        out[ch, start + j] := if j < |samples| then samples[j] else 0.0;
      }
    }
  }

  class AudioEngine {
    /** The first channel of currentWaveform. */
    var waveform: seq<real>
    var waveformSampleRate: int
    /** currentPosition, in samples */
    var position: int
    var playing: bool
    /** The device rate recorded by prepareToPlay. */
    var currentSampleRate: real

    /** The position never leaves the waveform, and the waveform's rate is positive. */
    ghost predicate Valid()
      reads this
    {
      0 <= position <= |waveform| && waveformSampleRate > 0
    }

    constructor ()
      ensures Valid()
      ensures waveform == [] && waveformSampleRate == 44100 && position == 0 && !playing && currentSampleRate == 44100.0
    {
      waveform := [];
      waveformSampleRate := 44100;
      position := 0;
      playing := false;
      currentSampleRate := 44100.0;
    }

    method PrepareToPlay(samplesPerBlockExpected: int, sampleRate: real)
      modifies this`currentSampleRate
      ensures currentSampleRate == sampleRate
    {
      currentSampleRate := sampleRate;
    }

    /** loadWaveform: playback stops, the waveform is replaced and the position returns to the start. */
    method LoadWaveform(buffer: seq<real>, sampleRate: int)
      requires sampleRate > 0
      modifies this`waveform, this`waveformSampleRate, this`position, this`playing
      ensures Valid()
      ensures waveform == buffer && waveformSampleRate == sampleRate && position == 0 && !playing
    {
      Stop();
      waveform := buffer;
      waveformSampleRate := sampleRate;
      position := 0;
    }

    /** play: starts playback, unless there is nothing loaded. */
    method Play()
      modifies this`playing
      ensures playing == (|waveform| > 0 || old(playing))
    {
      if |waveform| == 0 {
        return;
      }
      playing := true;
    }

    /** pause: playback stops where it is. */
    method Pause()
      modifies this`playing
      ensures !playing
    {
      playing := false;
    }

    /** stop: playback stops and the position returns to the start. */
    method Stop()
      modifies this`playing, this`position
      ensures !playing && position == 0
    {
      playing := false;
      position := 0;
    }

    /** seek: the position moves to the given time, clamped into the waveform. */
    method Seek(timeSeconds: real)
      modifies this`position
      ensures position == SeekTarget(timeSeconds, waveformSampleRate, |waveform|)
      ensures 0 <= position <= |waveform|
    {
      var newPos := Trunc(timeSeconds * waveformSampleRate as real);
      newPos := Clamp(newPos, 0, |waveform|);
      position := newPos;
    }

    /** getPosition, in seconds. */
    function GetPosition(): (t: real)
      requires Valid()
      reads this
      ensures t >= 0.0
    {
      DivNonNegative(position as real, waveformSampleRate as real);
      position as real / waveformSampleRate as real
    }

    /** getDuration, in seconds: 0 with nothing loaded, and never less than the position. */
    function GetDuration(): (d: real)
      requires Valid()
      reads this
      ensures |waveform| == 0 ==> d == 0.0
      ensures d >= GetPosition()
    {
      DivMonotone(position as real, |waveform| as real, waveformSampleRate as real);
      if |waveform| == 0 then 0.0 else |waveform| as real / waveformSampleRate as real
    }

    /**
     * getNextAudioBlock: n samples written at start into every channel of
     * out. Silence when paused or empty; silence, a stop and a finish
     * notification at the end of the waveform; otherwise the next samples,
     * silence after the end, and the position moved past what was played.
     */
    method GetNextAudioBlock(out: array2<real>, start: nat, n: nat) returns (finished: bool)
      requires Valid() && start + n <= out.Length1
      modifies out, this`position, this`playing
      ensures Valid()
      ensures finished <==> old(playing) && |waveform| > 0 && old(position) == |waveform|
      ensures !old(playing) || |waveform| == 0 ==> position == old(position) && playing == old(playing)
      ensures finished ==> position == old(position) && !playing
      ensures old(playing) && |waveform| > 0 && !finished ==>
        && playing
        && position == old(position) + |BlockSamples(waveform, old(position), n)|
      ensures var played := if old(playing) && |waveform| > 0 then BlockSamples(waveform, old(position), n) else [];
        forall ch, j :: 0 <= ch < out.Length0 && start <= j < start + n ==> out[ch, j] == ChannelBlock(played, n, j - start)
      ensures forall ch, j :: 0 <= ch < out.Length0 && 0 <= j < out.Length1 && !(start <= j < start + n) ==> out[ch, j] == old(out[ch, j])
    {
      finished := false;
      if !playing || |waveform| == 0 {
        WriteBlock(out, start, n, []);
        return;
      }
      var pos := position;
      var waveformLength := |waveform|;
      var samplesToProcess := n;
      if pos >= waveformLength {
        WriteBlock(out, start, n, []);
        playing := false;
        finished := true;
        return;
      }
      if pos + samplesToProcess > waveformLength {
        samplesToProcess := waveformLength - pos;
      }
      WriteBlock(out, start, n, waveform[pos .. pos + samplesToProcess]);
      position := pos + samplesToProcess;
    }
  }

  /** While playing, the position only moves forward, and it reaches the end after enough blocks. */
  lemma PlaybackAdvances(waveform: seq<real>, pos: int, n: nat)
    requires 0 <= pos < |waveform| && n > 0
    ensures pos < pos + |BlockSamples(waveform, pos, n)| <= |waveform|
    ensures n >= |waveform| - pos ==> pos + |BlockSamples(waveform, pos, n)| == |waveform|
  {
  }
}
