/**
 * The plug-in's audio processor (Source/Plugin/PluginProcessor.cpp) outside
 * ARA mode: it records the host's input into a capture buffer of five
 * minutes, and once processed audio has been handed back it plays that
 * instead of the input.
 *
 * Buffers are channels × samples arrays.
 */
module PluginProcessing {
  import opened RealMath

  /** The capture buffer's length for a host rate: five minutes of samples. */
  function CaptureLength(sampleRate: real): (n: int)
    requires sampleRate > 0.0
    ensures n >= 0
    ensures n as real <= sampleRate * 300.0 < n as real + 1.0
  {
    Trunc(sampleRate * 300.0)
  }

  /** Whether a block of n samples at pos is copied into a buffer of len samples: only when all of it fits. */
  predicate BlockFits(pos: int, n: int, len: int)
  {
    pos + n <= len
  }

  /** The capture position and flag after one block of n samples while capturing. */
  function CaptureAdvance(pos: int, n: nat, maxCaptureLength: int): (r: (int, bool))
    ensures r.0 == pos + n
    ensures r.1 <==> pos + n < maxCaptureLength
  {
    (pos + n, !(pos + n >= maxCaptureLength))
  }

  /**
   * Blocks of a fixed size that divides the capture length fill it exactly:
   * the capture stops right after the block that ends at the last sample,
   * and every block before it fits.
   */
  lemma {:induction false} CaptureFillsExactly(blocks: nat, n: nat, maxCaptureLength: int)
    requires n > 0 && maxCaptureLength == blocks * n
    ensures forall k :: 0 <= k < blocks ==> BlockFits(k * n, n, maxCaptureLength)
    ensures forall k :: 0 <= k < blocks - 1 ==> CaptureAdvance(k * n, n, maxCaptureLength).1
    ensures blocks > 0 ==> !CaptureAdvance((blocks - 1) * n, n, maxCaptureLength).1
  {
    forall k | 0 <= k < blocks
      ensures BlockFits(k * n, n, maxCaptureLength)
    {
      MulMonotone(k + 1, blocks, n);
    }
    forall k | 0 <= k < blocks - 1
      ensures CaptureAdvance(k * n, n, maxCaptureLength).1
    {
      MulMonotone(k + 2, blocks, n);
    }
  }

  /** The number of processed samples a block plays from pos. */
  function SamplesToPlay(n: nat, len: int, pos: int): (k: int)
    requires pos < len
    ensures 0 <= k <= n && pos + k <= len
    ensures pos + n <= len ==> k == n
  {
    Min(n, len - pos)
  }

  /** A channel layout of a bus. */
  datatype ChannelSet = Disabled | Mono | Stereo | Other(channels: nat)

  /** isBusesLayoutSupported: the same layout on input and output, and that layout mono or stereo. */
  function IsBusesLayoutSupported(input: ChannelSet, output: ChannelSet): (ok: bool)
    ensures ok ==> input == output
    ensures ok <==> input == output && (output == Mono || output == Stereo)
  {
    if output != input then false
    else output == Mono || output == Stereo
  }

  /** Sets every cell of a buffer to 0. */
  method ClearBuffer(a: array2<real>)
    modifies a
    ensures forall c, j :: 0 <= c < a.Length0 && 0 <= j < a.Length1 ==> a[c, j] == 0.0
  {
    for c := 0 to a.Length0
      invariant forall x, j :: 0 <= x < c && 0 <= j < a.Length1 ==> a[x, j] == 0.0
    {
      for j := 0 to a.Length1
        invariant forall x, k :: 0 <= x < c && 0 <= k < a.Length1 ==> a[x, k] == 0.0
        invariant forall k :: 0 <= k < j ==> a[c, k] == 0.0
      {
        a[c, j] := 0.0;
      }
    }
  }

  /** AudioBuffer::setSize(channels, len, keepExisting): a fresh buffer holding the first len samples of every channel. */
  method Resized(a: array2<real>, len: nat) returns (b: array2<real>)
    requires len <= a.Length1
    ensures fresh(b) && b.Length0 == a.Length0 && b.Length1 == len
    ensures forall c, j :: 0 <= c < b.Length0 && 0 <= j < len ==> b[c, j] == a[c, j]
  {
    b := new real[a.Length0, len];
    for c := 0 to a.Length0
      invariant forall x, j :: 0 <= x < c && 0 <= j < len ==> b[x, j] == a[x, j]
    {
      for j := 0 to len
        invariant forall x, k :: 0 <= x < c && 0 <= k < len ==> b[x, k] == a[x, k]
        invariant forall k :: 0 <= k < j ==> b[c, k] == a[c, k]
      {
        b[c, j] := a[c, j];
      }
    }
  }

  class PitchEditorAudioProcessor {
    var capturing: bool
    var capturedBuffer: array2<real>
    var capturePosition: int
    var maxCaptureLength: int
    var processedBuffer: array2<real>
    var processedReady: bool
    var playbackPosition: int
    var hostSampleRate: real

    /**
     * The processor's invariant: neither position is negative, a capture in
     * progress that has taken a block is still below the capture length, the
     * capture buffer is never longer than the capture length, playback stays
     * at the start until processed audio is ready, and the capture buffer and
     * the processed buffer are distinct arrays.
     */
    ghost predicate Valid()
      reads this
    {
      && 0 <= capturePosition && 0 <= playbackPosition
      && (capturing && capturePosition > 0 ==> capturePosition < maxCaptureLength)
      && capturedBuffer.Length1 <= maxCaptureLength
      && (!processedReady ==> playbackPosition == 0)
      && capturedBuffer != processedBuffer
    }

    constructor ()
      ensures Valid()
      ensures !capturing && capturePosition == 0 && maxCaptureLength == 0
      ensures capturedBuffer.Length0 == 0 && capturedBuffer.Length1 == 0
      ensures processedBuffer.Length0 == 0 && processedBuffer.Length1 == 0
      ensures !processedReady && playbackPosition == 0 && hostSampleRate == 44100.0
    {
      capturing := false;
      capturedBuffer := new real[0, 0];
      capturePosition := 0;
      maxCaptureLength := 0;
      processedBuffer := new real[0, 0];
      processedReady := false;
      playbackPosition := 0;
      hostSampleRate := 44100.0;
    }

    /** prepareToPlay: a cleared stereo capture buffer of five minutes at the host rate, captured from its start. */
    method PrepareToPlay(sampleRate: real, samplesPerBlock: int)
      requires sampleRate > 0.0
      requires Valid()
      modifies this`hostSampleRate, this`maxCaptureLength, this`capturedBuffer, this`capturePosition
      ensures hostSampleRate == sampleRate
      ensures maxCaptureLength == CaptureLength(sampleRate)
      ensures fresh(capturedBuffer) && capturedBuffer.Length0 == 2 && capturedBuffer.Length1 == maxCaptureLength
      ensures forall c, j :: 0 <= c < 2 && 0 <= j < maxCaptureLength ==> capturedBuffer[c, j] == 0.0
      ensures capturePosition == 0
      ensures Valid()
    {
      hostSampleRate := sampleRate;
      maxCaptureLength := CaptureLength(sampleRate);
      var buffer := new real[2, maxCaptureLength];
      ClearBuffer(buffer);
      capturedBuffer := buffer;
      capturePosition := 0;
    }

    /** startCapture: the capture buffer is cleared and both positions return to the start. */
    method StartCapture()
      requires Valid()
      modifies this`capturePosition, this`processedReady, this`playbackPosition, this`capturing, capturedBuffer
      ensures forall c, j :: 0 <= c < capturedBuffer.Length0 && 0 <= j < capturedBuffer.Length1 ==> capturedBuffer[c, j] == 0.0
      ensures capturePosition == 0 && !processedReady && playbackPosition == 0 && capturing
      ensures Valid()
    {
      ClearBuffer(capturedBuffer);
      capturePosition := 0;
      processedReady := false;
      playbackPosition := 0;
      capturing := true;
    }

    /** stopCapture: capturing ends, and the buffer is cut to what was captured when that is shorter. */
    method StopCapture()
      requires Valid()
      modifies this`capturing, this`capturedBuffer
      ensures !capturing
      ensures 0 < capturePosition < old(capturedBuffer.Length1) ==>
        && fresh(capturedBuffer)
        && capturedBuffer.Length0 == old(capturedBuffer.Length0) && capturedBuffer.Length1 == capturePosition
        && forall c, j :: 0 <= c < capturedBuffer.Length0 && 0 <= j < capturePosition ==> capturedBuffer[c, j] == old(capturedBuffer[c, j])
      ensures !(0 < capturePosition < old(capturedBuffer.Length1)) ==> capturedBuffer == old(capturedBuffer)
      ensures Valid()
    {
      capturing := false;
      if capturePosition > 0 && capturePosition < capturedBuffer.Length1 {
        capturedBuffer := Resized(capturedBuffer, capturePosition);
      }
    }

    /** setProcessedAudio: a copy of the buffer becomes the audio to play, from its start. */
    method SetProcessedAudio(buffer: array2<real>)
      requires Valid()
      modifies this`processedBuffer, this`playbackPosition, this`processedReady
      ensures fresh(processedBuffer)
      ensures processedBuffer.Length0 == buffer.Length0 && processedBuffer.Length1 == buffer.Length1
      ensures forall c, j :: 0 <= c < buffer.Length0 && 0 <= j < buffer.Length1 ==> processedBuffer[c, j] == buffer[c, j]
      ensures playbackPosition == 0 && processedReady
      ensures Valid()
    {
      processedBuffer := Resized(buffer, buffer.Length1);
      playbackPosition := 0;
      processedReady := true;
    }

    /**
     * The capture half of processBlock: while capturing, the block is copied
     * to the capture position in every channel both buffers have, but only
     * if all of it fits; the position advances by the block either way, and
     * capturing ends once it reaches the capture length.
     */
    method CaptureBlock(buffer: array2<real>)
      requires Valid() && buffer != capturedBuffer
      modifies capturedBuffer, this`capturePosition, this`capturing
      ensures var n := buffer.Length1;
        var copied := old(capturing) && BlockFits(old(capturePosition), n, capturedBuffer.Length1);
        forall c, j :: 0 <= c < capturedBuffer.Length0 && 0 <= j < capturedBuffer.Length1 ==>
          capturedBuffer[c, j] ==
            if copied && c < buffer.Length0 && old(capturePosition) <= j < old(capturePosition) + n
            then buffer[c, j - old(capturePosition)]
            else old(capturedBuffer[c, j])
      ensures old(capturing) ==> (capturePosition, capturing) == CaptureAdvance(old(capturePosition), buffer.Length1, maxCaptureLength)
      ensures !old(capturing) ==> capturePosition == old(capturePosition) && !capturing
    {
      var numSamples := buffer.Length1;
      var numChannels := buffer.Length0;
      if capturing {
        var pos := capturePosition;
        for ch := 0 to capturedBuffer.Length0
          invariant capturePosition == pos && capturing
          invariant forall c, j :: 0 <= c < capturedBuffer.Length0 && 0 <= j < capturedBuffer.Length1 ==>
            capturedBuffer[c, j] ==
              if c < ch && c < numChannels && BlockFits(pos, numSamples, capturedBuffer.Length1) && pos <= j < pos + numSamples
              then buffer[c, j - pos]
              else old(capturedBuffer[c, j])
        {
          if ch < numChannels && capturePosition + numSamples <= capturedBuffer.Length1 {
            CopyIntoChannel(capturedBuffer, ch, capturePosition, buffer);
          }
        }
        capturePosition := capturePosition + numSamples;
        if capturePosition >= maxCaptureLength {
          capturing := false;
        }
      }
    }

    /**
     * The playback half of processBlock: with processed audio ready and not
     * yet played out, every channel both buffers have receives the next
     * processed samples, silence after them, and the playback position
     * advances by the whole block.
     */
    method PlaybackBlock(buffer: array2<real>)
      requires Valid() && buffer != processedBuffer
      modifies buffer, this`playbackPosition
      ensures var playing := processedReady && old(playbackPosition) < processedBuffer.Length1;
        forall c, j :: 0 <= c < buffer.Length0 && 0 <= j < buffer.Length1 ==>
          buffer[c, j] ==
            if playing && c < processedBuffer.Length0 then
              (if j < SamplesToPlay(buffer.Length1, processedBuffer.Length1, old(playbackPosition))
               then processedBuffer[c, old(playbackPosition) + j] else 0.0)
            else old(buffer[c, j])
      ensures playbackPosition == if processedReady && old(playbackPosition) < processedBuffer.Length1
        then old(playbackPosition) + buffer.Length1 else old(playbackPosition)
    {
      var numSamples := buffer.Length1;
      if processedReady && playbackPosition < processedBuffer.Length1 {
        var pos := playbackPosition;
        var samplesToPlay := Min(numSamples, processedBuffer.Length1 - pos);
        assert samplesToPlay == SamplesToPlay(numSamples, processedBuffer.Length1, pos);
        for ch := 0 to buffer.Length0
          invariant playbackPosition == pos
          invariant forall c, j :: 0 <= c < buffer.Length0 && 0 <= j < buffer.Length1 ==>
            buffer[c, j] ==
              if c < ch && c < processedBuffer.Length0 then
                (if j < samplesToPlay then processedBuffer[c, pos + j] else 0.0)
              else old(buffer[c, j])
        {
          if ch < processedBuffer.Length0 {
            PlayIntoChannel(buffer, ch, processedBuffer, pos, samplesToPlay);
          }
        }
        playbackPosition := playbackPosition + numSamples;
      }
    }

    /**
     * processBlock: the input block is captured first (while capturing, and
     * only when it fits), then replaced by processed audio when there is
     * some left to play; otherwise the input passes through.
     */
    method ProcessBlock(buffer: array2<real>)
      requires Valid() && buffer != capturedBuffer && buffer != processedBuffer
      modifies buffer, capturedBuffer, this`capturePosition, this`capturing, this`playbackPosition
      ensures Valid()
      ensures var n, pos := buffer.Length1, old(capturePosition);
        var copied := old(capturing) && BlockFits(pos, n, capturedBuffer.Length1);
        forall c, j :: 0 <= c < capturedBuffer.Length0 && 0 <= j < capturedBuffer.Length1 ==>
          capturedBuffer[c, j] ==
            if copied && c < buffer.Length0 && pos <= j < pos + n
            then old(buffer[c, j - pos])
            else old(capturedBuffer[c, j])
      ensures old(capturing) ==> (capturePosition, capturing) == CaptureAdvance(old(capturePosition), buffer.Length1, maxCaptureLength)
      ensures !old(capturing) ==> capturePosition == old(capturePosition) && !capturing
      ensures var playing := processedReady && old(playbackPosition) < processedBuffer.Length1;
        forall c, j :: 0 <= c < buffer.Length0 && 0 <= j < buffer.Length1 ==>
          buffer[c, j] ==
            if playing && c < processedBuffer.Length0 then
              (if j < SamplesToPlay(buffer.Length1, processedBuffer.Length1, old(playbackPosition))
               then processedBuffer[c, old(playbackPosition) + j] else 0.0)
            else old(buffer[c, j])
      ensures playbackPosition == if processedReady && old(playbackPosition) < processedBuffer.Length1
        then old(playbackPosition) + buffer.Length1 else old(playbackPosition)
    {
      CaptureBlock(buffer);
      PlaybackBlock(buffer);
    }
  }

  /** Copies the samples of channel ch of src into channel ch of dst at offset pos. */
  method CopyIntoChannel(dst: array2<real>, ch: nat, pos: int, src: array2<real>)
    requires dst != src && ch < dst.Length0 && ch < src.Length0
    requires 0 <= pos && pos + src.Length1 <= dst.Length1
    modifies dst
    ensures forall c, j :: 0 <= c < dst.Length0 && 0 <= j < dst.Length1 ==>
      dst[c, j] == if c == ch && pos <= j < pos + src.Length1 then src[c, j - pos] else old(dst[c, j])
  {
    for k := 0 to src.Length1
      invariant forall c, j :: 0 <= c < dst.Length0 && 0 <= j < dst.Length1 ==>
        dst[c, j] == if c == ch && pos <= j < pos + k then src[c, j - pos] else old(dst[c, j])
    {
      dst[ch, pos + k] := src[ch, k];
    }
  }

  /** Writes count samples of channel ch of src from pos into channel ch of dst, then silence to its end. */
  method PlayIntoChannel(dst: array2<real>, ch: nat, src: array2<real>, pos: int, count: int)
    requires dst != src && ch < dst.Length0 && ch < src.Length0
    requires 0 <= pos && 0 <= count <= dst.Length1 && pos + count <= src.Length1
    modifies dst
    ensures forall c, j :: 0 <= c < dst.Length0 && 0 <= j < dst.Length1 ==>
      dst[c, j] == if c == ch then (if j < count then src[c, pos + j] else 0.0) else old(dst[c, j])
  {
    for k := 0 to dst.Length1
      invariant forall c, j :: 0 <= c < dst.Length0 && 0 <= j < dst.Length1 ==>
        dst[c, j] == if c == ch && j < k then (if j < count then src[c, pos + j] else 0.0) else old(dst[c, j])
    {
      dst[ch, k] := if k < count then src[ch, pos + k] else 0.0;
    }
  }
}
