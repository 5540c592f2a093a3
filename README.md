# Pitch editor core, modelled in Dafny

This project models the signal-processing and edit-model core of a pitch
editor. The editor loads a recording, detects its pitch curve (F0) and note
segments, lets the user shift notes, and resynthesises only the edited
region with a neural vocoder. The model covers these parts:

- **Units**: the audio and MIDI constants and the Hz/MIDI and seconds/frames
  conversions.
- **Notes and the project**: a note's span and its pitch-shifted F0 slice. The
  project's note queries, its selection and dirty flags, and the adjusted F0
  curve sent to the vocoder. That curve is built in four stages: the global
  offset, per-note ratios, linear ramps over 2 frames back and 4 ahead at ratio
  transitions, and voiced-only application.
- **Base pitch**: the smoothed base-pitch curve. It has a 119-tap cosine
  kernel, a 1 ms step-function rendering of the notes, clamped convolution and
  resampling back to frames, plus the delta-pitch conversions.
- **Classical YIN pitch detector**: the difference function, the cumulative
  mean normalised difference (with the NaN of 0/0), the absolute-threshold
  search with descent, parabolic refinement, and the per-frame driver.
- **SOME note detector, except the network**: resampling to 44.1 kHz, the RMS
  curve, the silence slicer, and the chaining of per-chunk note tokens into
  note events. Chaining exists both in batch form (where a failed chunk aborts
  the whole detection) and in streaming form (where a failed chunk is skipped).
- **Analysis pipeline**: FCPE-to-vocoder frame mapping with log-domain
  interpolation, the YIN path, the voiced mask, the three cancellation points,
  and the two note segmenters (SOME-driven and F0-driven fallback).
- **Standalone loader**: the stereo-to-mono mix, linear resampling to
  44.1 kHz, and the run-length note segmenter.
- **Playback engine**: the block callback, play, pause, stop, seek, position
  and duration.
- **Plug-in processor, outside ARA mode**: capture of the host's input into a
  five-minute buffer, its trimming, and playback of processed audio in place of
  the input.
- **Incremental synthesiser**: padding and clamping of the dirty range, job ids
  and cancel flags, the rejection tests of the completion handler, the
  crossfaded splice into the waveform, and clearing of the dirty flags.

Floats are mathematical reals. The library transcendentals (`pow(2, x)`,
`log2`, `log`, `exp`, `cos`, `sqrt`) are uninterpreted functions. The facts the
proofs use about them are collected in `RealMath.Laws` and
`RealMath.MonotoneLaws`, and the lemmas that need them require them.
`static_cast<int>`, `std::round` and C++ integer division are written out
exactly. Neural inference (FCPE, the mel spectrogram, SOME, the vocoder) and
the F0 smoothing stages are function parameters. Asynchronous completion
handlers are explicit method calls.

Where the code drops data it is modelled as written:

- A capture block that does not fit into the capture buffer is skipped, but
  the capture position still advances past it.
- The fallback segmenter's unvoiced-gap limit is `INT_MAX`, so a gap never
  closes a note (`NoteSegmentation.FallbackGapNeverCloses`).

## Model

| member | source | states |
|---|---|---|
| RealMath.Trunc | Source/Utils/Constants.h:58-60 | `static_cast<int>` of a real truncates toward zero, for both signs |
| RealMath.Round | Source/Audio/SOMEDetector.cpp:319 | `std::round` is the nearest integer, halfway cases away from zero |
| RealMath.CDiv | Source/Audio/SOMEDetector.cpp:308 | C++ integer division by a positive divisor truncates toward zero, for both signs |
| RealMath.Clamp | Source/Utils/BasePitchCurve.cpp:104 | `std::clamp` lies in the bounds and keeps a value already inside them |
| Units.MidiToFreq | Source/Utils/Constants.h:48-50 | every MIDI value maps to a positive frequency |
| Units.FreqToMidi | Source/Utils/Constants.h:52-56 | a non-positive frequency maps to MIDI 0 |
| Units.SecondsToFrames | Source/Utils/Constants.h:58-60 | the frame count is seconds·44100/512 truncated toward zero, for positive and negative times |
| Units.FramesToSeconds | Source/Utils/Constants.h:62-64 | seconds·44100 equals frames·512 exactly |
| Units.A4Anchors | Source/Utils/Constants.h:15-16 | MIDI 69 is 440 Hz and 440 Hz is MIDI 69 |
| Units.MidiRoundTrip | Source/Utils/Constants.h:48-56 | MIDI → Hz → MIDI is the identity for every MIDI value |
| Units.FreqRoundTrip | Source/Utils/Constants.h:48-56 | Hz → MIDI → Hz is the identity for every positive frequency |
| Units.FramesRoundTrip | Source/Utils/Constants.h:58-64 | frames → seconds → frames is the identity |
| Notes.NewNote | Source/Models/Note.cpp:4-7 | a new note has the given span and pitch, no offset, no F0 slice, and is unselected and clean |
| Notes.AdjustedF0 | Source/Models/Note.cpp:9-29 | same length; an empty slice or zero offset is returned unchanged; otherwise voiced values are scaled by 2^(offset/12) and the others become 0 |
| Notes.AdjustedF0Inverse | Source/Models/Note.cpp:9-29 | shifting by an offset and then by its negation restores every voiced value |
| Notes.AdjustedF0KeepsVoicing | Source/Models/Note.cpp:20-26 | a value is voiced after any shift exactly when it was voiced before |
| Projects.GlobalScaled | Source/Models/Project.cpp:56-65 | voiced frames are scaled by the global ratio when the offset is non-zero; unvoiced frames are untouched |
| Projects.ApplyNoteRatio | Source/Models/Project.cpp:70-81 | a note with a non-zero offset sets its ratio on [start, min(end, size)); every other frame keeps its ratio |
| Projects.NoteRatios | Source/Models/Project.cpp:67-81 | one ratio per frame; its values are fixed by `NoteRatiosAllOne`, `NoteRatiosUncovered` and `NoteRatiosLastWins` |
| Projects.Ramp | Source/Models/Project.cpp:92-106 | a transition ramp keeps the curve length; `RampFrame` and `RampBetween` bound what it writes |
| Projects.SmoothStep | Source/Models/Project.cpp:87-107 | one iteration of the transition loop keeps the curve length |
| Projects.SmoothFrom | Source/Models/Project.cpp:83-108 | the rest of the transition loop keeps the curve length |
| Projects.RampValue | Source/Models/Project.cpp:96-106 | a ramp starts at the value before the transition and ends at the value after it |
| Projects.RampValueBetween | Source/Models/Project.cpp:96-106 | every interpolated ramp value lies between the two values the ramp joins |
| Projects.RampAt | Source/Models/Project.cpp:92-106 | a ramp rewrites exactly the frames of its window [i-2, i+4), clipped to the curve, when that window spans more than one frame |
| Projects.SmoothFromSettled | Source/Models/Project.cpp:87-108 | a frame more than 2 frames behind where the loop starts is never written again |
| Projects.SmoothFromFlatPrefix | Source/Models/Project.cpp:87-108 | a frame keeps its ratio when every ratio from the start up to 2 frames past it is the same |
| Projects.AdjustedF0Spec | Source/Models/Project.cpp:48-120 | one adjusted value per F0 frame; `AdjustedF0Identity` and `AdjustedF0Unvoiced` pin its values |
| Projects.NoteRatiosAllOne | Source/Models/Project.cpp:67-81 | with every note offset 0, every frame ratio stays 1 |
| Projects.NoteRatiosUncovered | Source/Models/Project.cpp:67-81 | a frame covered by no note with a non-zero offset keeps ratio 1 |
| Projects.NoteRatiosLastWins | Source/Models/Project.cpp:70-81 | on overlapping notes the later note in collection order sets the frame's ratio |
| Projects.RampFrame | Source/Models/Project.cpp:87-108 | a transition ramp writes only inside its window [i-2, i+4) and keeps both window ends |
| Projects.RampBetween | Source/Models/Project.cpp:96-106 | every ramp value lies between the two values the ramp joins |
| Projects.SmoothFromConstant | Source/Models/Project.cpp:87-108 | the transition loop leaves a constant ratio curve unchanged |
| Projects.ApplyVoiced | Source/Models/Project.cpp:110-117 | ratios apply exactly where the voiced mask exists and is set |
| Projects.AdjustedF0Identity | Source/Models/Project.cpp:48-120 | with global offset 0 and all note offsets 0, the adjusted curve is the raw F0 |
| Projects.RatiosStayOne | Source/Models/Project.cpp:67-108 | with every note offset 0, every smoothed frame ratio is 1 |
| Projects.AdjustedF0Unvoiced | Source/Models/Project.cpp:110-117 | an unvoiced frame carries only the global stage |
| Projects.DirtyNotesRange | Source/Audio/Synthesis/IncrementalSynthesizer.cpp:33-42 | (-1, -1) exactly when no note is dirty; otherwise the tightest range covering every dirty note, with both ends attained by dirty notes |
| Projects.OneDirtyNoteRange | Source/Audio/Synthesis/IncrementalSynthesizer.cpp:33-42 | with exactly one dirty note, the dirty range is that note's span |
| Projects.Project.constructor | Source/Models/Project.cpp:6-8 | a new project is empty, has no offset, has no dirty range and has had no curve rebuild |
| Projects.Project.GetNoteAtFrame | Source/Models/Project.cpp:10-18 | returns the first note containing the frame, or none exactly when no note contains it |
| Projects.Project.GetNotesInRange | Source/Models/Project.cpp:20-29 | returns, in collection order, exactly the notes overlapping [start, end) |
| Projects.Project.GetSelectedNotes | Source/Models/Project.cpp:31-40 | returns, in collection order, exactly the selected notes |
| Projects.Project.GetDirtyFrameRange | Source/Audio/Synthesis/IncrementalSynthesizer.cpp:33-42 | (-1, -1) exactly when there are no dirty notes and no F0 edit range; otherwise covers both |
| Projects.Project.HasDirtyNotes | Source/Audio/Synthesis/IncrementalSynthesizer.cpp:33-35 | some note is dirty exactly when the dirty-note range is not (-1, -1) |
| Projects.Project.F0EditRangeAlone | Source/Audio/Synthesis/IncrementalSynthesizer.cpp:33-42 | with an F0 edit range and no dirty note, the dirty range is the F0 edit range |
| Projects.Project.RebuildCurvesFromSource | Source/Audio/Analysis/AudioAnalyzer.cpp:81 | one rebuild from the given F0 is recorded after the earlier ones |
| Projects.Project.MarkNoteDirty | Source/UI/ParameterPanel.cpp:144 | only the given note's dirty flag is set; every other field, including the rebuild record, is unchanged |
| Projects.Project.ClearAllDirty | Source/Audio/Synthesis/IncrementalSynthesizer.cpp:153-154 | every note becomes clean and the F0 edit range is dropped; the waveform, F0, mask, spectrogram, offset and rebuild record are unchanged |
| Projects.Project.DeselectAllNotes | Source/Models/Project.cpp:42-46 | every note is deselected; the waveform, F0, mask, spectrogram, offset, dirty range and rebuild record are unchanged |
| Projects.Project.GetAdjustedF0 | Source/Models/Project.cpp:48-120 | the result is the four-stage adjusted curve `AdjustedF0Spec` |
| Projects.ApplyGlobalRatio | Source/Models/Project.cpp:56-65 | the array becomes `GlobalScaled` of its old contents |
| Projects.ScaleVoiced | Source/Models/Project.cpp:58-64 | every positive value is multiplied by the ratio; the others are kept |
| Projects.FrameRatios | Source/Models/Project.cpp:67-81 | a fresh array holding the per-note ratios in collection order |
| Projects.OverwriteNoteRatio | Source/Models/Project.cpp:72-80 | the array becomes `ApplyNoteRatio` of its old contents |
| Projects.SmoothTransitions | Source/Models/Project.cpp:83-108 | the ratio array becomes the transition loop's result, each iteration seeing earlier ramps |
| Projects.RampInPlace | Source/Models/Project.cpp:92-106 | the array becomes one transition ramp of its old contents |
| Projects.ApplyRatiosToVoiced | Source/Models/Project.cpp:110-117 | the array becomes `ApplyVoiced` of its old contents |
| BasePitch.TapsSumPositive | Source/Utils/BasePitchCurve.cpp:26-31 | every cosine tap is positive, so their sum is positive |
| BasePitch.Kernel | Source/Utils/BasePitchCurve.cpp:21-38 | the kernel has 119 taps; `KernelNormalised` shows that they are positive and sum to 1 |
| BasePitch.Taps | Source/Utils/BasePitchCurve.cpp:25-30 | the unnormalised kernel has 119 taps |
| BasePitch.KernelArgInRange | Source/Utils/BasePitchCurve.cpp:27-28 | every tap's cosine argument lies in [-1.57, 1.57], where the cosine is positive |
| BasePitch.CosineTap | Source/Utils/BasePitchCurve.cpp:27-28 | the loop body computes the tap's cosine |
| BasePitch.KernelNormalised | Source/Utils/BasePitchCurve.cpp:21-38 | the kernel's taps are positive and sum to 1 |
| BasePitch.KernelPositive | Source/Utils/BasePitchCurve.cpp:26-35 | every kernel tap is positive |
| BasePitch.CreateCosineKernel | Source/Utils/BasePitchCurve.cpp:21-38 | a fresh array holding the normalised kernel |
| BasePitch.FillTaps | Source/Utils/BasePitchCurve.cpp:26-31 | the tap loop stores the cosine taps and their running sum |
| BasePitch.Normalise | Source/Utils/BasePitchCurve.cpp:33-35 | every tap is divided by the sum |
| BasePitch.TotalMs | Source/Utils/BasePitchCurve.cpp:53-54 | the curve length in ms is the truncated frame duration plus 200 |
| BasePitch.BaseCurve | Source/Utils/BasePitchCurve.cpp:46-49 | empty for no notes or no frames; otherwise one value per frame |
| BasePitch.FillInitValues | Source/Utils/BasePitchCurve.cpp:56-94 | the 1 ms step rendering of the notes |
| BasePitch.InitValues | Source/Utils/BasePitchCurve.cpp:56-94 | one value per millisecond; the search lemmas below fix its values |
| BasePitch.SearchFrom | Source/Utils/BasePitchCurve.cpp:66-81 | the search finds 0 or the pitch of one of the notes it scans |
| BasePitch.InitValue | Source/Utils/BasePitchCurve.cpp:60-93 | a millisecond holds 0 or the pitch of one of the notes |
| BasePitch.Smoothed | Source/Utils/BasePitchCurve.cpp:96-107 | convolution keeps the length of the curve |
| BasePitch.Convolve | Source/Utils/BasePitchCurve.cpp:96-107 | the clamped convolution of the rendering with the kernel |
| BasePitch.ConvolveAt | Source/Utils/BasePitchCurve.cpp:102-106 | one output sample of the convolution |
| BasePitch.ConvSum | Source/Utils/BasePitchCurve.cpp:102-106 | a silent rendering sums to 0 |
| BasePitch.ResampleAt | Source/Utils/BasePitchCurve.cpp:111-123 | a constant smoothed curve resamples to that constant |
| BasePitch.Resample | Source/Utils/BasePitchCurve.cpp:109-123 | each frame is interpolated from the smoothed curve, with the two end cases |
| BasePitch.GenerateForNotes | Source/Utils/BasePitchCurve.cpp:46-126 | the result is `BaseCurve` of the notes |
| BasePitch.GenerateForNote | Source/Utils/BasePitchCurve.cpp:40-44 | the result is the base curve of the single note |
| BasePitch.SearchInsideNote | Source/Utils/BasePitchCurve.cpp:66-72 | for ordered notes, a position inside a note takes that note's pitch |
| BasePitch.SearchInGap | Source/Utils/BasePitchCurve.cpp:73-80 | a position between two notes takes the nearer note's pitch, split at the midpoint |
| BasePitch.SearchOutside | Source/Utils/BasePitchCurve.cpp:60-81 | the search finds nothing before the first note or after the last |
| BasePitch.OutsideTakesOuterNotes | Source/Utils/BasePitchCurve.cpp:83-93 | positions before the first note or after the last take the outer notes' pitches |
| BasePitch.SingleNoteInit | Source/Utils/BasePitchCurve.cpp:56-94 | with one note, every millisecond holds that note's pitch |
| BasePitch.SingleNoteInitFlat | Source/Utils/BasePitchCurve.cpp:56-94 | with one note, every millisecond of a rendering of any length holds that note's pitch |
| BasePitch.SmoothedFlat | Source/Utils/BasePitchCurve.cpp:96-107 | a constant curve convolved with any kernel summing to 1 stays that constant |
| BasePitch.ConvConstant | Source/Utils/BasePitchCurve.cpp:100-107 | convolving a constant curve gives the constant times the partial kernel sum |
| BasePitch.ResampleConstant | Source/Utils/BasePitchCurve.cpp:109-123 | resampling a constant curve gives the constant |
| BasePitch.SingleNoteFlat | Source/Utils/BasePitchCurve.cpp:40-126 | the base curve of one note is flat at that note's pitch |
| BasePitch.CalculateDeltaPitch | Source/Utils/BasePitchCurve.cpp:128-151 | one delta per F0 value |
| BasePitch.ApplyBasePitchChange | Source/Utils/BasePitchCurve.cpp:153-168 | one F0 value per requested frame |
| BasePitch.DeltaZeroCases | Source/Utils/BasePitchCurve.cpp:132-147 | the delta is 0 for unvoiced frames and frames outside the base curve |
| BasePitch.DeltaRoundTrip | Source/Utils/BasePitchCurve.cpp:128-168 | reapplying a voiced frame's delta to its own base pitch restores its F0 |
| BasePitch.ZeroDeltaTakesNewBase | Source/Utils/BasePitchCurve.cpp:157-165 | a zero delta yields the new base's frequency, which is positive |
| PitchDetection.PitchDetector.constructor | Source/Audio/PitchDetector.cpp:5-9 | the window is max(2048, 2·trunc(rate/f0Min)) and is bounded by that formula |
| PitchDetection.PitchDetector.ExtractF0 | Source/Audio/PitchDetector.cpp:11-52 | one F0 and one flag per frame, with F0 equal to `FrameF0`; voiced exactly when F0 is in [50, 1000] and not 0; short frames are unvoiced |
| PitchDetection.PitchDetector.NumFrames | Source/Audio/PitchDetector.cpp:14-19 | the frame count equals `FrameCount` |
| PitchDetection.PitchDetector.AnalyseFrames | Source/Audio/PitchDetector.cpp:21-49 | fresh arrays of per-frame F0 and flags, voiced exactly when F0 is not 0 |
| PitchDetection.PitchDetector.AnalyseFrame | Source/Audio/PitchDetector.cpp:26-48 | one frame's F0 and voiced flag |
| PitchDetection.PitchDetector.YinPitchDetect | Source/Audio/PitchDetector.cpp:54-109 | the result equals `Yin` of the buffer |
| PitchDetection.FrameCount | Source/Audio/PitchDetector.cpp:14-19 | there is always at least one frame |
| PitchDetection.FrameF0 | Source/Audio/PitchDetector.cpp:26-48 | a frame's F0 is 0 or in [f0Min, f0Max]; frames under 512 samples give 0 |
| PitchDetection.InRange | Source/Audio/PitchDetector.cpp:39-48 | a kept pitch is 0 or in [f0Min, f0Max] |
| PitchDetection.FrameStart | Source/Audio/PitchDetector.cpp:25 | a frame starts at a non-negative sample |
| PitchDetection.FrameOf | Source/Audio/PitchDetector.cpp:25-27 | a frame holds min(windowSize, samples left) samples |
| PitchDetection.EmptyInputOneFrame | Source/Audio/PitchDetector.cpp:14-35 | empty input gives exactly one unvoiced frame |
| PitchDetection.Yin | Source/Audio/PitchDetector.cpp:54-109 | the pitch is -1 or positive |
| PitchDetection.PitchAt | Source/Audio/PitchDetector.cpp:99-108 | after the search, the pitch is -1 or positive |
| PitchDetection.TauMin | Source/Audio/PitchDetector.cpp:84 | the shortest lag is non-negative |
| PitchDetection.TauMax | Source/Audio/PitchDetector.cpp:85 | the search bound is below halfSize - 1 |
| PitchDetection.FindTau | Source/Audio/PitchDetector.cpp:87-97 | the search never moves below its start |
| PitchDetection.Descend | Source/Audio/PitchDetector.cpp:92-93 | the descent stays in [tau, tauMax) |
| PitchDetection.DifferenceFunction | Source/Audio/PitchDetector.cpp:61-70 | d[tau] is the sum of squared differences at lag tau |
| PitchDetection.DiffSeq | Source/Audio/PitchDetector.cpp:61-70 | one difference value per lag below halfSize |
| PitchDetection.DPrimeSeq | Source/Audio/PitchDetector.cpp:72-81 | one normalised value per lag |
| PitchDetection.NormalisedDifference | Source/Audio/PitchDetector.cpp:72-81 | dPrime[t] equals `DPrimeAt`, with NaN where 0/0 arises |
| PitchDetection.AbsoluteThreshold | Source/Audio/PitchDetector.cpp:83-97 | the lag found equals `FindTau` |
| PitchDetection.DiffNonNegative | Source/Audio/PitchDetector.cpp:61-70 | the difference function is non-negative and 0 at lag 0 |
| PitchDetection.RunningSumZero | Source/Audio/PitchDetector.cpp:77-81 | a zero running sum means every difference so far is 0 |
| PitchDetection.RunningSumNonNegative | Source/Audio/PitchDetector.cpp:77-81 | the running sum is non-negative |
| PitchDetection.FindTauSpec | Source/Audio/PitchDetector.cpp:87-97 | the search stops before tauMax exactly when some lag in range is below the threshold, and stops at such a lag |
| PitchDetection.DescendSpec | Source/Audio/PitchDetector.cpp:90-94 | descending from a lag below the threshold stays in range and below the threshold |
| PitchDetection.Parabolic | Source/Audio/PitchDetector.cpp:111-126 | the refined lag is the lag itself at the border and otherwise within 1 of the lag; a NaN (from a NaN neighbour or 0/0) arises only at an interior lag |
| PitchDetection.YinNoPitch | Source/Audio/PitchDetector.cpp:56-100 | -1 for buffers under 4 samples, and when no lag in range is below the threshold |
| PitchDetection.YinPitchFound | Source/Audio/PitchDetector.cpp:83-108 | a positive pitch is the rate over a refined lag within 1 of a lag in range below the threshold |
| PitchDetection.DPrimeStartsAtOne | Source/Audio/PitchDetector.cpp:73-74 | the normalised difference is 1 at lag 0 |
| SomeDetection.ResampleTo44k | Source/Audio/SOMEDetector.cpp:70-91 | the output equals `Resampled`, is the input itself at 44.1 kHz, and has the truncated scaled length |
| SomeDetection.Resampled | Source/Audio/SOMEDetector.cpp:70-91 | the truncated scaled length; the input itself at 44.1 kHz; silence stays silence |
| SomeDetection.ResampleAt | Source/Audio/SOMEDetector.cpp:81-88 | silence resamples to 0 |
| SomeDetection.ResampleSample | Source/Audio/SOMEDetector.cpp:81-88 | one output sample of the resampler |
| SomeDetection.ResampleBetweenNeighbours | Source/Audio/SOMEDetector.cpp:79-89 | an interpolated sample lies between its two source neighbours |
| SomeDetection.RmsWindow | Source/Audio/SOMEDetector.cpp:102-105 | the RMS window lies inside the samples and spans at most frameLength |
| SomeDetection.CenterInside | Source/Audio/SOMEDetector.cpp:97-105 | the centre of every RMS frame, plus one hop, lies inside the samples |
| SomeDetection.GetRms | Source/Audio/SOMEDetector.cpp:94-113 | one value per whole hop, equal to `RmsList` |
| SomeDetection.SumOfSquares | Source/Audio/SOMEDetector.cpp:107-109 | the inner loop computes the window's sum of squares |
| SomeDetection.SquareSumNonNegative | Source/Audio/SOMEDetector.cpp:107-109 | a sum of squares is non-negative |
| SomeDetection.SquareSumOfSilence | Source/Audio/SOMEDetector.cpp:107-109 | silence has a zero sum of squares |
| SomeDetection.RmsList | Source/Audio/SOMEDetector.cpp:94-113 | one value per whole hop, every one non-negative |
| SomeDetection.RmsAt | Source/Audio/SOMEDetector.cpp:101-110 | an RMS value is non-negative |
| SomeDetection.RmsOfSilence | Source/Audio/SOMEDetector.cpp:94-113 | silence has RMS 0 everywhere |
| SomeDetection.FirstMin | Source/Audio/SOMEDetector.cpp:134-138 | the first index of the minimum in [begin, end) |
| SomeDetection.ArgMin | Source/Audio/SOMEDetector.cpp:134-138 | the offset is in range, and 0 for an empty or out-of-bounds range |
| SomeDetection.SliceStep | Source/Audio/SOMEDetector.cpp:140-176 | a quiet frame opens or keeps a silence and adds no tag; a loud frame closes any silence; at most one tag is appended, only when a loud frame closes a silence, and the earlier tags are kept |
| SomeDetection.Scan | Source/Audio/SOMEDetector.cpp:140-176 | after n frames there are at most n tags and any open silence started before frame n |
| SomeDetection.FinalTags | Source/Audio/SOMEDetector.cpp:178-183 | the scan's tags, or those plus one trailing tag that ends one past the RMS curve |
| SomeDetection.ChunksOf | Source/Audio/SOMEDetector.cpp:188-198 | one chunk per gap between tags, plus a leading chunk from 0 when the first tag starts later, plus a trailing chunk to the end of the RMS curve when the last tag ends before it |
| SomeDetection.SliceFrame | Source/Audio/SOMEDetector.cpp:141-175 | one loop iteration's state equals `SliceStep` |
| SomeDetection.Between | Source/Audio/SOMEDetector.cpp:192-193 | one chunk between each pair of consecutive silence tags |
| SomeDetection.SliceAudio | Source/Audio/SOMEDetector.cpp:116-199 | the chunks equal `SliceSpec` |
| SomeDetection.ChunksFromTags | Source/Audio/SOMEDetector.cpp:188-198 | the chunks built from the silence tags equal `ChunksOf` |
| SomeDetection.SilenceTags | Source/Audio/SOMEDetector.cpp:129-183 | the tags equal the final tags of the slicer scan |
| SomeDetection.CutPointsOrdered | Source/Audio/SOMEDetector.cpp:168-174 | in a long silence the left cut is never after the right cut |
| SomeDetection.ScanKeepsInvariant | Source/Audio/SOMEDetector.cpp:140-176 | the scan keeps its tags ordered and behind the current frame |
| SomeDetection.ScanStepKeepsInvariant | Source/Audio/SOMEDetector.cpp:140-176 | each iteration of the silence scan preserves its invariant |
| SomeDetection.StepKeepsInvariant | Source/Audio/SOMEDetector.cpp:140-176 | every branch of one scan iteration preserves the invariant |
| SomeDetection.QuietStepKeepsInvariant | Source/Audio/SOMEDetector.cpp:142-161 | a quiet frame, or a loud one outside a silence, preserves the invariant |
| SomeDetection.TagKeepsInvariant | Source/Audio/SOMEDetector.cpp:163-175 | appending a silence tag (leading tags start at 0) preserves the invariant |
| SomeDetection.CutKeepsInvariant | Source/Audio/SOMEDetector.cpp:152-175 | a loud frame that closes a silence with a cut preserves the invariant |
| SomeDetection.ShortCutKeepsInvariant | Source/Audio/SOMEDetector.cpp:162-167 | the single cut of a short silence preserves the invariant |
| SomeDetection.LongCutKeepsInvariant | Source/Audio/SOMEDetector.cpp:168-174 | the two cuts of a long silence preserve the invariant |
| SomeDetection.FinalTagsOrdered | Source/Audio/SOMEDetector.cpp:140-183 | the silence tags are ordered and lie inside the RMS curve plus one |
| SomeDetection.TrailingTagKeepsOrder | Source/Audio/SOMEDetector.cpp:178-183 | the trailing silence tag keeps the tags ordered |
| SomeDetection.BetweenAscending | Source/Audio/SOMEDetector.cpp:192-193 | chunks between ordered tags are ascending |
| SomeDetection.AscendingConcat | Source/Audio/SOMEDetector.cpp:188-198 | ascending chunk lists that meet at their boundary concatenate into an ascending list |
| SomeDetection.ChunksAscending | Source/Audio/SOMEDetector.cpp:188-198 | the chunks are ascending and lie inside [0, rmsSize·441] |
| SomeDetection.ChunksOrdered | Source/Audio/SOMEDetector.cpp:188-198 | the chunks are ascending and do not overlap |
| SomeDetection.ChunksInside | Source/Audio/SOMEDetector.cpp:188-198 | every chunk lies inside [0, rmsSize·441] |
| SomeDetection.SliceSpec | Source/Audio/SOMEDetector.cpp:116-199 | an input of at most 500 hops is one chunk; otherwise the slicer returns the whole input as one chunk, or ascending chunks inside the input |
| SomeDetection.DurationFrames | Source/Audio/SOMEDetector.cpp:319-320 | a token lasts at least one frame |
| SomeDetection.ChainChunk | Source/Audio/SOMEDetector.cpp:314-335 | the events and the end frame equal the token chain's |
| SomeDetection.ChainEnd | Source/Audio/SOMEDetector.cpp:314-335 | the chain advances at least one frame per token |
| SomeDetection.ChainEvents | Source/Audio/SOMEDetector.cpp:314-335 | at most one event per token; no event is a rest, and each is a non-empty span starting at or after the chain start |
| SomeDetection.ChainOrdered | Source/Audio/SOMEDetector.cpp:314-335 | chained events are ordered, lie inside the chunk, and the chain advances at least one frame per token |
| SomeDetection.ChainContiguous | Source/Audio/SOMEDetector.cpp:314-335 | without rests, consecutive events touch and cover the chain from its start to its end |
| SomeDetection.EventsConcat | Source/Audio/SOMEDetector.cpp:284-340 | ordered event lists separated by a frame concatenate into an ordered list |
| SomeDetection.BatchStep | Source/Audio/SOMEDetector.cpp:284-335 | one chunk fails exactly when its inference fails; otherwise the notes so far are kept and only non-rest events follow them |
| SomeDetection.BatchFrom | Source/Audio/SOMEDetector.cpp:284-340 | a success holds no rest; a failure means some chunk's inference failed |
| SomeDetection.StreamStep | Source/Audio/SOMEDetector.cpp:384-440 | the chain end never moves back; the callbacks so far are kept, followed by at most one non-empty batch |
| SomeDetection.StreamFrom | Source/Audio/SOMEDetector.cpp:384-440 | the chain end is non-negative; at most one callback per chunk, none empty |
| SomeDetection.DetectSpec | Source/Audio/SOMEDetector.cpp:251-345 | no detected event is a rest |
| SomeDetection.StreamSpec | Source/Audio/SOMEDetector.cpp:352-444 | at most one callback per chunk of the slicer, none empty |
| SomeDetection.BatchFailureSticks | Source/Audio/SOMEDetector.cpp:296-301 | once a chunk's inference fails, the batch result stays a failure |
| SomeDetection.BatchOrdered | Source/Audio/SOMEDetector.cpp:284-340 | the batch note events are ordered |
| SomeDetection.BatchStepOrdered | Source/Audio/SOMEDetector.cpp:306-335 | one chunk keeps the batch notes ordered |
| SomeDetection.StreamOrdered | Source/Audio/SOMEDetector.cpp:384-440 | streamed batches are non-empty, and their concatenation is ordered and ends by the last end frame |
| SomeDetection.StreamStepOrdered | Source/Audio/SOMEDetector.cpp:384-440 | one streamed chunk preserves that ordering |
| SomeDetection.AppendBatchOrdered | Source/Audio/SOMEDetector.cpp:431-435 | a callback whose batch starts after every earlier note keeps the joined notes ordered and ending by the new chain end |
| SomeDetection.SomeDetector.constructor | Source/Audio/SOMEDetector.cpp:6 | a new detector is not loaded |
| SomeDetection.SomeDetector.LoadModel | Source/Audio/SOMEDetector.cpp:9-68 | loaded and the result are true exactly when the session was created |
| SomeDetection.SomeDetector.DetectNotes | Source/Audio/SOMEDetector.cpp:245-350 | empty when not loaded; otherwise `DetectSpec` |
| SomeDetection.SomeDetector.DetectNotesStreaming | Source/Audio/SOMEDetector.cpp:352-444 | no callbacks when not loaded; otherwise the callbacks of `StreamSpec` |
| SomeDetection.DetectInChunks | Source/Audio/SOMEDetector.cpp:284-340 | the batch loop returns all notes, or nothing after a failed chunk |
| SomeDetection.StreamChunks | Source/Audio/SOMEDetector.cpp:384-440 | the streaming loop's callbacks equal `StreamFrom` |
| SomeDetection.StreamChunk | Source/Audio/SOMEDetector.cpp:386-435 | one chunk of the streaming loop equals `StreamStep` |
| SomeDetection.DetectionOrdered | Source/Audio/SOMEDetector.cpp:245-444 | batch and streamed detections produce ordered note events, and every callback is non-empty |
| NoteSegmentation.VoicedCount | Source/Audio/Analysis/AudioAnalyzer.cpp:211-219 | the voiced count is between 0 and the span length |
| NoteSegmentation.VoicedMidi | Source/Audio/Analysis/AudioAnalyzer.cpp:211-219 | the averaging loop computes the voiced MIDI sum and count |
| NoteSegmentation.VoicedCountPositive | Source/Audio/Analysis/AudioAnalyzer.cpp:211-224 | the count is positive exactly when some frame of the span is voiced |
| NoteSegmentation.SpanNote | Source/Audio/Analysis/AudioAnalyzer.cpp:226-229 | the note has the span, the pitch and the span's F0 slice |
| NoteSegmentation.ClampedSpan | Source/Audio/Analysis/AudioAnalyzer.cpp:204-205 | the clamped span is non-empty and starts at 0 or later, ends inside a non-empty F0, and is the event's own span when that is already inside |
| NoteSegmentation.SomeNote | Source/Audio/Analysis/AudioAnalyzer.cpp:200-230 | a kept event is not a rest; its clamped span is at least 3 frames inside the F0; it carries the F0 slice |
| NoteSegmentation.AddSomeBatch | Source/Audio/Analysis/AudioAnalyzer.cpp:199-231 | one callback appends the notes of its events |
| NoteSegmentation.SomeNotesConcat | Source/Audio/Analysis/AudioAnalyzer.cpp:197-234 | converting batches one by one equals converting their concatenation |
| NoteSegmentation.SegmentWithSome | Source/Audio/Analysis/AudioAnalyzer.cpp:188-240 | the notes gain the converted events of all callbacks in order; then the curves are rebuilt once from the F0, unless it is empty |
| NoteSegmentation.AddSomeBatches | Source/Audio/Analysis/AudioAnalyzer.cpp:197-234 | the callbacks append the converted events of all batches, in callback order |
| NoteSegmentation.SomeNotes | Source/Audio/Analysis/AudioAnalyzer.cpp:199-231 | at most one note per event, each at least 3 frames long and inside the F0 |
| NoteSegmentation.FinalRebuild | Source/Audio/Analysis/AudioAnalyzer.cpp:238-239 | one rebuild from the F0 exactly when it is non-empty, none otherwise |
| NoteSegmentation.SomeNotesWithinF0 | Source/Audio/Analysis/AudioAnalyzer.cpp:204-230 | each note lies inside the F0, is at least 3 frames long, and has the voiced mean MIDI when some frame is voiced |
| NoteSegmentation.SomeNoteKeepsSpanInside | Source/Audio/Analysis/AudioAnalyzer.cpp:204-208 | an event already inside the F0 keeps its span |
| NoteSegmentation.SomeNotesOrdered | Source/Audio/Analysis/AudioAnalyzer.cpp:197-234 | ordered events in range give non-overlapping notes |
| NoteSegmentation.Finalize | Source/Audio/Analysis/AudioAnalyzer.cpp:246-268 | a note is emitted exactly when the span has at least 5 frames and a voiced frame |
| NoteSegmentation.FinalizeNote | Source/Audio/Analysis/AudioAnalyzer.cpp:246-268 | appends `Finalize` of the span |
| NoteSegmentation.FallbackStep | Source/Audio/Analysis/AudioAnalyzer.cpp:282-318 | one frame keeps the note start and the pitch-change start in range |
| NoteSegmentation.FallbackScan | Source/Audio/Analysis/AudioAnalyzer.cpp:281-319 | the scan's pitch-change start stays behind the current frame |
| NoteSegmentation.FallbackFrame | Source/Audio/Analysis/AudioAnalyzer.cpp:282-318 | one loop iteration's state and appended notes equal `FallbackStep` |
| NoteSegmentation.SegmentFallback | Source/Audio/Analysis/AudioAnalyzer.cpp:242-327 | the notes gain `FallbackNotes`; then the curves are rebuilt once from the F0, unless it is empty |
| NoteSegmentation.ScanFallback | Source/Audio/Analysis/AudioAnalyzer.cpp:281-319 | the frame loop appends the notes the scan closes and returns the note still open at the end |
| NoteSegmentation.FinalizeAppends | Source/Audio/Analysis/AudioAnalyzer.cpp:246-268 | finalising after the last note keeps the notes well formed |
| NoteSegmentation.FallbackKeepsInvariant | Source/Audio/Analysis/AudioAnalyzer.cpp:281-319 | the scan keeps its notes well formed and ordered |
| NoteSegmentation.FallbackScanStep | Source/Audio/Analysis/AudioAnalyzer.cpp:281-319 | each iteration of the fallback scan preserves its invariant |
| NoteSegmentation.FallbackStepKeepsInvariant | Source/Audio/Analysis/AudioAnalyzer.cpp:282-318 | every branch of one iteration preserves the invariant |
| NoteSegmentation.PitchStepKeepsInvariant | Source/Audio/Analysis/AudioAnalyzer.cpp:290-305 | the voiced branch of an open note, including a pitch split, preserves the invariant |
| NoteSegmentation.GapStepKeepsInvariant | Source/Audio/Analysis/AudioAnalyzer.cpp:306-317 | the unvoiced branch of an open note preserves the invariant |
| NoteSegmentation.FallbackNotes | Source/Audio/Analysis/AudioAnalyzer.cpp:242-323 | each note is at least 5 frames inside the F0, carries its slice, has a voiced frame, and the notes do not overlap |
| NoteSegmentation.FallbackGapNeverCloses | Source/Audio/Analysis/AudioAnalyzer.cpp:272-317 | with the gap limit at INT_MAX, an unvoiced gap never ends an open note |
| NoteSegmentation.FallbackSilence | Source/Audio/Analysis/AudioAnalyzer.cpp:281-319 | an all-unvoiced input opens no note and emits none |
| NoteSegmentation.FallbackSteadyTone | Source/Audio/Analysis/AudioAnalyzer.cpp:242-323 | a steady voiced tone of at least 5 frames gives exactly one note spanning it |
| NoteSegmentation.FallbackSplit | Source/Audio/Analysis/AudioAnalyzer.cpp:295-306 | three consecutive frames deviating from the held note split it at the run's first frame p: the notes are the spans [0, p) and [p, n), each kept if at least 5 frames long |
| NoteSegmentation.SplitScan | Source/Audio/Analysis/AudioAnalyzer.cpp:297-306 | the third deviating frame emits the span before the run and reopens the note at the run's start with the new pitch |
| NoteSegmentation.FallbackTwoTones | Source/Audio/Analysis/AudioAnalyzer.cpp:295-306 | two held tones more than half a semitone apart give a first note ending where the second tone starts, and exactly two notes when the second lasts 5 frames |
| NoteSegmentation.FallbackNoSplit | Source/Audio/Analysis/AudioAnalyzer.cpp:295-309 | without three consecutive deviating frames the voiced curve is one span from frame 0 to its end |
| NoteSegmentation.NoRunScan | Source/Audio/Analysis/AudioAnalyzer.cpp:295-309 | a non-deviating frame resets the pitch-change count, so it stays the length of the current deviating run, below 3 |
| NoteSegmentation.FallbackBlipIgnored | Source/Audio/Analysis/AudioAnalyzer.cpp:295-309 | a one- or two-frame blip followed by a return to the note's frequency leaves a single note |
| NoteSegmentation.HoldScan | Source/Audio/Analysis/AudioAnalyzer.cpp:291-309 | voiced frames that do not deviate keep the open note's start, pitch and emitted notes |
| NoteSegmentation.SteadyScan | Source/Audio/Analysis/AudioAnalyzer.cpp:284-309 | during a steady tone the note stays open from frame 0 at the tone's MIDI |
| AudioAnalysis.FcpePosition | Source/Audio/Analysis/AudioAnalyzer.cpp:116-121 | the FCPE frame position is non-negative |
| AudioAnalysis.SourceIndex | Source/Audio/Analysis/AudioAnalyzer.cpp:122 | the source index is the truncated position |
| AudioAnalysis.Fraction | Source/Audio/Analysis/AudioAnalyzer.cpp:123 | the fraction is in [0, 1) |
| AudioAnalysis.LogLerp | Source/Audio/Analysis/AudioAnalyzer.cpp:129-134 | log-domain interpolation of positive values is positive and meets each endpoint at fraction 0 and 1 |
| AudioAnalysis.FcpeAt | Source/Audio/Analysis/AudioAnalyzer.cpp:119-146 | an all-unvoiced FCPE track maps to an unvoiced value, an all-voiced one to a voiced value |
| AudioAnalysis.FcpeF0 | Source/Audio/Analysis/AudioAnalyzer.cpp:112-150 | empty when there is no FCPE output or no target frame; otherwise one value per vocoder frame |
| AudioAnalysis.VoicedOf | Source/Audio/Analysis/AudioAnalyzer.cpp:152-156 | the mask is set exactly where F0 is positive |
| AudioAnalysis.Brackets | Source/Audio/Analysis/AudioAnalyzer.cpp:125-146 | the source frames a vocoder frame reads are a non-empty set of valid indices |
| AudioAnalysis.FcpeVoicing | Source/Audio/Analysis/AudioAnalyzer.cpp:125-146 | a mapped frame is voiced exactly when one of its source frames is voiced |
| AudioAnalysis.FcpeBetweenBrackets | Source/Audio/Analysis/AudioAnalyzer.cpp:129-141 | a voiced mapped value lies between voiced source values |
| AudioAnalysis.FcpeOnGrid | Source/Audio/Analysis/AudioAnalyzer.cpp:129-134 | on a shared grid point, the mapped value is the source value |
| AudioAnalysis.YinTrack | Source/Audio/Analysis/AudioAnalyzer.cpp:159-167 | the YIN track has one `FrameF0` per frame |
| AudioAnalysis.Channel0 | Source/Audio/Analysis/AudioAnalyzer.cpp:47-48 | the analysed samples are the first channel of the waveform |
| AudioAnalysis.AudioAnalyzer.constructor | Source/Audio/Analysis/AudioAnalyzer.cpp:12-14 | the YIN detector is created at 44100 Hz with hop 512 |
| AudioAnalysis.AudioAnalyzer.CancelSticks | Source/Audio/Analysis/AudioAnalyzer.cpp:57-73 | once the cancel flag is seen at a check, every later check sees it too |
| AudioAnalysis.AudioAnalyzer.RawF0 | Source/Audio/Analysis/AudioAnalyzer.cpp:61-65 | FCPE output gives one value per mel frame; YIN gives one value per YIN frame |
| AudioAnalysis.AudioAnalyzer.Segmented | Source/Audio/Analysis/AudioAnalyzer.cpp:169-186 | no notes for an empty F0; each note starts at 0 or later, is at least 3 frames long and lies inside the F0 |
| AudioAnalysis.AudioAnalyzer.ExtractF0WithFcpe | Source/Audio/Analysis/AudioAnalyzer.cpp:105-157 | F0 becomes `FcpeF0` and the mask its voicing |
| AudioAnalysis.AudioAnalyzer.ExtractF0WithYin | Source/Audio/Analysis/AudioAnalyzer.cpp:159-167 | F0 becomes the YIN track of channel 0 and the mask its voicing |
| AudioAnalysis.AudioAnalyzer.ExtractRawF0 | Source/Audio/Analysis/AudioAnalyzer.cpp:61-65 | FCPE is used when it is enabled and available, otherwise YIN |
| AudioAnalysis.AudioAnalyzer.SegmentIntoNotes | Source/Audio/Analysis/AudioAnalyzer.cpp:169-186 | no notes for an empty F0; SOME when it is loaded and there is audio; otherwise the fallback; either segmenter rebuilds the curves once from a non-empty F0 |
| AudioAnalysis.AudioAnalyzer.Analyze | Source/Audio/Analysis/AudioAnalyzer.cpp:42-84 | an empty waveform changes nothing; each cancellation point stops with exactly the earlier stages applied and no curve rebuilt; completion (the only case in which `onComplete` is called) runs mel, F0, smoothing and segmentation in order, then rebuilds the curves from the final F0 after the segmenter's own rebuild |
| AudioAnalysis.AudioAnalyzer.FinishAnalysis | Source/Audio/Analysis/AudioAnalyzer.cpp:68-83 | the F0 is smoothed and interpolated; the third cancellation point stops there; otherwise the notes are segmented and the curves rebuilt after the segmenter's rebuild |
| AudioAnalysis.MapFcpe | Source/Audio/Analysis/AudioAnalyzer.cpp:112-147 | the frame loop computes `FcpeF0` |
| AudioAnalysis.FcpeFrame | Source/Audio/Analysis/AudioAnalyzer.cpp:119-146 | one mapped frame equals `FcpeAt` |
| AudioAnalysis.VoicedMask | Source/Audio/Analysis/AudioAnalyzer.cpp:152-156 | the mask loop computes `VoicedOf` |
| AudioAnalysis.YinMaskIsVoicing | Source/Audio/Analysis/AudioAnalyzer.cpp:159-167 | the detector's own mask equals the voicing of its F0 |
| MainComponent.MixToMono | Source/UI/MainComponent.cpp:156-163 | each mono sample is the mean of left and right and lies between them |
| MainComponent.Ratio | Source/UI/MainComponent.cpp:170 | the rate ratio is positive |
| MainComponent.ResampledLength | Source/UI/MainComponent.cpp:171 | the new length never reads past the source |
| MainComponent.SourceIndex | Source/UI/MainComponent.cpp:179-180 | the source index is the truncated position |
| MainComponent.SourceIndexInside | Source/UI/MainComponent.cpp:177-183 | every output sample reads inside the source |
| MainComponent.LinearResampled | Source/UI/MainComponent.cpp:177-192 | the output has the resampled length |
| MainComponent.LinearAt | Source/UI/MainComponent.cpp:177-192 | a constant source resamples to that constant |
| MainComponent.Resample | Source/UI/MainComponent.cpp:167-195 | the loop computes `LinearResampled` |
| MainComponent.LinearBetweenNeighbours | Source/UI/MainComponent.cpp:177-192 | each output lies between its source neighbours, or is the last source sample |
| MainComponent.LoadedSamples | Source/UI/MainComponent.cpp:166-195 | audio at 44.1 kHz is kept as it is; other rates are resampled |
| MainComponent.ResampleAtTargetRate | Source/UI/MainComponent.cpp:167-192 | resampling at 44.1 kHz would be the identity |
| MainComponent.RunNote | Source/UI/MainComponent.cpp:504-519 | a run's note has the span, its F0 slice and the MIDI of its mean F0 |
| MainComponent.RunScan | Source/UI/MainComponent.cpp:483-524 | an open run starts behind the current frame; each note so far spans at least 5 frames before it and carries its F0 slice |
| MainComponent.RunStep | Source/UI/MainComponent.cpp:487-523 | the run is open exactly at voiced frames and starts behind them; a note is appended only when an unvoiced frame ends a run of at least 5 frames, and it is that run's note |
| MainComponent.RunNotes | Source/UI/MainComponent.cpp:467-547 | each note spans at least 5 frames inside the F0 and carries its F0 slice |
| MainComponent.SegmentIntoNotes | Source/UI/MainComponent.cpp:467-547 | the notes become `RunNotes` |
| MainComponent.RunStartUnique | Source/UI/MainComponent.cpp:487-494 | a voiced run has a unique start |
| MainComponent.VoicedStep | Source/UI/MainComponent.cpp:487-500 | a voiced frame preserves the scan invariant |
| MainComponent.CloseStep | Source/UI/MainComponent.cpp:501-523 | a note-ending frame preserves the scan invariant |
| MainComponent.RunStepKeepsInvariant | Source/UI/MainComponent.cpp:483-524 | every frame preserves the scan invariant |
| MainComponent.RunScanKeepsInvariant | Source/UI/MainComponent.cpp:483-524 | the scan invariant holds after every prefix |
| MainComponent.VoicedOpenRun | Source/UI/MainComponent.cpp:487-500 | a voiced frame opens or extends the run, keeping its start |
| MainComponent.CloseLongRun | Source/UI/MainComponent.cpp:501-523 | closing a run of at least 5 frames appends its note and keeps the invariant |
| MainComponent.CloseShortRun | Source/UI/MainComponent.cpp:501-523 | closing a shorter run appends nothing and keeps the invariant |
| MainComponent.AppendRun | Source/UI/MainComponent.cpp:504-519 | appending the note of a long maximal run keeps the notes exactly the long runs so far |
| MainComponent.RunCompleted | Source/UI/MainComponent.cpp:501-523 | a maximal run ending here is covered by the appended note |
| MainComponent.ShortRunSkipped | Source/UI/MainComponent.cpp:506 | a maximal run under 5 frames needs no note |
| MainComponent.NoRunEndsAt | Source/UI/MainComponent.cpp:483-524 | a frame that ends no run leaves the run coverage unchanged |
| MainComponent.NoRunEndsAtClose | Source/UI/MainComponent.cpp:526-546 | with no open run at the end, coverage extends to the end |
| MainComponent.SumExtend | Source/UI/MainComponent.cpp:497-498 | adding a frame to the run adds its F0 to the running sum |
| MainComponent.FinalClose | Source/UI/MainComponent.cpp:526-546 | closing at the end keeps the notes exactly the long runs |
| MainComponent.CloseLongOpenRun | Source/UI/MainComponent.cpp:526-546 | a run of at least 5 frames still open at the end gets its note, and the notes stay exactly the long runs |
| MainComponent.CloseShortOpenRun | Source/UI/MainComponent.cpp:526-546 | a shorter run still open at the end gets no note, and the notes stay exactly the long runs |
| MainComponent.RunNotesAreRuns | Source/UI/MainComponent.cpp:467-547 | the notes are exactly the maximal voiced runs of at least 5 frames, in order |
| PluginProcessing.CaptureLength | Source/Plugin/PluginProcessor.cpp:87-88 | the capture buffer holds rate·300 samples, truncated |
| PluginProcessing.CaptureAdvance | Source/Plugin/PluginProcessor.cpp:134-138 | the position advances by the block; capture continues exactly while below the maximum |
| PluginProcessing.CaptureFillsExactly | Source/Plugin/PluginProcessor.cpp:126-139 | blocks that tile the buffer all fit, and capture stops exactly after the last one |
| PluginProcessing.SamplesToPlay | Source/Plugin/PluginProcessor.cpp:144-145 | at most one block, never past the processed audio, and the whole block when it fits |
| PluginProcessing.IsBusesLayoutSupported | Source/Plugin/PluginProcessor.cpp:102-109 | supported exactly when input equals output and it is mono or stereo |
| PluginProcessing.ClearBuffer | Source/Plugin/PluginProcessor.cpp:90 | every sample of every channel becomes 0 |
| PluginProcessing.Resized | Source/Plugin/PluginProcessor.cpp:201 | the trimmed buffer keeps the channels and the first samples of each |
| PluginProcessing.CopyIntoChannel | Source/Plugin/PluginProcessor.cpp:132 | the block is written into one channel at the position; nothing else changes |
| PluginProcessing.PlayIntoChannel | Source/Plugin/PluginProcessor.cpp:149-152 | one channel gets the processed samples and then silence; the other channels are unchanged |
| PluginProcessing.PitchEditorAudioProcessor.constructor | Source/Plugin/PluginProcessor.h:62-72 | not capturing, empty buffers, positions 0, host rate 44100 |
| PluginProcessing.PitchEditorAudioProcessor.PrepareToPlay | Source/Plugin/PluginProcessor.cpp:76-92 | records the rate and allocates a cleared 2-channel, five-minute capture buffer at position 0 |
| PluginProcessing.PitchEditorAudioProcessor.StartCapture | Source/Plugin/PluginProcessor.cpp:187-194 | clears the capture buffer, resets both positions, drops processed audio and starts capturing |
| PluginProcessing.PitchEditorAudioProcessor.StopCapture | Source/Plugin/PluginProcessor.cpp:196-202 | stops capturing and trims the buffer to the captured length when that is strictly inside it |
| PluginProcessing.PitchEditorAudioProcessor.SetProcessedAudio | Source/Plugin/PluginProcessor.cpp:204-209 | stores a copy of the audio and arms playback from its start |
| PluginProcessing.PitchEditorAudioProcessor.CaptureBlock | Source/Plugin/PluginProcessor.cpp:126-139 | a fitting block is copied channel by channel at the capture position, and the position advances |
| PluginProcessing.PitchEditorAudioProcessor.PlaybackBlock | Source/Plugin/PluginProcessor.cpp:141-156 | the next processed samples, then silence, replace the block, and the position advances by the whole block |
| PluginProcessing.PitchEditorAudioProcessor.ProcessBlock | Source/Plugin/PluginProcessor.cpp:112-158 | the input is captured, then replaced by processed audio when some is left; otherwise it passes through |
| Playback.BlockSamples | Source/Audio/AudioEngine.cpp:86-98 | a block carries up to n samples from the position, fewer at the end |
| Playback.ChannelBlock | Source/Audio/AudioEngine.cpp:93-106 | past the samples or the block a sample is silent; any non-silent sample is the source sample |
| Playback.SeekTarget | Source/Audio/AudioEngine.cpp:159-164 | a seek lands inside the waveform |
| Playback.SeekRoundTrip | Source/Audio/AudioEngine.cpp:159-169 | seeking and reading the position back gives the time less than one sample early |
| Playback.BlocksAreSeamless | Source/Audio/AudioEngine.cpp:86-108 | two consecutive blocks equal one block of their combined length |
| Playback.WriteBlock | Source/Audio/AudioEngine.cpp:92-106 | every channel gets the samples then silence, and nothing outside the block changes |
| Playback.AudioEngine.constructor | Source/Audio/AudioEngine.h:56-65 | no waveform, rate 44100, position 0, not playing |
| Playback.AudioEngine.PrepareToPlay | Source/Audio/AudioEngine.cpp:44-47 | records the device rate |
| Playback.AudioEngine.LoadWaveform | Source/Audio/AudioEngine.cpp:125-134 | stops, replaces the waveform and rate, and rewinds |
| Playback.AudioEngine.Play | Source/Audio/AudioEngine.cpp:136-146 | starts playing unless nothing is loaded |
| Playback.AudioEngine.Pause | Source/Audio/AudioEngine.cpp:148-151 | stops playing where it is |
| Playback.AudioEngine.Stop | Source/Audio/AudioEngine.cpp:153-157 | stops playing and rewinds |
| Playback.AudioEngine.Seek | Source/Audio/AudioEngine.cpp:159-164 | the position becomes the clamped, truncated sample index |
| Playback.AudioEngine.GetPosition | Source/Audio/AudioEngine.cpp:166-169 | the position in seconds is non-negative |
| Playback.AudioEngine.GetDuration | Source/Audio/AudioEngine.cpp:171-176 | 0 with nothing loaded, and never less than the position |
| Playback.AudioEngine.GetNextAudioBlock | Source/Audio/AudioEngine.cpp:53-119 | silence when paused or empty; at the end, silence, a stop and a finish notice; otherwise the next samples, silence after them, and the position advanced |
| Playback.PlaybackAdvances | Source/Audio/AudioEngine.cpp:86-108 | while playing, the position moves forward and reaches the end once a block covers the rest |
| IncrementalSynthesis.PaddedRange | Source/Audio/Synthesis/IncrementalSynthesizer.cpp:44-47 | the dirty range padded by 30 frames each side and clamped to the spectrogram |
| IncrementalSynthesis.MelRange | Source/Audio/Synthesis/IncrementalSynthesizer.cpp:49-52 | the mel frames of the range, and none for an inverted range |
| IncrementalSynthesis.IncrementalSynthesizer.Proceeds | Source/Audio/Synthesis/IncrementalSynthesizer.cpp:16-60 | a request goes ahead only with a project and a dirty range, and its padded range is non-empty and inside the spectrogram |
| IncrementalSynthesis.PaddedRangeCoversDirty | Source/Audio/Synthesis/IncrementalSynthesizer.cpp:44-47 | every dirty frame on the spectrogram lies inside the padded range |
| IncrementalSynthesis.CrossfadeLength | Source/Audio/Synthesis/IncrementalSynthesizer.cpp:127-128 | the crossfade is half the padding in samples, capped at a quarter of the output |
| IncrementalSynthesis.Extent | Source/Audio/Synthesis/IncrementalSynthesizer.cpp:118 | the splice never runs past the track or the output |
| IncrementalSynthesis.Accepts | Source/Audio/Synthesis/IncrementalSynthesizer.cpp:91-124 | an accepted output is non-empty, starts inside the track, splices a non-empty extent and is within two hops of the requested length |
| IncrementalSynthesis.Factor | Source/Audio/Synthesis/IncrementalSynthesizer.cpp:134-141 | the blend factor is in [0, 1], below 1 in the head ramp, and 1 without a crossfade |
| IncrementalSynthesis.Blend | Source/Audio/Synthesis/IncrementalSynthesizer.cpp:145-149 | a blended sample lies between the old and the new sample; factor 0 keeps the old sample and factor 1 takes the new one |
| IncrementalSynthesis.Spliced | Source/Audio/Synthesis/IncrementalSynthesizer.cpp:130-151 | samples outside the splice keep their values; inside, each lies between the old sample and the synthesised one; with a crossfade both edges of the splice keep the old samples |
| IncrementalSynthesis.ApplyCrossfade | Source/Audio/Synthesis/IncrementalSynthesizer.cpp:161-188 | every channel receives the crossfaded splice and nothing else changes |
| IncrementalSynthesis.WriteColumn | Source/Audio/Synthesis/IncrementalSynthesizer.cpp:143-150 | one sample index is blended in every channel |
| IncrementalSynthesis.CancelFlag.constructor | Source/Audio/Synthesis/IncrementalSynthesizer.cpp:67 | a new job's flag is not raised |
| IncrementalSynthesis.IncrementalSynthesizer.constructor | Source/Audio/Synthesis/IncrementalSynthesizer.h:47-48 | job id 0, not busy, no flag |
| IncrementalSynthesis.Vocoder.constructor | Source/Audio/Synthesis/IncrementalSynthesizer.cpp:73-75 | the vocoder keeps its hop size and load state |
| IncrementalSynthesis.IncrementalSynthesizer.Cancel | Source/Audio/Synthesis/IncrementalSynthesizer.cpp:9-12 | raises the current job's flag when there is one |
| IncrementalSynthesis.IncrementalSynthesizer.SynthesizeDirtyRegion | Source/Audio/Synthesis/IncrementalSynthesizer.cpp:14-85 | submits a job exactly when every request check passes; a refusal changes nothing; a submission raises the old flag, installs a fresh one, bumps the job id and captures the padded mel and F0 ranges |
| IncrementalSynthesis.IncrementalSynthesizer.OnInferenceComplete | Source/Audio/Synthesis/IncrementalSynthesizer.cpp:87-158 | succeeds exactly when none of the rejection tests applies; a rejection leaves the project alone; success splices the output and clears every dirty flag, and leaves the F0, mask, spectrogram, offset and rebuild record unchanged |
| IncrementalSynthesis.StaleCompletionNeverWrites | Source/Audio/Synthesis/IncrementalSynthesizer.cpp:64-95 | after a newer submission, an older job's completion fails and writes nothing |

## Left out

- Device I/O, the message thread, `callAsync` and the position callbacks, atomics, threads, `analyzeAsync`, `juce::Thread::sleep` and progress reporting are not modelled. `GetNextAudioBlock` returns whether it would post the finish notification.
- The inference engines are function parameters, not models: the mel spectrogram, FCPE, SOME's `inferChunk` and the vocoder.
- `F0Smoother::smoothF0`, `PitchCurveProcessor::interpolateWithUvMask` and `Project::getAdjustedF0ForRange` are function parameters too. Their source files are not part of this model.
- `PitchCurveProcessor::rebuildCurvesFromSource` is recorded as a call with its F0 argument (`Project.curveRebuilds`), so the order and number of rebuilds are modelled; the base and delta curves it computes are not, because its source file is not part of this model.
- ARA mode, `getStateInformation`/`setStateInformation` (XML), `releaseResources` and the editor are not part of this model.
- Floats are reals, so rounding error is not modelled. `std::log2`, `std::pow`, `std::log`, `std::exp`, `std::cos` and `std::sqrt` are known only through the facts in `RealMath.Laws` and `RealMath.MonotoneLaws`.
- Integers are unbounded, so 32-bit `int` overflow, for example in `sampleRate * 300` or in a long capture position, is not modelled.
- The YIN threshold `0.1f` is taken as exactly 0.1.
- SOMEDetector.h is not part of this model. Its `SAMPLE_RATE` (44100) and `HOP_SIZE` (512) are taken from their use: resampling to 44.1 kHz, and indexing the F0 grid at hop 512.
- Project.h and Note.h are not part of this model. The dirty-tracking members of `Project` (`hasDirtyNotes`, `hasF0DirtyRange`, `getDirtyFrameRange`, `clearAllDirty`, `markDirty`) are defined from their use in IncrementalSynthesizer.cpp. The other setters and getters are record updates.
- `detectNotesStreaming`'s note callback is modelled as the sequence of batches it would receive. `AudioAnalyzer.cancelFlag` is modelled by the check index (`cancelAt`) at which it is first seen set.
- The analyzer and the playback engine read channel 0 only, as the code does. The engine keeps only that channel.
- `Playback.AudioEngine.LoadWaveform` requires a positive rate, and `PluginProcessing.PitchEditorAudioProcessor.PrepareToPlay` a positive host rate: the code divides by, or sizes buffers from, these rates without checking them.
- `MainComponent.SegmentIntoNotes` requires a voiced mask at least as long as the F0: the code indexes the mask without a bounds check.
- `SomeDetection.GetRms` requires a positive frame length and hop. The code calls it only with 1764 and 441.
- `Projects.Project.GetAdjustedF0` requires non-negative note starts: the code writes `frameRatios[i]` from the note start without a lower bound. Both segmenters produce only such notes.
- `PitchDetection.PitchDetector.ExtractF0` assumes the detector's sample rate and hop are positive: `PitchDetector`'s constructor requires them.
- `IncrementalSynthesis.IncrementalSynthesizer.SynthesizeDirtyRegion` models the completion handler as a separate call taking the captured job. Interleavings with other threads are not modelled.
- `SomeDetection.SomeDetector.DetectNotes`, `SomeDetection.SomeDetector.DetectNotesStreaming` and `SomeDetection.ResampleTo44k` require a positive sample rate: the code divides by it without a check, and every caller passes 44100.
- `IncrementalSynthesis.IncrementalSynthesizer.SynthesizeDirtyRegion` requires non-negative note starts, as `GetAdjustedF0` does: both segmenters produce only such notes.
- `IncrementalSynthesis.MelRange` and `IncrementalSynthesis.IncrementalSynthesizer.Proceeds` treat an inverted padded range (the dirty start more than 30 frames past the end of the mel spectrogram) as an empty range, so the request is rejected like any empty one. In IncrementalSynthesizer.cpp:50-52 the vector is then built from an iterator pair whose first lies after its last, which is undefined behaviour; the model does not reproduce any particular outcome of it.
- `MainComponent.Ratio`, `MainComponent.ResampledLength`, `MainComponent.SourceIndex`, `MainComponent.LinearAt`, `MainComponent.LinearResampled`, `MainComponent.Resample` and `MainComponent.LoadedSamples` require a positive sample rate. MainComponent.cpp:141 truncates the file's rate to an `int`, and :170-171 divide by it without a check. A rate that truncates to 0 makes that division produce infinity, and converting infinity to `int` is undefined behaviour, so the model does not cover that case.
