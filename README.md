# PunchyAudio bar-spectrum pipeline in Dafny

This project models the spectrum pipeline of PunchyAudio's `AudioParser`
(Sources/PunchyAudio/AudioParser.swift). PunchyAudio is a macOS menu-bar
visualiser. On each system-audio callback, `processAudio` does these steps:

- takes up to 1024 interleaved stereo frames and downmixes them to mono;
- computes a magnitude spectrum;
- max-pools the `frameLength / 2` bins into at most 30 bars;
- tracks a decaying running peak (`maxMagnitude`);
- normalises each bar as `min(pow(bar / peak, 0.35), 1)`;
- blends the result 0.6/0.4 with the previously published bars
  (`previousMagnitudes`), when the two vectors have the same length;
- publishes the blended vector and keeps it as the next baseline.

Layout:

- `options.dfy`: module `Options`, the optional value a call publishes.
- `spectrum.dfy`: module `Spectrum`, the pure stages as functions, with lemmas
  stating their properties. These are the frame length, the downmix, the
  bucketizer, the peak tracker, the normaliser and the smoother.
- `analyzer.dfy`: module `AudioParser`. It holds class `Analyzer`, whose two
  fields carry state from one call to the next, and its `Process` method (one
  callback). It also holds the two loops of `processAudio`: the bucketizer's
  append loop and the in-place smoothing loop. Each loop is a method proved
  equal to the pure stage it implements.

Modelling choices:

- Swift `Float` is idealised as `real`. The constants 0.001, 0.0001, 0.998,
  0.6 and 0.4 are exact.
- `pow(_, 0.35)` is the analyzer's `curve`. The model knows only three facts
  about it (`CurveLaw`): it maps 0 to 0, it is non-negative on non-negative
  arguments, and it is monotone.
- The Accelerate transform (`vDSP_fft_zip`, `vDSP_zvmags`, `vvsqrtf`) is the
  analyzer's `transform`. The model knows only two facts about it
  (`SpectrumLaw`): for a frame of length n it returns n / 2 values, and those
  values are non-negative.
- The capture buffer is the sequence of its interleaved floats. So
  `sampleCount` is `|samples| / 2`, as at line 98.
- The vector sent to the main queue is `Process`'s return value. `None` means
  the call returned early.

Three behaviours of the code worth noting:

- `frameLength` is `min(sampleCount, 1024)`. It is not necessarily a power of
  two.
- A call can publish fewer than 30 bars: `min(30, frameLength / 2)`, proved in
  `BarCountOfFrame`.
- `previousMagnitudes` can hold any number of bars from 0 to 30, not only
  0 or 30.

## Model

| member | source | states |
|---|---|---|
| `AudioParser.Analyzer.constructor` | Sources/PunchyAudio/AudioParser.swift:8-9 | the running peak starts at 0.001 and the baseline is empty; the object invariant (peak at least 0.0001, baseline of at most 30 values in [0, 1]) holds from the start |
| `AudioParser.Analyzer.Process` | Sources/PunchyAudio/AudioParser.swift:98-165 | with no usable frame, nothing is published and neither field changes; otherwise the new peak is the tracker applied to the loudest bar, the published vector is the smoothed normalisation of the bars of the downmixed frame's spectrum, it has `min(30, frameLength / 2)` entries, all in [0, 1], and it becomes the new baseline; the invariant is preserved |
| `AudioParser.BucketizeBins` | Sources/PunchyAudio/AudioParser.swift:131-141 | the append loop over the 30 candidate bars yields exactly the bucketized spectrum `Bars` |
| `AudioParser.SmoothBars` | Sources/PunchyAudio/AudioParser.swift:156-160 | the in-place blending loop yields exactly the smoothed vector `Smoothed` |
| `Spectrum.FrameLength` | Sources/PunchyAudio/AudioParser.swift:98-100 | the frame length is the sample count up to 1024 and exactly 1024 from there on, and is 0 exactly when the buffer holds no frame |
| `Spectrum.Downmix` | Sources/PunchyAudio/AudioParser.swift:104-108 | the mono frame has `frameLength` samples, each lying between its left and right input samples |
| `Spectrum.DownmixInterleaved` | Sources/PunchyAudio/AudioParser.swift:104-108 | for a buffer built by interleaving a left and a right channel, mono sample `i` is `(left[i] + right[i]) / 2` |
| `Spectrum.DownmixDualMono` | Sources/PunchyAudio/AudioParser.swift:104-108 | a signal present identically on both channels passes through the downmix unchanged |
| `Spectrum.InterleaveAt` | Sources/PunchyAudio/AudioParser.swift:105-106 | in the interleaved layout the left sample of frame `i` is at `2*i` and the right at `2*i+1` |
| `Spectrum.MaxOrZero` | Sources/PunchyAudio/AudioParser.swift:139 | `max() ?? 0`: 0 on an empty sequence, otherwise an element that is at least every element |
| `Spectrum.ChunkSize` | Sources/PunchyAudio/AudioParser.swift:132 | the chunk is at least 1 bin; with at least 30 bins, 30 chunks fit in the bins and leave fewer than 30 over; below 60 bins the chunk is 1 |
| `Spectrum.BarPresence` | Sources/PunchyAudio/AudioParser.swift:135-138 | candidate bar `i < 30` is produced exactly when its first bin `i * chunkSize` is inside the spectrum |
| `Spectrum.Bars` | Sources/PunchyAudio/AudioParser.swift:131-141 | at most 30 bars; bar `i` exists exactly when `i * chunkSize` is below the bin count, so the bars form a prefix and once one is omitted all later ones are |
| `Spectrum.BarsMaxPool` | Sources/PunchyAudio/AudioParser.swift:136-139 | each bar's bin range `[i*chunk, min(i*chunk+chunk, count))` is non-empty, and the bar is at least every bin in it and equal to one of them |
| `Spectrum.BarCountOfFrame` | Sources/PunchyAudio/AudioParser.swift:114-141 | a spectrum of `frameLength / 2` bins yields `min(30, frameLength / 2)` bars (one bar for frame length 2 or 3; none for a buffer of exactly one frame, which still publishes an empty vector, decays the peak and resets the baseline to empty, unlike the zero-frame early return) |
| `Spectrum.BarsIgnoreTail` | Sources/PunchyAudio/AudioParser.swift:131-141 | fewer than 30 of the highest bins lie beyond bar 29, and the bars do not depend on them |
| `Spectrum.SmallFrameBarsAreBins` | Sources/PunchyAudio/AudioParser.swift:132-140 | below 60 bins every bar is a single bin: the bars are the first `min(30, bins)` bins |
| `Spectrum.BarsNonNegative` | Sources/PunchyAudio/AudioParser.swift:125-139 | non-negative magnitudes give non-negative bars |
| `Spectrum.NextPeak` | Sources/PunchyAudio/AudioParser.swift:143-149 | the new peak is at least 0.0001; when the frame's peak beats the old one, the new peak is at least the frame's peak (equal to it above the floor); otherwise it is `max(old * 0.998, 0.0001)`, never above the old peak and never below `old * 0.998` |
| `Spectrum.SilentPeakDecays` | Sources/PunchyAudio/AudioParser.swift:143-149 | after `k` silent frames the peak is `max(peak * 0.998^k, 0.0001)` |
| `Spectrum.Decayed` | Sources/PunchyAudio/AudioParser.swift:147 | repeated decay keeps a positive peak positive, never raises it, and strictly lowers it after at least one step |
| `Spectrum.Normalize` | Sources/PunchyAudio/AudioParser.swift:151-154 | normalisation keeps the number of bars and never yields a value above 1 |
| `Spectrum.NormalizeInUnit` | Sources/PunchyAudio/AudioParser.swift:151-154 | for non-negative bars and a positive peak every level lies in [0, 1], and a zero bar maps to 0 |
| `Spectrum.NormalizeMonotone` | Sources/PunchyAudio/AudioParser.swift:151-154 | a louder bar is never shown lower than a quieter one |
| `Spectrum.DecayCanOvershoot` | Sources/PunchyAudio/AudioParser.swift:144-153 | after a decay step, a bar that did not beat the old peak can exceed the new peak, so `bar / maxMagnitude > 1` and the clamp to 1 is needed |
| `Spectrum.Smoothed` | Sources/PunchyAudio/AudioParser.swift:156-160 | the length is kept; a vector whose length differs from the previous one's (in particular the first frame) passes through unchanged |
| `Spectrum.SmoothedBetween` | Sources/PunchyAudio/AudioParser.swift:156-158 | with equal lengths each smoothed entry lies between the new and the previous entry |
| `Spectrum.SmoothedInUnit` | Sources/PunchyAudio/AudioParser.swift:156-161 | smoothing two vectors of values in [0, 1] yields values in [0, 1], whether it blends or passes through |
| `Spectrum.SilentFrameFades` | Sources/PunchyAudio/AudioParser.swift:136-161 | a silent spectrum gives a current peak of 0, so the running peak decays, and the published vector is 0.4 times the previous one: it fades instead of dropping to zero |

## Left out

- ScreenCaptureKit setup, the permission prompt, `isCapturing` and the stream
  delegate callbacks (lines 14-81) are OS capture I/O and asynchronous tasks.
  The constructor does not start a capture.
- The early returns when the sample buffer has no block buffer or its data
  pointer cannot be read (lines 84-96) are not modelled. Those are foreign
  memory accesses; the model receives the floats as a sequence.
- The early return when `vDSP_create_fftsetup` fails (line 112) is not
  modelled. It depends on allocation, not on the input.
- The transform itself (lines 110-129) is not modelled. It is foreign
  Accelerate code. This includes the `log2` truncation at line 111, which for
  a frame length that is not a power of two sets up a shorter transform than
  the buffers. The model only assumes the length and non-negativity of the
  magnitudes.
- IEEE `Float` rounding, NaN and infinity are not modelled, and neither is
  the actual value of `pow(_, 0.35)`. Both are idealised as described above.
- The hand-off of the vector to the main queue and the `@Published
  magnitudes` property (lines 11, 163-165) are a thread hand-off. They are
  modelled as the return value.
- The model assumes callbacks are delivered one at a time. The audio output
  is registered on a concurrent global queue (line 48) and the class is
  marked `@unchecked Sendable` (line 6), so two `processAudio` calls could
  overlap; such overlapping calls racing on `maxMagnitude` and
  `previousMagnitudes` are not modelled.
- The SwiftUI and AppKit views and the app wiring are presentation code
  (FullScreenVisualizerView.swift, PopoverContentView.swift,
  PunchyAudioApp.swift, MenuBarVisualizerView.swift, VisualizerView.swift),
  and Package.swift is build configuration.
