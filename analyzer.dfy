/**
 * The per-call pipeline of `AudioParser.processAudio`
 * (Sources/PunchyAudio/AudioParser.swift) and the two fields it carries from
 * one call to the next. The Accelerate transform (FFT, squared magnitudes,
 * square root) is the `transform` the analyzer is built with; `pow(_, 0.35)`
 * is its `curve`. What `processAudio` hands to the main queue is returned.
 */
module AudioParser {

  import opened Options
  import opened Spectrum

  /**
   * What the model knows of the magnitude spectrum of a mono frame: one
   * non-negative value per bin, `frameLength / 2` of them.
   */
  ghost predicate SpectrumLaw(transform: seq<real> -> seq<real>)
  {
    forall frame :: |transform(frame)| == |frame| / 2 && NonNegative(transform(frame))
  }

  /**
   * The bucketizer loop: for each of the 30 candidate bars whose first bin
   * is inside the spectrum, append the maximum of its bins.
   */
  method BucketizeBins(sqrtMags: seq<real>, frameLength: nat) returns (rawBars: seq<real>)
    ensures rawBars == Bars(sqrtMags, ChunkSize(frameLength))
  {
    var chunkSize := ChunkSize(frameLength);
    ghost var bars := Bars(sqrtMags, chunkSize);
    rawBars := [];
    for i := 0 to BarCount
      invariant |rawBars| == Min(i, |bars|)
      invariant forall j :: 0 <= j < |rawBars| ==> rawBars[j] == bars[j]
    {
      var start := i * chunkSize;
      var end := Min(start + chunkSize, |sqrtMags|);
      if start < |sqrtMags| {
        rawBars := rawBars + [MaxOrZero(sqrtMags[start..end])];
      }
    }
  }

  /**
   * The smoothing loop: when the previous vector has the same length, each
   * entry is overwritten with `0.6 * new + 0.4 * previous`.
   */
  method SmoothBars(newMagnitudes: seq<real>, previous: seq<real>) returns (out: seq<real>)
    ensures out == Smoothed(newMagnitudes, previous)
  {
    out := newMagnitudes;
    if |previous| == |out| {
      for i := 0 to |out|
        invariant |out| == |newMagnitudes|
        invariant forall j :: 0 <= j < i ==> out[j] == newMagnitudes[j] * NewWeight + previous[j] * OldWeight
        invariant forall j :: i <= j < |out| ==> out[j] == newMagnitudes[j]
      {
        out := out[i := out[i] * NewWeight + previous[i] * OldWeight];
      }
    }
  }

  /** The analyzer: a running peak and the last published bar vector. */
  class Analyzer {
    /** The running peak used as the normalisation denominator. */
    var maxMagnitude: real
    /** The bars published by the last processed call. */
    var previousMagnitudes: seq<real>
    /** Stands for `pow(_, 0.35)`. */
    const curve: real -> real
    /** Stands for the FFT of a mono frame followed by per-bin magnitudes. */
    const transform: seq<real> -> seq<real>

    /**
     * The running peak never drops below the floor, so the normaliser never
     * divides by zero; the baseline holds at most 30 values in [0, 1].
     */
    ghost predicate Valid()
      reads this
    {
      && PeakFloor <= maxMagnitude
      && |previousMagnitudes| <= BarCount
      && InUnit(previousMagnitudes)
      && CurveLaw(curve)
      && SpectrumLaw(transform)
    }

    constructor (curve: real -> real, transform: seq<real> -> seq<real>)
      requires CurveLaw(curve) && SpectrumLaw(transform)
      ensures Valid()
      ensures maxMagnitude == InitialPeak && previousMagnitudes == []
      ensures this.curve == curve && this.transform == transform
    {
      maxMagnitude := InitialPeak;
      previousMagnitudes := [];
      this.curve := curve;
      this.transform := transform;
    }

    /**
     * One capture callback. `samples` are the interleaved stereo floats of
     * the buffer, so it holds `|samples| / 2` frames. With no frame to use the
     * call publishes nothing and changes nothing; otherwise the peak is
     * tracked, the bars are normalised and smoothed, and the published vector
     * becomes the new baseline.
     */
    method Process(samples: seq<real>) returns (published: Option<seq<real>>)
      requires Valid()
      modifies this
      ensures Valid()
      ensures FrameLength(|samples| / 2) == 0 ==>
                && published == None
                && maxMagnitude == old(maxMagnitude)
                && previousMagnitudes == old(previousMagnitudes)
      ensures FrameLength(|samples| / 2) > 0 ==>
                var frameLength := FrameLength(|samples| / 2);
                var bars := Bars(transform(Downmix(samples, frameLength)), ChunkSize(frameLength));
                && maxMagnitude == NextPeak(old(maxMagnitude), MaxOrZero(bars))
                && published == Some(Smoothed(Normalize(bars, maxMagnitude, curve), old(previousMagnitudes)))
                && |published.value| == Min(BarCount, frameLength / 2)
                && previousMagnitudes == published.value
      ensures published.Some? ==> InUnit(published.value)
    {
      var sampleCount := |samples| / 2;
      var frameLength := FrameLength(sampleCount);
      if frameLength == 0 {
        return None;
      }

      var mono := Downmix(samples, frameLength);
      var sqrtMags := transform(mono);
      assert |sqrtMags| == frameLength / 2 && NonNegative(sqrtMags);

      var rawBars := BucketizeBins(sqrtMags, frameLength);
      BarCountOfFrame(sqrtMags, frameLength);
      BarsNonNegative(sqrtMags, ChunkSize(frameLength));

      maxMagnitude := NextPeak(maxMagnitude, MaxOrZero(rawBars));

      var newMagnitudes := Normalize(rawBars, maxMagnitude, curve);
      NormalizeInUnit(rawBars, maxMagnitude, curve);

      newMagnitudes := SmoothBars(newMagnitudes, previousMagnitudes);
      SmoothedInUnit(Normalize(rawBars, maxMagnitude, curve), previousMagnitudes);

      previousMagnitudes := newMagnitudes;
      published := Some(newMagnitudes);
    }
  }
}
