/**
 * The pure stages of the bar-spectrum pipeline in `AudioParser.processAudio`
 * (Sources/PunchyAudio/AudioParser.swift): stereo downmix, the max-pooling
 * bucketizer, the running-peak tracker, the power-law normaliser and the
 * temporal smoother. Swift's `Float` is idealised as `real`; `pow(_, 0.35)`
 * is an arbitrary curve of which only `CurveLaw` is known.
 */
module Spectrum {

  /** Frames per channel processed per call at most. */
  const MaxFrameLength: nat := 1024
  /** Number of bars published when enough bins are available. */
  const BarCount: nat := 30
  /** Running peak before the first call. */
  const InitialPeak: real := 0.001
  /** The running peak is never allowed below this. */
  const PeakFloor: real := 0.0001
  /** Per-call multiplicative decay of the running peak. */
  const PeakDecay: real := 0.998
  /** Weight of the new vector in the smoothing blend. */
  const NewWeight: real := 0.6
  /** Weight of the previous vector in the smoothing blend. */
  const OldWeight: real := 0.4

  function Min(a: int, b: int): int { if a < b then a else b }
  function Max(a: int, b: int): int { if a < b then b else a }
  function RealMin(a: real, b: real): real { if a < b then a else b }
  function RealMax(a: real, b: real): real { if a < b then b else a }

  predicate NonNegative(s: seq<real>) { forall k :: 0 <= k < |s| ==> 0.0 <= s[k] }
  predicate InUnit(s: seq<real>) { forall k :: 0 <= k < |s| ==> 0.0 <= s[k] <= 1.0 }
  predicate AllZero(s: seq<real>) { forall k :: 0 <= k < |s| ==> s[k] == 0.0 }

  /**
   * What the model knows of `pow(_, 0.35)` on non-negative arguments:
   * it maps 0 to 0, is non-negative and is monotone.
   */
  ghost predicate CurveLaw(curve: real -> real)
  {
    && curve(0.0) == 0.0
    && (forall x :: 0.0 <= x ==> 0.0 <= curve(x))
    && (forall x, y :: 0.0 <= x <= y ==> curve(x) <= curve(y))
  }

  /** `s.max() ?? 0`: the largest element of `s`, or 0 when `s` is empty. */
  function MaxOrZero(s: seq<real>): (m: real)
    ensures s == [] ==> m == 0.0
    ensures forall k :: 0 <= k < |s| ==> s[k] <= m
    ensures s != [] ==> exists k :: 0 <= k < |s| && s[k] == m
    decreases |s|
  {
    if |s| == 0 then 0.0
    else if |s| == 1 then s[0]
    else
      var rest := MaxOrZero(s[1..]);
      assert forall k :: 1 <= k < |s| ==> s[k] == s[1..][k - 1];
      RealMax(s[0], rest)
  }

  // ---------------------------------------------------------------------
  // Frame length and stereo downmix
  // ---------------------------------------------------------------------

  /** Frames handled per call: `min(sampleCount, 1024)`. */
  function FrameLength(sampleCount: nat): (n: nat)
    ensures n <= MaxFrameLength && n <= sampleCount
    ensures n == 0 <==> sampleCount == 0
    ensures sampleCount <= MaxFrameLength ==> n == sampleCount
    ensures MaxFrameLength <= sampleCount ==> n == MaxFrameLength
  {
    Min(sampleCount, MaxFrameLength)
  }

  /**
   * The mono frame: sample `i` is the mean of the interleaved left sample
   * `samples[2*i]` and right sample `samples[2*i+1]` (an add of the two
   * strided channels followed by a division by 2).
   */
  function Downmix(samples: seq<real>, frameLength: nat): (mono: seq<real>)
    requires 2 * frameLength <= |samples|
    ensures |mono| == frameLength
    ensures forall i :: 0 <= i < frameLength ==>
              RealMin(samples[2 * i], samples[2 * i + 1]) <= mono[i] <= RealMax(samples[2 * i], samples[2 * i + 1])
  {
    seq(frameLength, i requires 0 <= i < frameLength => (samples[2 * i] + samples[2 * i + 1]) / 2.0)
  }

  /** A stereo buffer in the capture format: left and right samples alternate. */
  function Interleave(left: seq<real>, right: seq<real>): (s: seq<real>)
    requires |left| == |right|
    ensures |s| == 2 * |left|
    decreases |left|
  {
    if left == [] then [] else [left[0], right[0]] + Interleave(left[1..], right[1..])
  }

  lemma {:induction false} InterleaveAt(left: seq<real>, right: seq<real>, i: nat)
    requires |left| == |right| && i < |left|
    ensures Interleave(left, right)[2 * i] == left[i]
    ensures Interleave(left, right)[2 * i + 1] == right[i]
    decreases i
  {
    if i > 0 {
      InterleaveAt(left[1..], right[1..], i - 1);
    }
  }

  /** Downmixing an interleaved buffer averages the two channels frame by frame. */
  lemma DownmixInterleaved(left: seq<real>, right: seq<real>, frameLength: nat)
    requires |left| == |right| && frameLength <= |left|
    ensures 2 * frameLength <= |Interleave(left, right)|
    ensures forall i :: 0 <= i < frameLength ==>
              Downmix(Interleave(left, right), frameLength)[i] == (left[i] + right[i]) / 2.0
  {
    forall i | 0 <= i < frameLength
      ensures Downmix(Interleave(left, right), frameLength)[i] == (left[i] + right[i]) / 2.0
    {
      InterleaveAt(left, right, i);
    }
  }

  /** A signal recorded identically on both channels comes out of the downmix unchanged. */
  lemma DownmixDualMono(x: seq<real>, frameLength: nat)
    requires frameLength <= |x|
    ensures 2 * frameLength <= |Interleave(x, x)|
    ensures Downmix(Interleave(x, x), frameLength) == x[..frameLength]
  {
    DownmixInterleaved(x, x, frameLength);
  }

  // ---------------------------------------------------------------------
  // Bucketizer
  // ---------------------------------------------------------------------

  /** Bins per bar: `max((frameLength / 2) / 30, 1)`. */
  function ChunkSize(frameLength: nat): (c: nat)
    ensures 1 <= c
    ensures BarCount <= frameLength / 2 ==> BarCount * c <= frameLength / 2 < BarCount * (c + 1)
    ensures frameLength / 2 < 2 * BarCount ==> c == 1
  {
    Max((frameLength / 2) / BarCount, 1)
  }

  /** Number of bars taken from `binCount` bins in chunks of `chunkSize`. */
  function BarsFor(binCount: nat, chunkSize: nat): nat
    requires 1 <= chunkSize
  {
    Min(BarCount, (binCount + chunkSize - 1) / chunkSize)
  }

  /** Bar `i` exists exactly when its first bin lies inside the spectrum. */
  lemma BarPresence(binCount: nat, chunkSize: nat, i: nat)
    requires 1 <= chunkSize && i < BarCount
    ensures i < BarsFor(binCount, chunkSize) <==> i * chunkSize < binCount
  {
    var q := (binCount + chunkSize - 1) / chunkSize;
    var r := (binCount + chunkSize - 1) % chunkSize;
    assert q * chunkSize + r == binCount + chunkSize - 1 && 0 <= r < chunkSize;
    assert (i + 1) * chunkSize == i * chunkSize + chunkSize;
    assert (q + 1) * chunkSize == q * chunkSize + chunkSize;
    MulMonotone(q + 1, i + 1, chunkSize);
    MulMonotone(i + 1, q, chunkSize);
  }

  lemma MulMonotone(a: int, b: int, c: nat)
    ensures a <= b ==> a * c <= b * c
  {
  }

  lemma BarPresenceAll(binCount: nat, chunkSize: nat)
    requires 1 <= chunkSize
    ensures forall i :: 0 <= i < BarCount ==> (i < BarsFor(binCount, chunkSize) <==> i * chunkSize < binCount)
  {
    forall i | 0 <= i < BarCount
      ensures i < BarsFor(binCount, chunkSize) <==> i * chunkSize < binCount
    {
      BarPresence(binCount, chunkSize, i);
    }
  }

  /** First bin of bar `i`. */
  function BarStart(chunkSize: nat, i: nat): nat { i * chunkSize }

  /** One past the last bin of bar `i`, cut at the end of the spectrum. */
  function BarEnd(binCount: nat, chunkSize: nat, i: nat): nat
  {
    Min(i * chunkSize + chunkSize, binCount)
  }

  /** The value of bar `i`: the maximum of its bins. */
  function Bar(mags: seq<real>, chunkSize: nat, i: nat): real
    requires 1 <= chunkSize && BarStart(chunkSize, i) < |mags|
  {
    MaxOrZero(mags[BarStart(chunkSize, i)..BarEnd(|mags|, chunkSize, i)])
  }

  /**
   * The bucketized spectrum: at most 30 bars, bar `i` present exactly when
   * its first bin `i * chunkSize` is inside the spectrum, so the bars form a
   * prefix of the 30 candidate positions.
   */
  function Bars(mags: seq<real>, chunkSize: nat): (bars: seq<real>)
    requires 1 <= chunkSize
    ensures |bars| <= BarCount
    ensures forall i :: 0 <= i < BarCount ==> (i < |bars| <==> i * chunkSize < |mags|)
  {
    BarPresenceAll(|mags|, chunkSize);
    seq(BarsFor(|mags|, chunkSize), i requires 0 <= i < BarsFor(|mags|, chunkSize) => Bar(mags, chunkSize, i))
  }

  /**
   * Max-pooling: each bar is at least every bin of its range and equal to
   * one of them.
   */
  lemma BarsMaxPool(mags: seq<real>, chunkSize: nat, i: nat)
    requires 1 <= chunkSize && i < |Bars(mags, chunkSize)|
    ensures BarStart(chunkSize, i) < BarEnd(|mags|, chunkSize, i) <= |mags|
    ensures forall k :: BarStart(chunkSize, i) <= k < BarEnd(|mags|, chunkSize, i) ==> mags[k] <= Bars(mags, chunkSize)[i]
    ensures exists k :: BarStart(chunkSize, i) <= k < BarEnd(|mags|, chunkSize, i) && mags[k] == Bars(mags, chunkSize)[i]
  {
  }

  /** With the spectrum `frameLength / 2` bins long, `min(30, frameLength / 2)` bars come out. */
  lemma BarCountOfFrame(mags: seq<real>, frameLength: nat)
    requires |mags| == frameLength / 2
    ensures |Bars(mags, ChunkSize(frameLength))| == Min(BarCount, frameLength / 2)
  {
  }

  /**
   * Bins from `30 * chunkSize` on never reach a bar: fewer than 30 of the
   * highest bins are dropped, and the bars depend only on the rest.
   */
  lemma BarsIgnoreTail(mags: seq<real>, other: seq<real>, frameLength: nat)
    requires |mags| == |other| == frameLength / 2
    requires forall k :: 0 <= k < |mags| && k < BarCount * ChunkSize(frameLength) ==> mags[k] == other[k]
    ensures |mags| - Min(|mags|, BarCount * ChunkSize(frameLength)) < BarCount
    ensures Bars(mags, ChunkSize(frameLength)) == Bars(other, ChunkSize(frameLength))
  {
    var c := ChunkSize(frameLength);
    var a, b := Bars(mags, c), Bars(other, c);
    assert |a| == |b|;
    forall i | 0 <= i < |a| ensures a[i] == b[i] {
      var lo, hi := BarStart(c, i), BarEnd(|mags|, c, i);
      assert hi <= (i + 1) * c <= BarCount * c;
      assert mags[lo..hi] == other[lo..hi];
    }
  }

  /** Below 60 bins each bar is a single bin: the first `min(30, bins)` bins pass through. */
  lemma SmallFrameBarsAreBins(mags: seq<real>, frameLength: nat)
    requires |mags| == frameLength / 2 < 2 * BarCount
    ensures Bars(mags, ChunkSize(frameLength)) == mags[..Min(BarCount, |mags|)]
  {
  }

  lemma BarsNonNegative(mags: seq<real>, chunkSize: nat)
    requires 1 <= chunkSize && NonNegative(mags)
    ensures NonNegative(Bars(mags, chunkSize))
  {
  }

  // ---------------------------------------------------------------------
  // Running-peak tracker
  // ---------------------------------------------------------------------

  /**
   * The running peak after a frame whose loudest bar is `currentPeak`:
   * it jumps to a new peak at once, otherwise decays by 0.2%, and never
   * falls below the floor.
   */
  function NextPeak(runningPeak: real, currentPeak: real): (p: real)
    ensures PeakFloor <= p
    ensures currentPeak > runningPeak ==> currentPeak <= p
    ensures currentPeak > runningPeak && PeakFloor <= currentPeak ==> p == currentPeak
    ensures currentPeak <= runningPeak ==> p == RealMax(runningPeak * PeakDecay, PeakFloor)
    ensures currentPeak <= runningPeak && PeakFloor <= runningPeak ==> runningPeak * PeakDecay <= p <= runningPeak
  {
    var tracked := if currentPeak > runningPeak then currentPeak else runningPeak * PeakDecay;
    RealMax(tracked, PeakFloor)
  }

  /** `peak * 0.998^k`: the peak after `k` decay steps, before the floor is applied. */
  function Decayed(peak: real, k: nat): (d: real)
    ensures 0.0 < peak ==> 0.0 < d <= peak
    ensures 0.0 < peak && 0 < k ==> d < peak
  {
    if k == 0 then peak else Decayed(peak, k - 1) * PeakDecay
  }

  /** The running peak after `k` frames whose bars are all silent. */
  function SilentPeak(runningPeak: real, k: nat): real
  {
    if k == 0 then runningPeak else NextPeak(SilentPeak(runningPeak, k - 1), 0.0)
  }

  /**
   * Over silent frames the peak decays geometrically until it reaches the
   * floor: after `k` frames it is `max(peak * 0.998^k, 0.0001)`.
   */
  lemma {:induction false} SilentPeakDecays(runningPeak: real, k: nat)
    requires PeakFloor <= runningPeak
    ensures SilentPeak(runningPeak, k) == RealMax(Decayed(runningPeak, k), PeakFloor)
  {
    if k > 0 {
      SilentPeakDecays(runningPeak, k - 1);
      var d := Decayed(runningPeak, k - 1);
      if d < PeakFloor {
        assert d * PeakDecay < PeakFloor;
      }
    }
  }

  // ---------------------------------------------------------------------
  // Normaliser
  // ---------------------------------------------------------------------

  /** Each bar becomes `min(pow(bar / peak, 0.35), 1.0)`. */
  function Normalize(bars: seq<real>, peak: real, curve: real -> real): (levels: seq<real>)
    requires 0.0 < peak
    ensures |levels| == |bars|
    ensures forall i :: 0 <= i < |bars| ==> levels[i] <= 1.0
  {
    seq(|bars|, i requires 0 <= i < |bars| => RealMin(curve(bars[i] / peak), 1.0))
  }

  /** Normalised levels lie in [0, 1], and a silent bar stays silent. */
  lemma NormalizeInUnit(bars: seq<real>, peak: real, curve: real -> real)
    requires 0.0 < peak && NonNegative(bars) && CurveLaw(curve)
    ensures InUnit(Normalize(bars, peak, curve))
    ensures forall i :: 0 <= i < |bars| && bars[i] == 0.0 ==> Normalize(bars, peak, curve)[i] == 0.0
  {
  }

  /** Normalisation keeps the order of bars: a louder bar is never shown lower. */
  lemma NormalizeMonotone(bars: seq<real>, peak: real, curve: real -> real, i: nat, j: nat)
    requires 0.0 < peak && CurveLaw(curve)
    requires i < |bars| && j < |bars| && 0.0 <= bars[i] <= bars[j]
    ensures Normalize(bars, peak, curve)[i] <= Normalize(bars, peak, curve)[j]
  {
  }

  /**
   * The clamp to 1 is needed: after a decay step a bar that did not beat
   * the old peak can exceed the new one.
   */
  lemma DecayCanOvershoot(runningPeak: real, bar: real)
    requires PeakFloor / PeakDecay <= runningPeak
    requires runningPeak * PeakDecay < bar <= runningPeak
    ensures NextPeak(runningPeak, bar) == runningPeak * PeakDecay
    ensures bar / NextPeak(runningPeak, bar) > 1.0
  {
  }

  // ---------------------------------------------------------------------
  // Temporal smoother
  // ---------------------------------------------------------------------

  /**
   * `0.6 * new + 0.4 * previous` element-wise when both vectors have the same
   * length; otherwise the new vector unchanged.
   */
  function Smoothed(levels: seq<real>, previous: seq<real>): (out: seq<real>)
    ensures |out| == |levels|
    ensures |previous| != |levels| ==> out == levels
    ensures previous == [] ==> out == levels
  {
    if |previous| == |levels| then
      seq(|levels|, i requires 0 <= i < |levels| => levels[i] * NewWeight + previous[i] * OldWeight)
    else levels
  }

  /** Each smoothed entry lies between the new and the previous entry, so [0, 1] is kept. */
  lemma SmoothedBetween(levels: seq<real>, previous: seq<real>)
    requires |previous| == |levels|
    ensures forall i :: 0 <= i < |levels| ==>
              RealMin(levels[i], previous[i]) <= Smoothed(levels, previous)[i] <= RealMax(levels[i], previous[i])
  {
  }

  lemma SmoothedInUnit(levels: seq<real>, previous: seq<real>)
    requires InUnit(levels) && InUnit(previous)
    ensures InUnit(Smoothed(levels, previous))
  {
  }

  /**
   * A silent frame after a loud one: the bars are zero, the peak decays, and
   * the published vector is 0.4 times the previous one rather than zero.
   */
  lemma SilentFrameFades(mags: seq<real>, frameLength: nat, runningPeak: real, previous: seq<real>, curve: real -> real)
    requires |mags| == frameLength / 2 && AllZero(mags)
    requires PeakFloor <= runningPeak && CurveLaw(curve)
    requires |previous| == |Bars(mags, ChunkSize(frameLength))|
    ensures MaxOrZero(Bars(mags, ChunkSize(frameLength))) == 0.0
    ensures NextPeak(runningPeak, 0.0) == RealMax(runningPeak * PeakDecay, PeakFloor)
    ensures forall i :: 0 <= i < |previous| ==>
              Smoothed(Normalize(Bars(mags, ChunkSize(frameLength)), NextPeak(runningPeak, 0.0), curve), previous)[i]
              == OldWeight * previous[i]
  {
    var c := ChunkSize(frameLength);
    var bars := Bars(mags, c);
    forall i | 0 <= i < |bars| ensures bars[i] == 0.0 {
      BarsMaxPool(mags, c, i);
    }
    assert MaxOrZero(bars) == 0.0 by {
      if bars != [] {
        var k :| 0 <= k < |bars| && bars[k] == MaxOrZero(bars);
      }
    }
  }
}
