/** The waterfall display settings of `WaterfallSettings` (waverider_common.py):
    clamped configuration setters and the per-frame processing that applies
    brightness, contrast, peak hold and the display range to a spectrum frame
    given in dB. */
module Waterfall {
  import opened Util

  /** The named colour maps and the plotting-library map each selects. */
  const Colormaps: map<string, string> := map[
    "viridis" := "viridis",
    "plasma" := "plasma",
    "inferno" := "inferno",
    "magma" := "magma",
    "hot" := "hot",
    "cool" := "cool",
    "rainbow" := "jet",
    "grayscale" := "gray",
    "turbo" := "turbo",
    "wb" := "WB"
  ]

  /** The smallest span, in dB, that `set_range` keeps between floor and ceiling. */
  const MinRangeDb: real := 5.0
  const MinContrast: real := 0.1
  const MaxContrast: real := 3.0
  const MinBrightness: real := -50.0
  const MaxBrightness: real := 50.0

  /** Brightness offset then contrast gain, element by element. */
  function Adjusted(frame: seq<real>, brightness: real, contrast: real): (r: seq<real>)
    ensures |r| == |frame|
    ensures forall i :: 0 <= i < |r| ==> r[i] == (frame[i] + brightness) * contrast
  {
    seq(|frame|, i requires 0 <= i < |frame| => (frame[i] + brightness) * contrast)
  }

  /** One held value after one frame of decay. */
  function Decay(held: real, decay: real): real { held * decay }

  /** `np.maximum(processed, held * decay)`: the held peak decays by `decay`
      and is raised again by any louder bin. */
  function DecayedPeak(processed: seq<real>, held: seq<real>, decay: real): (r: seq<real>)
    requires |held| == |processed|
    ensures |r| == |processed|
    ensures forall i :: 0 <= i < |r| ==> r[i] >= processed[i] && r[i] >= held[i] * decay
    ensures forall i :: 0 <= i < |r| ==> r[i] == processed[i] || r[i] == held[i] * decay
  {
    seq(|processed|, i requires 0 <= i < |processed| => Max(processed[i], Decay(held[i], decay)))
  }

  /** The element-wise peak update on the buffer itself: every held value
      becomes `max(processed[i], held[i] * decay)`. */
  method DecayPeakBuffer(buf: array<real>, processed: seq<real>, decay: real)
    requires buf.Length == |processed|
    modifies buf
    ensures buf[..] == DecayedPeak(processed, old(buf[..]), decay)
  {
    ghost var held := buf[..];
    var i := 0;
    while i < buf.Length
      invariant 0 <= i <= buf.Length
      invariant forall k :: 0 <= k < i ==> buf[k] == Max(processed[k], Decay(held[k], decay))
      invariant forall k :: i <= k < buf.Length ==> buf[k] == held[k]
    {
      buf[i] := Max(processed[i], Decay(buf[i], decay));
      i := i + 1;
    }
  }

  /** The peak-hold buffer after one frame: a fresh copy of the frame when there
      is no buffer or its length differs, the decayed maximum otherwise. */
  function NextPeak(held: Option<seq<real>>, processed: seq<real>, decay: real): (r: seq<real>)
    ensures |r| == |processed|
    ensures forall i :: 0 <= i < |r| ==> r[i] >= processed[i]
    ensures held.None? || |held.value| != |processed| ==> r == processed
    ensures held.Some? && |held.value| == |processed| ==>
      forall i :: 0 <= i < |r| ==> r[i] == Max(processed[i], Decay(held.value[i], decay))
  {
    if held.None? || |held.value| != |processed| then processed
    else DecayedPeak(processed, held.value, decay)
  }

  /** `np.clip(s, lo, hi)` element by element. */
  function ClipAll(s: seq<real>, lo: real, hi: real): (r: seq<real>)
    ensures |r| == |s|
    ensures lo <= hi ==> forall i :: 0 <= i < |r| ==> lo <= r[i] <= hi
    ensures forall i :: 0 <= i < |r| ==> lo <= s[i] <= hi ==> r[i] == s[i]
    ensures forall i :: 0 <= i < |r| ==> r[i] == Clip(s[i], lo, hi)
  {
    seq(|s|, i requires 0 <= i < |s| => Clip(s[i], lo, hi))
  }

  /** One bin of one peak update, for a decay in [0, 1] and a frame value at
      most the held value: the result stays at or above the frame, its
      magnitude never grows, and a non-negative held value never rises. */
  lemma DecayStep(p: real, h: real, decay: real)
    requires 0.0 <= decay <= 1.0 && p <= h
    ensures p <= Max(p, Decay(h, decay))
    ensures Abs(Max(p, Decay(h, decay))) <= Abs(h)
    ensures h >= 0.0 ==> Max(p, Decay(h, decay)) <= h
  {
    assert h - Decay(h, decay) == h * (1.0 - decay);
    if h >= 0.0 {
      ProductNonNegative(h, decay);
      ProductNonNegative(h, 1.0 - decay);
    } else {
      assert -Decay(h, decay) == (-h) * decay;
      assert Decay(h, decay) - h == (-h) * (1.0 - decay);
      ProductNonNegative(-h, decay);
      ProductNonNegative(-h, 1.0 - decay);
    }
  }

  /** One peak update from a held peak at or above the frame, with a decay in
      [0, 1]: every held value stays at or above the frame and does not grow
      in magnitude, and a non-negative held value never rises. */
  lemma PeakDecaysTowardFrame(processed: seq<real>, held: seq<real>, decay: real)
    requires |held| == |processed|
    requires 0.0 <= decay <= 1.0
    requires forall i :: 0 <= i < |held| ==> processed[i] <= held[i]
    ensures forall i :: 0 <= i < |held| ==>
      && processed[i] <= DecayedPeak(processed, held, decay)[i]
      && Abs(DecayedPeak(processed, held, decay)[i]) <= Abs(held[i])
      && (held[i] >= 0.0 ==> DecayedPeak(processed, held, decay)[i] <= held[i])
  {
    var r := DecayedPeak(processed, held, decay);
    forall i | 0 <= i < |held|
      ensures processed[i] <= r[i] && Abs(r[i]) <= Abs(held[i]) && (held[i] >= 0.0 ==> r[i] <= held[i])
    {
      DecayStep(processed[i], held[i], decay);
    }
  }

  /** A held peak below 0 dB rises toward 0 dB under a decay factor in [0, 1):
      multiplying a negative dB value by the decay makes it larger. */
  lemma NegativePeakRises(processed: seq<real>, held: seq<real>, decay: real, i: nat)
    requires |held| == |processed| && i < |held|
    requires 0.0 <= decay < 1.0
    requires held[i] < 0.0
    ensures DecayedPeak(processed, held, decay)[i] > held[i]
  {
    assert Decay(held[i], decay) - held[i] == (-held[i]) * (1.0 - decay);
    assert (-held[i]) * (1.0 - decay) > 0.0;
  }

  /** The held peak after `k` successive frames that all equal `processed`. */
  function HeldAfter(held: seq<real>, processed: seq<real>, decay: real, k: nat): (r: seq<real>)
    requires |held| == |processed|
    ensures |r| == |processed|
  {
    if k == 0 then held else DecayedPeak(processed, HeldAfter(held, processed, decay, k - 1), decay)
  }

  /** Peak hold over a sustained frame: from a held peak at or above the
      frame and a decay in [0, 1], the held values never grow in magnitude
      from one frame to the next and never drop below the frame, whatever the
      sign of the dB values. */
  lemma {:induction false} PeakHoldMonotone(held: seq<real>, processed: seq<real>, decay: real, k: nat)
    requires |held| == |processed|
    requires 0.0 <= decay <= 1.0
    requires forall i :: 0 <= i < |held| ==> processed[i] <= held[i]
    ensures forall i :: 0 <= i < |held| ==>
      && processed[i] <= HeldAfter(held, processed, decay, k + 1)[i]
      && Abs(HeldAfter(held, processed, decay, k + 1)[i]) <= Abs(HeldAfter(held, processed, decay, k)[i])
  {
    if k > 0 {
      PeakHoldMonotone(held, processed, decay, k - 1);
    }
    PeakDecaysTowardFrame(processed, HeldAfter(held, processed, decay, k), decay);
  }

  class WaterfallSettings {
    var colormap: string
    var minDb: real
    var maxDb: real
    var contrast: real
    var brightness: real
    var averaging: int
    var peakHold: bool
    var peakDecay: real
    var waterfallSpeed: int
    var showGrid: bool
    var showPeakMarker: bool
    var peakBuffer: array?<real>

    /** What the setters keep: at least 5 dB of display range, contrast and
        brightness inside their bounds, averaging at least one frame, and a
        colour map that one of the named maps selects. */
    ghost predicate Valid()
      reads this
    {
      && minDb <= maxDb - MinRangeDb
      && MinContrast <= contrast <= MaxContrast
      && MinBrightness <= brightness <= MaxBrightness
      && averaging >= 1
      && colormap in Colormaps.Values
    }

    /** The peak-hold buffer's contents, `None` before the first held frame. */
    ghost function PeakContents(): Option<seq<real>>
      reads this, peakBuffer
    {
      if peakBuffer == null then None else Some(peakBuffer[..])
    }

    constructor ()
      ensures Valid()
      ensures colormap == "viridis" && minDb == -80.0 && maxDb == 0.0
      ensures contrast == 1.0 && brightness == 0.0 && averaging == 1
      ensures !peakHold && peakDecay == 0.95
      ensures waterfallSpeed == 1 && showGrid && showPeakMarker
      ensures peakBuffer == null
    {
      colormap := "viridis";
      minDb := -80.0;
      maxDb := 0.0;
      contrast := 1.0;
      brightness := 0.0;
      averaging := 1;
      peakHold := false;
      peakDecay := 0.95;
      waterfallSpeed := 1;
      showGrid := true;
      showPeakMarker := true;
      peakBuffer := null;
      assert Colormaps["viridis"] == "viridis";
    }

    /** Selects a named colour map; an unknown name leaves the map as it was. */
    method SetColormap(name: string)
      requires Valid()
      modifies this`colormap
      ensures Valid()
      ensures name in Colormaps ==> colormap == Colormaps[name]
      ensures name !in Colormaps ==> colormap == old(colormap)
    {
      if name in Colormaps {
        colormap := Colormaps[name];
      }
    }

    /** Sets the ceiling to `max` and the floor to `min`, lowered when needed
        so that the range spans at least 5 dB. */
    method SetRange(min: real, max: real)
      requires Valid()
      modifies this`minDb, this`maxDb
      ensures Valid()
      ensures maxDb == max
      ensures minDb == Min(min, max - MinRangeDb)
      ensures min <= max - MinRangeDb ==> minDb == min
    {
      minDb := Min(min, max - MinRangeDb);
      maxDb := max;
    }

    /** Sets the contrast gain, clamped to [0.1, 3.0]. */
    method SetContrast(c: real)
      requires Valid()
      modifies this`contrast
      ensures Valid()
      ensures contrast == Clip(c, MinContrast, MaxContrast)
      ensures MinContrast <= c <= MaxContrast ==> contrast == c
    {
      contrast := Clip(c, MinContrast, MaxContrast);
    }

    /** Sets the brightness offset, clamped to [-50, 50] dB. */
    method SetBrightness(b: real)
      requires Valid()
      modifies this`brightness
      ensures Valid()
      ensures brightness == Clip(b, MinBrightness, MaxBrightness)
      ensures MinBrightness <= b <= MaxBrightness ==> brightness == b
    {
      brightness := Clip(b, MinBrightness, MaxBrightness);
    }

    /** Sets the averaging depth to the truncated frame count, at least 1. */
    method SetAveraging(frames: real)
      requires Valid()
      modifies this`averaging
      ensures Valid()
      ensures averaging >= 1
      ensures averaging == if Trunc(frames) < 1 then 1 else Trunc(frames)
    {
      var n := Trunc(frames);
      averaging := if n < 1 then 1 else n;
    }

    /** Processes one spectrum frame for display: brightness and contrast,
        then (with peak hold on) the peak-hold buffer update, whose contents
        become the frame, then the clip to [minDb, maxDb]. */
    method ApplyProcessing(fftDb: seq<real>) returns (out: seq<real>)
      requires Valid()
      modifies this`peakBuffer, peakBuffer
      ensures Valid()
      ensures |out| == |fftDb|
      ensures forall i :: 0 <= i < |out| ==> minDb <= out[i] <= maxDb
      ensures peakHold ==> peakBuffer != null && peakBuffer.Length == |fftDb|
      ensures peakHold ==>
        PeakContents() == Some(NextPeak(old(PeakContents()), Adjusted(fftDb, brightness, contrast), peakDecay))
      ensures peakHold ==> out == ClipAll(PeakContents().value, minDb, maxDb)
      ensures !peakHold ==> peakBuffer == old(peakBuffer) && PeakContents() == old(PeakContents())
      ensures !peakHold ==> out == ClipAll(Adjusted(fftDb, brightness, contrast), minDb, maxDb)
    {
      var processed := Adjusted(fftDb, brightness, contrast);
      var n := |processed|;
      if peakHold {
        if peakBuffer == null || peakBuffer.Length != n {
          peakBuffer := new real[n](i requires 0 <= i < n => processed[i]);
          assert peakBuffer[..] == processed;
        } else {
          DecayPeakBuffer(peakBuffer, processed, peakDecay);
          processed := peakBuffer[..];
        }
      }
      out := ClipAll(processed, minDb, maxDb);
    }
  }
}
