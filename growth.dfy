/** The per-element growth animation of the sequential mode: each element's closure
    reads the elapsed time, sets its scale to `min(elapsed / duration, 1)` and either
    asks for another frame or, once the scale is 1, hands over to its children. */
module Growth {
  import opened Config

  /** Durations in milliseconds: the stem's is fixed, the others are divided by the speed. */
  const STEM_GROWTH_DURATION: real := 600.0
  const PRIMARY_GROWTH_DURATION: real := 400.0 / ANIMATION_SPEED
  const SECONDARY_GROWTH_DURATION: real := 300.0 / ANIMATION_SPEED
  const TERTIARY_GROWTH_DURATION: real := 200.0 / ANIMATION_SPEED
  const FLOWER_GROWTH_DURATION: real := 100.0 / ANIMATION_SPEED

  /** `Math.min(elapsed / duration, 1)`. */
  function Progress(elapsed: real, duration: real): (p: real)
    requires duration > 0.0
    ensures p <= 1.0
    ensures elapsed >= 0.0 ==> 0.0 <= p
    ensures p == 1.0 <==> elapsed >= duration
  {
    var q := elapsed / duration;
    assert q * duration == elapsed;
    assert q >= 1.0 <==> elapsed >= duration by {
      if q >= 1.0 { assert q * duration >= 1.0 * duration; }
      else { assert q * duration < 1.0 * duration; }
    }
    if q < 1.0 then q else 1.0
  }

  /** Progress never goes backwards as time advances. */
  lemma ProgressMonotone(e1: real, e2: real, duration: real)
    requires duration > 0.0
    requires e1 <= e2
    ensures Progress(e1, duration) <= Progress(e2, duration)
  {
    if e2 < duration {
      assert (e2 - e1) / duration >= 0.0;
      assert e2 / duration - e1 / duration == (e2 - e1) / duration;
    }
  }

  /** What one call of a growth closure does once its scale is set. */
  datatype Continuation = RequestFrame | SpawnChildren

  datatype GrowthFrame = GrowthFrame(scale: real, next: Continuation)

  /** One frame of a branch (or stem) growth closure with the given duration;
      `baseScale` is 1 for branches and the flower's own jitter for flowers. */
  function GrowthStep(elapsed: real, duration: real, baseScale: real): (f: GrowthFrame)
    requires duration > 0.0
    ensures f.next == SpawnChildren <==> elapsed >= duration
    ensures f.next == SpawnChildren ==> f.scale == baseScale
    ensures elapsed >= 0.0 && baseScale >= 0.0 ==> 0.0 <= f.scale <= baseScale
  {
    var p := Progress(elapsed, duration);
    GrowthFrame(baseScale * p, if p < 1.0 then RequestFrame else SpawnChildren)
  }

  /** The flower closure: scale `flowerScale * progress`, `flowerScale` drawn from [0.8, 1.2). */
  function FlowerScale(draw: real): (s: real)
    ensures 0.0 <= draw < 1.0 ==> 0.8 <= s < 1.2
  {
    0.8 + draw * 0.4
  }

  predicate NonDecreasing(s: seq<real>) {
    forall i, j :: 0 <= i < j < |s| ==> s[i] <= s[j]
  }

  /** A growth closure re-run on successive frames, at the elapsed times `frames`, until
      it hands over: `baseScale` is 1 for a branch and the flower's jitter for a flower;
      `scales` are the scales it sets, and `handedOver` tells whether the last of them
      was the hand-over frame. */
  method RunGrowth(frames: seq<real>, duration: real, baseScale: real) returns (scales: seq<real>, handedOver: bool)
    requires duration > 0.0
    requires forall i :: 0 <= i < |frames| ==> 0.0 <= frames[i]
    requires NonDecreasing(frames)
    ensures |scales| <= |frames|
    ensures forall i :: 0 <= i < |scales| ==> scales[i] == baseScale * Progress(frames[i], duration)
    ensures handedOver ==> |scales| > 0 && frames[|scales| - 1] >= duration && scales[|scales| - 1] == baseScale
    ensures !handedOver ==> |scales| == |frames|
    ensures forall i :: 0 <= i < |scales| && (i < |scales| - 1 || !handedOver) ==> frames[i] < duration
    ensures baseScale >= 0.0 ==> forall i :: 0 <= i < |scales| ==> 0.0 <= scales[i] <= baseScale
    ensures baseScale >= 0.0 ==> NonDecreasing(scales)
  {
    scales, handedOver := [], false;
    var i := 0;
    while i < |frames|
      invariant 0 <= i <= |frames| && |scales| == i
      invariant forall k :: 0 <= k < i ==> scales[k] == baseScale * Progress(frames[k], duration)
      invariant forall k :: 0 <= k < i ==> frames[k] < duration
    {
      var f := GrowthStep(frames[i], duration, baseScale);
      scales := scales + [f.scale];
      if f.next == SpawnChildren {
        handedOver := true;
        if baseScale >= 0.0 { ScalesFollowProgress(frames, duration, baseScale, scales); }
        return;
      }
      i := i + 1;
    }
    if baseScale >= 0.0 { ScalesFollowProgress(frames, duration, baseScale, scales); }
  }

  /** Scales that follow the progress of non-decreasing clocks stay within [0, baseScale]
      and never decrease. */
  lemma ScalesFollowProgress(frames: seq<real>, duration: real, baseScale: real, scales: seq<real>)
    requires duration > 0.0 && baseScale >= 0.0
    requires forall i :: 0 <= i < |frames| ==> 0.0 <= frames[i]
    requires NonDecreasing(frames) && |scales| <= |frames|
    requires forall i :: 0 <= i < |scales| ==> scales[i] == baseScale * Progress(frames[i], duration)
    ensures forall i :: 0 <= i < |scales| ==> 0.0 <= scales[i] <= baseScale
    ensures NonDecreasing(scales)
  {
    forall i | 0 <= i < |scales| ensures 0.0 <= scales[i] <= baseScale {
      var p := Progress(frames[i], duration);
      ScaledMonotone(baseScale, 0.0, p);
      ScaledMonotone(baseScale, p, 1.0);
    }
    forall i, j | 0 <= i < j < |scales| ensures scales[i] <= scales[j] {
      ProgressMonotone(frames[i], frames[j], duration);
      ScaledMonotone(baseScale, Progress(frames[i], duration), Progress(frames[j], duration));
    }
  }

  lemma ScaledMonotone(k: real, a: real, b: real)
    requires k >= 0.0 && a <= b
    ensures k * a <= k * b
  {
    assert k * b - k * a == k * (b - a);
  }
}
