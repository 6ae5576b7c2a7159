/**
 * Voxel-wise image arithmetic of `main` (icvmapper/segment/icvmapper.py):
 * percentile clipping (`cutoff_img`), `math_img('img > t')`, the cerebellum
 * subtraction and the `img1 * img2` masking. An image is its voxels in a flat
 * sequence (or array); the affine is carried along unchanged and left out.
 */
module Voxels {

  /** One voxel of `cutoff_img`: values above `high` are set to `high`, then values below `low` to `low`. */
  function Clip(v: real, low: real, high: real): (r: real)
    ensures low <= high ==> low <= r <= high
    ensures low <= v <= high ==> r == v
    ensures low <= high && high < v ==> r == high
    ensures v < low ==> r == low
    ensures high < low ==> r == low
  {
    var capped := if v > high then high else v;
    if capped < low then low else capped
  }

  /** Clipping twice is clipping once. */
  lemma ClipIdempotent(v: real, low: real, high: real)
    ensures Clip(Clip(v, low, high), low, high) == Clip(v, low, high)
  {
  }

  /** Clipping keeps the order of intensities (it never swaps two voxels' order). */
  lemma ClipMonotone(v: real, w: real, low: real, high: real)
    requires v <= w
    ensures Clip(v, low, high) <= Clip(w, low, high)
  {
  }

  /**
   * `cutoff_img` with the two percentiles already computed: a copy of the
   * data, then the masked assignment `new_data[new_data > high] = high`,
   * then `new_data[new_data < low] = low`.
   */
  method CutoffImg(data: array<real>, low: real, high: real) returns (clipped: array<real>)
    ensures fresh(clipped) && clipped.Length == data.Length
    ensures forall i :: 0 <= i < data.Length ==> clipped[i] == Clip(data[i], low, high)
  {
    clipped := new real[data.Length](i requires 0 <= i < data.Length reads data => data[i]);
    var i := 0;
    while i < clipped.Length
      invariant 0 <= i <= clipped.Length
      invariant forall j :: 0 <= j < i ==> clipped[j] == (if data[j] > high then high else data[j])
      invariant forall j :: i <= j < clipped.Length ==> clipped[j] == data[j]
    {
      if clipped[i] > high {
        clipped[i] := high;
      }
      i := i + 1;
    }
    i := 0;
    while i < clipped.Length
      invariant 0 <= i <= clipped.Length
      invariant forall j :: 0 <= j < i ==> clipped[j] == Clip(data[j], low, high)
      invariant forall j :: i <= j < clipped.Length ==> clipped[j] == (if data[j] > high then high else data[j])
    {
      if clipped[i] < low {
        clipped[i] := low;
      }
      i := i + 1;
    }
  }

  /** A binary image: every voxel is 0 or 1. */
  predicate IsMask(m: seq<real>) {
    forall i :: 0 <= i < |m| ==> m[i] == 0.0 || m[i] == 1.0
  }

  /** `math_img('img > t')`: 1 exactly where the voxel exceeds `t`. */
  function Threshold(img: seq<real>, t: real): (m: seq<real>)
    ensures |m| == |img| && IsMask(m)
    ensures forall i :: 0 <= i < |img| ==> (m[i] == 1.0 <==> img[i] > t)
  {
    seq(|img|, i requires 0 <= i < |img| => if img[i] > t then 1.0 else 0.0)
  }

  /** A higher threshold keeps a subset of the voxels. */
  lemma ThresholdMonotone(img: seq<real>, t1: real, t2: real)
    requires t1 <= t2
    ensures forall i :: 0 <= i < |img| ==> Threshold(img, t2)[i] <= Threshold(img, t1)[i]
  {
  }

  /** `a - b`, voxel by voxel. */
  function Difference(a: seq<real>, b: seq<real>): (d: seq<real>)
    requires |a| == |b|
    ensures |d| == |a|
    ensures forall i :: 0 <= i < |a| ==> d[i] + b[i] == a[i]
  {
    seq(|a|, i requires 0 <= i < |a| => a[i] - b[i])
  }

  /**
   * The cerebellum-excluded prediction before its connected component:
   * `math_img('img > 0', pred - cereb)`.
   */
  function RemoveCerebellum(pred: seq<real>, cereb: seq<real>): (woc: seq<real>)
    requires |pred| == |cereb|
    ensures |woc| == |pred| && IsMask(woc)
  {
    Threshold(Difference(pred, cereb), 0.0)
  }

  /**
   * For two masks, removing the cerebellum keeps exactly the predicted voxels
   * outside the cerebellum mask: it never adds a voxel.
   */
  lemma {:induction false} RemoveCerebellumIsSetDifference(pred: seq<real>, cereb: seq<real>)
    requires |pred| == |cereb| && IsMask(pred) && IsMask(cereb)
    ensures forall i :: 0 <= i < |pred| ==>
      (RemoveCerebellum(pred, cereb)[i] == 1.0 <==> pred[i] == 1.0 && cereb[i] == 0.0)
    ensures forall i :: 0 <= i < |pred| ==> RemoveCerebellum(pred, cereb)[i] <= pred[i]
  {
    var d := Difference(pred, cereb);
    forall i | 0 <= i < |pred|
      ensures RemoveCerebellum(pred, cereb)[i] == 1.0 <==> pred[i] == 1.0 && cereb[i] == 0.0
      ensures RemoveCerebellum(pred, cereb)[i] <= pred[i]
    {
      assert d[i] + cereb[i] == pred[i];
      assert pred[i] == 0.0 || pred[i] == 1.0;
      assert cereb[i] == 0.0 || cereb[i] == 1.0;
    }
  }

  /** `math_img('img1 * img2')`: the image where the mask is set, 0 elsewhere (for a binary mask). */
  function Mask(img: seq<real>, m: seq<real>): (r: seq<real>)
    requires |img| == |m|
    ensures |r| == |img|
    ensures forall i :: 0 <= i < |img| && m[i] == 1.0 ==> r[i] == img[i]
    ensures forall i :: 0 <= i < |img| && m[i] == 0.0 ==> r[i] == 0.0
  {
    seq(|img|, i requires 0 <= i < |img| => img[i] * m[i])
  }

  /** Masking twice with the same binary mask is masking once. */
  lemma {:induction false} MaskIdempotent(img: seq<real>, m: seq<real>)
    requires |img| == |m| && IsMask(m)
    ensures Mask(Mask(img, m), m) == Mask(img, m)
  {
    var once := Mask(img, m);
    var twice := Mask(once, m);
    forall i | 0 <= i < |img| ensures twice[i] == once[i] {
      assert m[i] == 0.0 || m[i] == 1.0;
    }
  }

  /**
   * The cerebellum-excluded masked T1 is the masked T1 masked again: masking
   * by a sub-mask of the prediction loses nothing the prediction mask kept.
   */
  lemma {:induction false} SubMaskComposes(img: seq<real>, pred: seq<real>, woc: seq<real>)
    requires |img| == |pred| == |woc| && IsMask(pred) && IsMask(woc)
    requires forall i :: 0 <= i < |woc| ==> woc[i] <= pred[i]
    ensures Mask(Mask(img, pred), woc) == Mask(img, woc)
  {
    var a := Mask(Mask(img, pred), woc);
    var b := Mask(img, woc);
    forall i | 0 <= i < |img| ensures a[i] == b[i] {
      assert woc[i] == 0.0 || woc[i] == 1.0;
      assert pred[i] == 0.0 || pred[i] == 1.0;
    }
  }
}
