/**
 * `check_orient` (icvmapper/segment/icvmapper.py): the decision taken from the
 * text `c3d <image> -info` prints. The c3d call itself stays outside: its
 * output is the `info` argument. Writing the reoriented copy is done by the
 * pipeline (module Pipeline, `CheckOrientOnDisk`).
 */
module Orientation {
  import opened PyStr

  /** The text `check_orient` searches for in c3d's report. */
  const Marker := "orient ="

  /** The two standard orientation codes the pipeline works in. */
  const RightOrient := "RPI"
  const LeftOrient := "LPI"

  /** The orientation code as read: the 3 characters starting 9 past the marker. */
  function ReadCode(info: string): (code: string)
    ensures |code| <= 3
  {
    var start := Find(info, Marker) + 9;
    PySlice(info, start, start + 3)
  }

  /** The code the handedness is taken from: for an oblique image, `info[-5:-2]`. */
  function HandednessCode(info: string): (code: string)
    ensures |code| <= 3
  {
    var code := ReadCode(info);
    if code == "Obl" then PySlice(info, -5, -2) else code
  }

  datatype Decision = Keep | Reorient(tag: string)

  /**
   * The decision of `check_orient(in, rOrient, lOrient, out)`: keep an image
   * whose code is one of the two given standard codes; otherwise reorient it
   * to `RPI` when its code (the oblique tail for `Obl`) holds an `R`, else to `LPI`.
   */
  function CheckOrient(info: string, rOrient: string, lOrient: string): (d: Decision)
    ensures d.Keep? <==> ReadCode(info) == rOrient || ReadCode(info) == lOrient
    ensures d.Reorient? ==> d.tag == RightOrient || d.tag == LeftOrient
    ensures d.Reorient? ==> (d.tag == RightOrient <==> 'R' in HandednessCode(info))
  {
    var code := ReadCode(info);
    if code != rOrient && code != lOrient then
      Reorient(if 'R' in HandednessCode(info) then RightOrient else LeftOrient)
    else
      Keep
  }

  /**
   * In a report laid out as c3d lays it out, `... orient = XYZ ...`, the code
   * read is XYZ, provided the marker does not occur earlier.
   */
  lemma {:induction false} CodeAfterMarker(pre: string, code: string, post: string)
    requires |code| == 3
    requires forall i :: !OccursAt(pre + "orient ", Marker, i)
    ensures ReadCode(pre + "orient = " + code + post) == code
  {
    var info := pre + "orient = " + code + post;
    assert OccursAt(info, Marker, |pre|) by {
      assert info[|pre|..|pre| + |Marker|] == Marker;
    }
    var f := Find(info, Marker);
    assert f <= |pre|;
    if f < |pre| {
      assert info[f..f + |Marker|] == (pre + "orient ")[f..f + |Marker|];
      assert OccursAt(pre + "orient ", Marker, f);
    }
    assert info[|pre| + 9..|pre| + 12] == code;
  }

  /** Without the marker, `find` gives -1 and the code is read from index 8. */
  lemma MissingMarkerReadsIndexEight(info: string)
    requires forall i :: !OccursAt(info, Marker, i)
    ensures ReadCode(info) == PySlice(info, 8, 11)
  {
  }

  /** An image c3d reports in a standard orientation is kept as it is. */
  lemma {:induction false} StandardImageKept(pre: string, code: string, post: string)
    requires code == RightOrient || code == LeftOrient
    requires forall i :: !OccursAt(pre + "orient ", Marker, i)
    ensures CheckOrient(pre + "orient = " + code + post, RightOrient, LeftOrient) == Keep
  {
    CodeAfterMarker(pre, code, post);
  }

  /**
   * Normalisation is idempotent: once an image has been reoriented to the tag
   * chosen for it, and c3d reports that tag, a second check keeps it.
   */
  lemma {:induction false} ReorientationIdempotent(info: string, pre: string, post: string)
    requires CheckOrient(info, RightOrient, LeftOrient).Reorient?
    requires forall i :: !OccursAt(pre + "orient ", Marker, i)
    ensures CheckOrient(pre + "orient = " + CheckOrient(info, RightOrient, LeftOrient).tag + post,
                        RightOrient, LeftOrient) == Keep
  {
    StandardImageKept(pre, CheckOrient(info, RightOrient, LeftOrient).tag, post);
  }

  /** A non-standard, non-oblique code is reoriented by its own letters. */
  lemma {:induction false} NonStandardReoriented(pre: string, code: string, post: string)
    requires |code| == 3 && code != RightOrient && code != LeftOrient && code != "Obl"
    requires forall i :: !OccursAt(pre + "orient ", Marker, i)
    ensures CheckOrient(pre + "orient = " + code + post, RightOrient, LeftOrient)
            == Reorient(if 'R' in code then RightOrient else LeftOrient)
  {
    CodeAfterMarker(pre, code, post);
  }

  /**
   * For an oblique image whose report ends in a code XYZ followed by two
   * more characters, the handedness comes from XYZ.
   */
  lemma {:induction false} ObliqueUsesClosestCode(pre: string, rest: string, xyz: string, tail: string)
    requires |xyz| == 3 && |tail| == 2
    requires forall i :: !OccursAt(pre + "orient ", Marker, i)
    requires |rest| >= 3 && rest[..3] == "Obl"
    ensures var info := pre + "orient = " + rest + xyz + tail;
      CheckOrient(info, RightOrient, LeftOrient) == Reorient(if 'R' in xyz then RightOrient else LeftOrient)
  {
    var info := pre + "orient = " + rest + xyz + tail;
    assert info == pre + "orient = " + rest[..3] + (rest[3..] + xyz + tail);
    CodeAfterMarker(pre, rest[..3], rest[3..] + xyz + tail);
    assert info[|info| - 5..|info| - 2] == xyz;
  }
}
