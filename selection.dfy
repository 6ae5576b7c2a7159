/**
 * Model selection in `main` (icvmapper/segment/icvmapper.py): which images
 * are stacked into the network's input, in which order, and which trained
 * model and cerebellum variant go with them.
 */
module Selection {
  import opened Wrappers

  datatype Modality = T1 | Flair | T2

  /** The name `training_mods` uses for a modality. */
  function ModName(m: Modality): string {
    match m
    case T1 => "t1"
    case Flair => "flair"
    case T2 => "t2"
  }

  datatype Choice = Choice(mods: seq<Modality>, seqs: seq<Option<string>>, model: string, wocModel: string)

  /** The path `main` stacks for a modality. */
  function PathOf(m: Modality, t1: string, fl: Option<string>, t2: Option<string>): Option<string> {
    match m
    case T1 => Some(t1)
    case Flair => fl
    case T2 => t2
  }

  /**
   * The four-way branch on the FLAIR and T2 paths. T1 always comes first,
   * each stacked path belongs to its modality, and the list keeps the order
   * t1, flair, t2. FLAIR is stacked exactly when a FLAIR path was given or
   * the T2 path is the empty string (which falls through to the three-image
   * branch); symmetrically for T2.
   */
  function SelectModel(t1: string, fl: Option<string>, t2: Option<string>): (c: Choice)
    ensures |c.mods| == |c.seqs| >= 1
    ensures c.mods[0] == T1 && c.seqs[0] == Some(t1)
    ensures forall i :: 0 <= i < |c.mods| ==> c.seqs[i] == PathOf(c.mods[i], t1, fl, t2)
    ensures forall i :: 0 < i < |c.mods| ==> c.mods[i] != T1
    ensures forall i, j :: 0 <= i < j < |c.mods| ==> c.mods[i] != c.mods[j]
    ensures forall i, j :: 0 <= i < j < |c.mods| ==> !(c.mods[i] == T2 && c.mods[j] == Flair)
    ensures Flair in c.mods <==> fl.Some? || t2 == Some("")
    ensures T2 in c.mods <==> t2.Some? || fl == Some("")
  {
    if fl.None? && t2.None? then
      Choice([T1], [Some(t1)], "hfb_t1only_mcdp_multi", "hfb_t1")
    else if t2.None? && Truthy(fl) then
      Choice([T1, Flair], [Some(t1), fl], "hfb_t1fl_mcdp_multi", "hfb_t1fl")
    else if fl.None? && Truthy(t2) then
      Choice([T1, T2], [Some(t1), t2], "hfb_t1t2_mcdp_multi", "hfb_t1t2")
    else
      Choice([T1, Flair, T2], [Some(t1), fl, t2], "hfb_multi_mcdp_contrast", "hfb_t1flt2_mcdp_contrast")
  }

  /** The selection table, row by row. */
  lemma SelectionTable(t1: string, fl: Option<string>, t2: Option<string>)
    ensures fl.None? && t2.None? ==>
      SelectModel(t1, fl, t2) == Choice([T1], [Some(t1)], "hfb_t1only_mcdp_multi", "hfb_t1")
    ensures Truthy(fl) && t2.None? ==>
      SelectModel(t1, fl, t2) == Choice([T1, Flair], [Some(t1), fl], "hfb_t1fl_mcdp_multi", "hfb_t1fl")
    ensures fl.None? && Truthy(t2) ==>
      SelectModel(t1, fl, t2) == Choice([T1, T2], [Some(t1), t2], "hfb_t1t2_mcdp_multi", "hfb_t1t2")
    ensures Truthy(fl) && Truthy(t2) ==>
      SelectModel(t1, fl, t2) == Choice([T1, Flair, T2], [Some(t1), fl, t2], "hfb_multi_mcdp_contrast", "hfb_t1flt2_mcdp_contrast")
  {
  }

  /** The model and its cerebellum variant always belong to the same row. */
  lemma {:induction false} ModelDeterminedByModalities(t1: string, fl: Option<string>, t2: Option<string>,
                                                       t1': string, fl': Option<string>, t2': Option<string>)
    requires SelectModel(t1, fl, t2).mods == SelectModel(t1', fl', t2').mods
    ensures SelectModel(t1, fl, t2).model == SelectModel(t1', fl', t2').model
    ensures SelectModel(t1, fl, t2).wocModel == SelectModel(t1', fl', t2').wocModel
  {
    var c, c' := SelectModel(t1, fl, t2), SelectModel(t1', fl', t2');
    assert |c.mods| == |c'.mods|;
    if |c.mods| == 2 {
      assert c.mods[1] == c'.mods[1];
    }
  }

  /**
   * When each optional path is absent or a real (non-empty) path, exactly
   * the given images are stacked and none of the stacked paths is `None`.
   */
  lemma {:induction false} GivenImagesAreStacked(t1: string, fl: Option<string>, t2: Option<string>)
    requires fl.None? || Truthy(fl)
    requires t2.None? || Truthy(t2)
    ensures Flair in SelectModel(t1, fl, t2).mods <==> fl.Some?
    ensures T2 in SelectModel(t1, fl, t2).mods <==> t2.Some?
    ensures |SelectModel(t1, fl, t2).mods| == 1 + (if fl.Some? then 1 else 0) + (if t2.Some? then 1 else 0)
    ensures forall i :: 0 <= i < |SelectModel(t1, fl, t2).seqs| ==> SelectModel(t1, fl, t2).seqs[i].Some?
  {
    var c := SelectModel(t1, fl, t2);
    forall i | 0 <= i < |c.seqs| ensures c.seqs[i].Some? {
      assert c.seqs[i] == PathOf(c.mods[i], t1, fl, t2);
      if c.mods[i] == Flair { assert Flair in c.mods; }
      if c.mods[i] == T2 { assert T2 in c.mods; }
    }
  }

  /**
   * An empty T2 path with no FLAIR lands in the three-image branch with a
   * `None` FLAIR slot: the network would be asked for three channels.
   */
  lemma EmptyT2FallsThrough(t1: string)
    ensures SelectModel(t1, None, Some("")).mods == [T1, Flair, T2]
    ensures SelectModel(t1, None, Some("")).seqs[1] == None
  {
  }
}
