/**
 * Every file name `main` (icvmapper/segment/icvmapper.py) derives, and the
 * plan of outputs written after inference, gated by the `ign_ort`/`cp_orient`,
 * `bias` and `rmcereb` settings.
 */
module Naming {
  import opened Wrappers
  import opened PosixPath
  import opened Selection
  import opened Storage

  /** The delivered prediction: `-o` if given, else `<subj>_T1acq_nu_HfB_pred.nii.gz` in the subject directory. */
  function PredictionPath(subjDir: string, subj: string, out: Option<string>): string {
    if out.None? then subjDir + "/" + subj + "_T1acq_nu_HfB_pred.nii.gz" else out.value
  }

  /** The prediction in the standard orientation. */
  function PredictionStdPath(subjDir: string, subj: string, out: Option<string>): string {
    if out.None? then subjDir + "/" + subj + "_T1acq_nu_HfB_pred_std_orient.nii.gz"
    else subjDir + "/" + Stem(out.value) + "_std_orient.nii.gz"
  }

  function ModelJson(hyperDir: string, model: string): string {
    hyperDir + "/models/" + model + "_model.json"
  }

  function ModelWeights(hyperDir: string, model: string): string {
    hyperDir + "/models/" + model + "_model_weights.h5"
  }

  /** The directory of intermediate files, under the (re-`abspath`ed) subject directory. */
  function PredDir(subjDirAbs: string): string {
    subjDirAbs + "/pred_process_hfb"
  }

  /** The bias-corrected T1 written when `-b` is given. */
  function T1BiasPath(subjDir: string, subj: string): string {
    Join(subjDir, subj + "_T1_nu.nii.gz")
  }

  /** The `.nii.gz` copy of the T1 used when `-b` is not given. */
  function ConvertedPath(subjDir: string, t1: string): string {
    Join(subjDir, Stem(t1) + ".nii.gz")
  }

  /** Where `check_orient` writes the reoriented copy of an image. */
  function StdOrientPath(subjDir: string, p: string): string {
    subjDir + "/" + Stem(p) + "_std_orient.nii.gz"
  }

  /** The bias-corrected FLAIR or T2, which is also used when it already exists. */
  function SeqBiasPath(subjDir: string, subj: string, m: Modality): string {
    Join(subjDir, subj + (if m == Flair then "_T1acq_nu_FL.nii.gz" else "_T1acq_nu_T2.nii.gz"))
  }

  const CropSuffix := "_cropped.nii.gz"
  const ClipSuffix := "_cropped_thresholded.nii.gz"
  const StdSuffix := "_cropped_thresholded_standardized.nii.gz"
  const ResSuffix := "_resampled.nii.gz"

  /** A per-modality intermediate in the prediction directory, keyed on the image's stem. */
  function Intermediate(predDir: string, p: string, suffix: string): string {
    predDir + "/" + Stem(p) + suffix
  }

  /**
   * Intermediate names are keyed on the stem alone: two images get the same
   * intermediate file exactly when their stems agree.
   */
  lemma {:induction false} IntermediateCollidesOnlyOnStem(predDir: string, p: string, q: string, suffix: string)
    ensures Intermediate(predDir, p, suffix) == Intermediate(predDir, q, suffix) <==> Stem(p) == Stem(q)
  {
    var a, b := Intermediate(predDir, p, suffix), Intermediate(predDir, q, suffix);
    if a == b {
      var n := |predDir| + 1;
      assert |Stem(p)| == |Stem(q)|;
      assert a[n..n + |Stem(p)|] == Stem(p);
      assert b[n..n + |Stem(q)|] == Stem(q);
    }
  }

  /**
   * Two images with the same file name in different directories share every
   * intermediate: the second one's files overwrite the first one's.
   */
  lemma {:induction false} SameFileNameSharesIntermediates(predDir: string, dirA: string, dirB: string,
                                                          name: string, suffix: string)
    requires '/' !in name
    ensures Intermediate(predDir, dirA + "/" + name, suffix) == Intermediate(predDir, dirB + "/" + name, suffix)
  {
    BasenameAfterSlash(dirA + "/", name);
    BasenameAfterSlash(dirB + "/", name);
    assert dirA + "/" + name == (dirA + "/") + name;
    assert dirB + "/" + name == (dirB + "/") + name;
  }

  /** The names the post-inference part of `main` writes to. */
  datatype OutputNames = OutputNames(
    subjDir: string, subj: string, t1: string, predDir: string, model: string,
    prediction: string, predictionStd: string)

  /** The masked T1 images: named after the subject with `-b`, after the T1's stem without. */
  function MaskedName(n: OutputNames, bias: bool, suffix: string): string {
    if bias then n.subjDir + "/" + n.subj + "_T1_nu" + suffix
    else n.subjDir + "/" + Stem(n.t1) + suffix
  }

  /** The cerebellum mask, named with `_nu` only when the T1 was bias-corrected. */
  function CerebMaskName(n: OutputNames, bias: bool): string {
    if bias then n.subjDir + "/" + n.subj + "_T1acq_nu_cerebellum_pred.nii.gz"
    else n.subjDir + "/" + n.subj + "_T1acq_cerebellum_pred.nii.gz"
  }

  /** The delivered cerebellum-excluded prediction, named with `_nu` only with `-b`. */
  function WocPredName(n: OutputNames, bias: bool): string {
    if bias then n.subjDir + "/" + n.subj + "_T1acq_nu_HfB_woc_pred.nii.gz"
    else n.subjDir + "/" + n.subj + "_T1acq_HfB_woc_pred.nii.gz"
  }

  /** Its standard-orientation twin, whose name has `_nu` whatever `-b` says. */
  function WocPredStdName(n: OutputNames): string {
    n.subjDir + "/" + n.subj + "_T1acq_nu_HfB_woc_pred_std_orient.nii.gz"
  }

  /** The paths of everything written after inference, one per output. */
  datatype OutputPaths = OutputPaths(
    meanProb: string, modelMask: string, nativeProb: string, component: string,
    predStd: string, pred: string, masked: string, maskedStd: string,
    cerebProb: string, cerebMask: string, wocComponent: string, wocPredStd: string,
    wocPred: string, maskedWoc: string, maskedWocStd: string)

  /** Lines 366-466: the names `main` gives its outputs. */
  function PathsOf(n: OutputNames, bias: bool): (p: OutputPaths)
    ensures p.pred == n.prediction && p.predStd == n.predictionStd
    ensures p.wocPredStd == WocPredStdName(n)
  {
    OutputPaths(
      Join(n.predDir, "hfb_prob.nii.gz"),
      Join(n.predDir, "hfb_pred.nii.gz"),
      Join(n.predDir, n.subj + "_" + n.model + "_pred_prob.nii.gz"),
      Join(n.predDir, n.subj + "_" + n.model + "_pred.nii.gz"),
      n.predictionStd, n.prediction,
      MaskedName(n, bias, "_masked.nii.gz"), MaskedName(n, bias, "_masked_std_orient.nii.gz"),
      n.predDir + "/" + n.subj + "_hfb_cereb_pred_prob.nii.gz",
      CerebMaskName(n, bias),
      Join(n.predDir, n.subj + "_" + n.model + "_woc_pred.nii.gz"),
      WocPredStdName(n), WocPredName(n, bias),
      MaskedName(n, bias, "_masked_woc.nii.gz"), MaskedName(n, bias, "_masked_woc_std_orient.nii.gz"))
  }

  /** The primary prediction's outputs, in the order they are written. */
  function PrimaryArtifacts(p: OutputPaths, std: bool): seq<Artifact> {
    if std then
      [Artifact(MeanProb, p.meanProb), Artifact(ModelMask, p.modelMask),
       Artifact(NativeProb, p.nativeProb), Artifact(Component, p.component),
       Artifact(PredStdOrient, p.predStd),
       Artifact(Prediction, p.pred), Artifact(MaskedT1, p.masked),
       Artifact(MaskedT1Std, p.maskedStd)]
    else
      [Artifact(MeanProb, p.meanProb), Artifact(ModelMask, p.modelMask),
       Artifact(NativeProb, p.nativeProb), Artifact(Component, p.component),
       Artifact(Prediction, p.pred), Artifact(MaskedT1, p.masked)]
  }

  /** The cerebellum-removal branch's outputs, in the order they are written. */
  function CerebellumArtifacts(p: OutputPaths, std: bool): seq<Artifact> {
    if std then
      [Artifact(CerebProb, p.cerebProb), Artifact(CerebMask, p.cerebMask),
       Artifact(WocComponent, p.wocComponent),
       Artifact(WocPredStd, p.wocPredStd),
       Artifact(WocPred, p.wocPred), Artifact(MaskedWoc, p.maskedWoc),
       Artifact(MaskedWocStd, p.maskedWocStd)]
    else
      [Artifact(CerebProb, p.cerebProb), Artifact(CerebMask, p.cerebMask),
       Artifact(WocComponent, p.wocComponent),
       Artifact(WocPred, p.wocPred), Artifact(MaskedWoc, p.maskedWoc)]
  }

  /**
   * Everything `main` writes after inference (lines 366-466): the primary
   * outputs, then, only for `rmcereb == 1`, the cerebellum-removal outputs.
   * `std` is the source's `ign_ort is False and cp_orient`.
   */
  function OutputArtifacts(p: OutputPaths, std: bool, woc: int): (out: seq<Artifact>)
    ensures |out| == 6 + (if std then 2 else 0) + (if woc == 1 then 5 + (if std then 2 else 0) else 0)
  {
    PrimaryArtifacts(p, std) + (if woc == 1 then CerebellumArtifacts(p, std) else [])
  }

  /** Nothing written after inference is a preprocessing file, so the log splits cleanly into the two phases. */
  lemma {:induction false} OutputsAreNotPreprocessing(p: OutputPaths, std: bool, woc: int)
    ensures forall i :: 0 <= i < |OutputArtifacts(p, std, woc)| ==> !IsPreprocessing(OutputArtifacts(p, std, woc)[i].kind)
  {
    var prim := PrimaryArtifacts(p, std);
    var rest: seq<Artifact> := if woc == 1 then CerebellumArtifacts(p, std) else [];
    OutputSplit(p, std, woc);
    forall i | 0 <= i < |prim + rest| ensures !IsPreprocessing((prim + rest)[i].kind) {
      if i < |prim| {
        assert (prim + rest)[i] == prim[i];
      } else {
        assert (prim + rest)[i] == rest[i - |prim|];
      }
    }
  }

  /** Some artifact in `log` is of a kind satisfying `P`. */
  predicate HasKind(log: seq<Artifact>, P: Kind -> bool) {
    exists i :: 0 <= i < |log| && P(log[i].kind)
  }

  lemma {:induction false} HasKindConcat(a: seq<Artifact>, b: seq<Artifact>, P: Kind -> bool)
    ensures HasKind(a + b, P) <==> HasKind(a, P) || HasKind(b, P)
  {
    if HasKind(a + b, P) {
      var i :| 0 <= i < |a + b| && P((a + b)[i].kind);
      if i >= |a| {
        assert P(b[i - |a|].kind);
      }
    }
    if HasKind(a, P) {
      var i :| 0 <= i < |a| && P(a[i].kind);
      assert (a + b)[i] == a[i];
    }
    if HasKind(b, P) {
      var j :| 0 <= j < |b| && P(b[j].kind);
      assert (a + b)[|a| + j] == b[j];
    }
  }

  predicate IsWocPredStd(k: Kind) { k.WocPredStd? }

  /** What the primary outputs hold: std-orient kinds only with `std`, no cerebellum kind. */
  lemma {:induction false} PrimaryKinds(p: OutputPaths, std: bool)
    ensures HasKind(PrimaryArtifacts(p, std), IsStdOrient) <==> std
    ensures !HasKind(PrimaryArtifacts(p, std), IsCerebellum)
    ensures !HasKind(PrimaryArtifacts(p, std), IsWocPredStd)
  {
    if std {
      assert IsStdOrient(PrimaryArtifacts(p, std)[4].kind);
    }
  }

  /** What the cerebellum outputs hold: all cerebellum kinds, std-orient ones only with `std`. */
  lemma {:induction false} CerebellumKinds(p: OutputPaths, std: bool)
    ensures HasKind(CerebellumArtifacts(p, std), IsStdOrient) <==> std
    ensures HasKind(CerebellumArtifacts(p, std), IsWocPredStd) <==> std
    ensures HasKind(CerebellumArtifacts(p, std), IsCerebellum)
  {
    assert IsCerebellum(CerebellumArtifacts(p, std)[0].kind);
    if std {
      assert IsWocPredStd(CerebellumArtifacts(p, std)[3].kind);
    }
  }

  /** The artifacts of `OutputArtifacts`, split at the cerebellum branch. */
  lemma OutputSplit(p: OutputPaths, std: bool, woc: int)
    ensures OutputArtifacts(p, std, woc) ==
      PrimaryArtifacts(p, std) + (if woc == 1 then CerebellumArtifacts(p, std) else [])
  {
  }

  /** Standard-orientation outputs are written exactly when the image was reoriented and orientation is not ignored. */
  lemma {:induction false} StdOrientGating(p: OutputPaths, std: bool, woc: int)
    ensures HasKind(OutputArtifacts(p, std, woc), IsStdOrient) <==> std
  {
    var rest: seq<Artifact> := if woc == 1 then CerebellumArtifacts(p, std) else [];
    OutputSplit(p, std, woc);
    HasKindConcat(PrimaryArtifacts(p, std), rest, IsStdOrient);
    PrimaryKinds(p, std);
    CerebellumKinds(p, std);
  }

  /** Cerebellum outputs are written exactly when `rmcereb == 1`. */
  lemma {:induction false} CerebellumGating(p: OutputPaths, std: bool, woc: int)
    ensures HasKind(OutputArtifacts(p, std, woc), IsCerebellum) <==> woc == 1
  {
    var rest: seq<Artifact> := if woc == 1 then CerebellumArtifacts(p, std) else [];
    OutputSplit(p, std, woc);
    HasKindConcat(PrimaryArtifacts(p, std), rest, IsCerebellum);
    PrimaryKinds(p, std);
    CerebellumKinds(p, std);
  }

  /** The standard-orientation cerebellum-excluded prediction needs both `rmcereb == 1` and a reoriented image. */
  lemma {:induction false} WocStdGating(p: OutputPaths, std: bool, woc: int)
    ensures HasKind(OutputArtifacts(p, std, woc), IsWocPredStd) <==> woc == 1 && std
  {
    var rest: seq<Artifact> := if woc == 1 then CerebellumArtifacts(p, std) else [];
    OutputSplit(p, std, woc);
    HasKindConcat(PrimaryArtifacts(p, std), rest, IsWocPredStd);
    PrimaryKinds(p, std);
    CerebellumKinds(p, std);
  }

  /** The delivered prediction is always written, and exactly once. */
  lemma {:induction false} PredictionWrittenOnce(p: OutputPaths, std: bool, woc: int)
    ensures Artifact(Prediction, p.pred) in OutputArtifacts(p, std, woc)
    ensures forall i :: 0 <= i < |OutputArtifacts(p, std, woc)| && OutputArtifacts(p, std, woc)[i].kind == Prediction ==>
      i == (if std then 5 else 4)
  {
    var out := OutputArtifacts(p, std, woc);
    var prim := PrimaryArtifacts(p, std);
    var rest: seq<Artifact> := if woc == 1 then CerebellumArtifacts(p, std) else [];
    OutputSplit(p, std, woc);
    var k := if std then 5 else 4;
    assert out[k] == prim[k];
    assert forall j :: 0 <= j < |rest| ==> rest[j].kind != Prediction;
    forall i | 0 <= i < |out| ensures out[i].kind == Prediction ==> i == k {
      if i >= |prim| {
        assert out[i] == rest[i - |prim|];
      }
    }
  }

  lemma {:induction false} KindsConcat(a: seq<Artifact>, b: seq<Artifact>)
    ensures Kinds(a + b) == Kinds(a) + Kinds(b)
  {
  }

  /**
   * A T1 already in standard orientation, no cerebellum removal: one mean
   * probability map, one model-space mask, the native probability and
   * component maps, the prediction and the masked T1, nothing else.
   */
  lemma ScenarioStandardNoCerebellum(p: OutputPaths, woc: int)
    requires woc != 1
    ensures Kinds(OutputArtifacts(p, false, woc)) ==
      [MeanProb, ModelMask, NativeProb, Component, Prediction, MaskedT1]
  {
  }

  /**
   * A reoriented T1 with cerebellum removal: both the standard-orientation and
   * the original-orientation variants of the primary and of the
   * cerebellum-excluded prediction and masked image.
   */
  lemma {:induction false} ScenarioReorientedWithCerebellum(p: OutputPaths)
    ensures Kinds(OutputArtifacts(p, true, 1)) ==
      [MeanProb, ModelMask, NativeProb, Component, PredStdOrient, Prediction, MaskedT1, MaskedT1Std,
       CerebProb, CerebMask, WocComponent, WocPredStd, WocPred, MaskedWoc, MaskedWocStd]
  {
    OutputSplit(p, true, 1);
    KindsConcat(PrimaryArtifacts(p, true), CerebellumArtifacts(p, true));
    PrimaryStdKinds(p);
    CerebellumStdKinds(p);
  }

  lemma PrimaryStdKinds(p: OutputPaths)
    ensures Kinds(PrimaryArtifacts(p, true)) ==
      [MeanProb, ModelMask, NativeProb, Component, PredStdOrient, Prediction, MaskedT1, MaskedT1Std]
  {
  }

  lemma CerebellumStdKinds(p: OutputPaths)
    ensures Kinds(CerebellumArtifacts(p, true)) ==
      [CerebProb, CerebMask, WocComponent, WocPredStd, WocPred, MaskedWoc, MaskedWocStd]
  {
  }

  /**
   * The character `k` places from the end of `p`, or a blank when `p` is
   * shorter; counted down one character at a time.
   */
  function Back(p: string, k: nat): char {
    if k == 0 || |p| < k then ' '
    else if k == 1 then p[|p| - 1]
    else Back(p[..|p| - 1], k - 1)
  }

  lemma {:induction false} BackIndex(p: string, k: nat)
    requires 1 <= k <= |p|
    ensures Back(p, k) == p[|p| - k]
  {
    if k > 1 {
      BackIndex(p[..|p| - 1], k - 1);
    }
  }

  lemma BackAppend(x: string, y: string, k: nat)
    requires 1 <= k
    ensures Back(x + y, k) == if k <= |y| then Back(y, k) else Back(x, k - |y|)
  {
    if k <= |x + y| {
      BackIndex(x + y, k);
      if k <= |y| {
        BackIndex(y, k);
      } else {
        BackIndex(x, k - |y|);
      }
    }
  }

  /** `os.path.join(a, b)` ends with `b`. */
  lemma BackJoin(a: string, b: string, k: nat)
    requires 1 <= k <= |b|
    ensures Back(Join(a, b), k) == Back(b, k)
  {
    if IsAbs(b) {
    } else if a == [] || a[|a| - 1] == '/' {
      BackAppend(a, b, k);
    } else {
      BackAppend(a + "/", b, k);
    }
  }

  /** A path ending in the literal `tail` shows it in its last characters. */
  lemma Ending(x: string, tail: string)
    ensures forall k :: 1 <= k <= |tail| ==> Back(x + tail, k) == tail[|tail| - k]
  {
    forall k | 1 <= k <= |tail| ensures Back(x + tail, k) == tail[|tail| - k] {
      BackAppend(x, tail, k);
      BackIndex(tail, k);
    }
  }

  /** The same for `os.path.join(dir, tail)`. */
  lemma JoinEnding(dir: string, tail: string)
    ensures forall k :: 1 <= k <= |tail| ==> Back(Join(dir, tail), k) == tail[|tail| - k]
  {
    forall k | 1 <= k <= |tail| ensures Back(Join(dir, tail), k) == tail[|tail| - k] {
      BackJoin(dir, tail, k);
      BackIndex(tail, k);
    }
  }

  /** The prediction directory never has the name of the converted T1: one ends in `b`, the other in `z`. */
  lemma {:induction false} ConvertedIsNotPredDir(subjDir: string, t1: string, subjDirAbs: string)
    ensures ConvertedPath(subjDir, t1) != PredDir(subjDirAbs)
  {
    JoinEnding(subjDir, Stem(t1) + ".nii.gz");
    Ending(subjDirAbs, "/pred_process_hfb");
    assert Back(ConvertedPath(subjDir, t1), 1) == 'z';
    assert Back(PredDir(subjDirAbs), 1) == 'b';
  }

  /** A reoriented copy (`..._std_orient.nii.gz`) is never a bias-corrected FLAIR or T2 (`..._nu_FL.nii.gz`, `..._nu_T2.nii.gz`). */
  lemma {:induction false} StdOrientIsNotSeqBias(subjDir: string, subj: string, p: string, m: Modality)
    ensures StdOrientPath(subjDir, p) != SeqBiasPath(subjDir, subj, m)
  {
    var lit := if m == Flair then "_T1acq_nu_FL.nii.gz" else "_T1acq_nu_T2.nii.gz";
    Ending(subjDir + "/" + Stem(p), "_std_orient.nii.gz");
    JoinEnding(subjDir, subj + lit);
    Ending(subj, lit);
    assert Back(StdOrientPath(subjDir, p), 8) == 't';
    assert Back(SeqBiasPath(subjDir, subj, m), 8) != 't';
  }

  /**
   * A signature read off the last 24 characters of a path: each output `main`
   * writes gets its own number, 1 to 15 in the order of `OutputPaths`, while
   * the per-modality intermediates, the bias-corrected images and the
   * converted and reoriented copies of an image with a plain stem get 0.
   * Paths with different signatures differ.
   */
  function TailClass(p: string): nat {
    var c := Back(p, 8);
    if c == 'b' then                                        // ..._prob.nii.gz
      if Back(p, 13) == 'b' then 1                          // hfb_prob
      else if Back(p, 18) == 'b' then 9 else 3              // hfb_cereb_pred_prob, <model>_pred_prob
    else if c == 'd' then
      var e := Back(p, 10);
      if e == 'k' then 7                                    // _masked
      else if e != 'r' then 0                               // neither _pred nor _masked
      else
        var m := Back(p, 13);
        if m == 'b' then 2                                  // hfb_pred
        else if m == 'B' then 6                             // HfB_pred
        else if m == 'm' then 10                            // cerebellum_pred
        else if m == 'c' then (if Back(p, 17) == 'B' then 13 else 11)   // HfB_woc_pred, <model>_woc_pred
        else 4                                              // <model>_pred
    else if c == 't' then                                   // ..._std_orient.nii.gz
      var e := Back(p, 19);
      if e == 'c' then 15                                   // _masked_woc_std_orient
      else if e != 'd' then 0
      else if Back(p, 21) == 'k' then 8                     // _masked_std_orient
      else if Back(p, 24) == 'c' then 12 else 5             // HfB_woc_pred_std_orient, HfB_pred_std_orient
    else if c == 'c' then 14                                // _masked_woc
    else 0
  }

  /** A name ending in none of the letters the signatures test. */
  predicate PlainModelName(model: string) {
    model != [] && model[|model| - 1] !in "bBcm"
  }

  /** Every model `main` selects has such a name. */
  lemma SelectedModelsArePlain(t1: string, fl: Option<string>, t2: Option<string>)
    ensures PlainModelName(SelectModel(t1, fl, t2).model)
  {
  }

  /** The names of a run without `-o`, with a model named like the ones `main` selects. */
  predicate DefaultNames(n: OutputNames) {
    && n.prediction == PredictionPath(n.subjDir, n.subj, None)
    && n.predictionStd == PredictionStdPath(n.subjDir, n.subj, None)
    && PlainModelName(n.model)
  }

  /** The last characters of `<dir>/<subj>_<model><tail>`: the tail, then the model's last letter. */
  lemma {:induction false} ModelTail(d: string, s: string, m: string, tail: string)
    requires m != []
    ensures var p := Join(d, s + "_" + m + tail);
      && (forall k :: 1 <= k <= |tail| ==> Back(p, k) == tail[|tail| - k])
      && Back(p, |tail| + 1) == m[|m| - 1]
  {
    var b := s + "_" + m + tail;
    Ending(s + "_" + m, tail);
    forall k | 1 <= k <= |tail| + 1 ensures Back(Join(d, b), k) == Back(b, k) {
      BackJoin(d, b, k);
    }
    BackAppend(s + "_" + m, tail, |tail| + 1);
    BackAppend(s + "_", m, 1);
  }

  /** The signatures of the mean map, the model's mask and the cerebellum probability. */
  lemma {:induction false} FixedNameTails(d: string, s: string)
    ensures TailClass(Join(d, "hfb_prob.nii.gz")) == 1 && TailClass(Join(d, "hfb_pred.nii.gz")) == 2
    ensures TailClass(d + "/" + s + "_hfb_cereb_pred_prob.nii.gz") == 9
  {
    JoinEnding(d, "hfb_prob.nii.gz");
    JoinEnding(d, "hfb_pred.nii.gz");
    Ending(d + "/" + s, "_hfb_cereb_pred_prob.nii.gz");
  }

  /** The signatures of the outputs named after the model. */
  lemma {:induction false} ModelNameTails(d: string, s: string, m: string)
    requires PlainModelName(m)
    ensures TailClass(Join(d, s + "_" + m + "_pred_prob.nii.gz")) == 3
    ensures TailClass(Join(d, s + "_" + m + "_pred.nii.gz")) == 4
    ensures TailClass(Join(d, s + "_" + m + "_woc_pred.nii.gz")) == 11
  {
    ModelTail(d, s, m, "_pred_prob.nii.gz");
    ModelTail(d, s, m, "_pred.nii.gz");
    ModelTail(d, s, m, "_woc_pred.nii.gz");
  }

  /** The signatures of the default predictions in the subject directory. */
  lemma {:induction false} PredictionTails(x: string)
    ensures TailClass(x + "_T1acq_nu_HfB_pred_std_orient.nii.gz") == 5
    ensures TailClass(x + "_T1acq_nu_HfB_pred.nii.gz") == 6
    ensures TailClass(x + "_T1acq_nu_HfB_woc_pred_std_orient.nii.gz") == 12
  {
    Ending(x, "_T1acq_nu_HfB_pred_std_orient.nii.gz");
    Ending(x, "_T1acq_nu_HfB_pred.nii.gz");
    Ending(x, "_T1acq_nu_HfB_woc_pred_std_orient.nii.gz");
  }

  /** The signatures of the cerebellum mask and the cerebellum-free prediction, with and without `_nu`. */
  lemma {:induction false} CerebellumTails(x: string)
    ensures TailClass(x + "_T1acq_nu_cerebellum_pred.nii.gz") == 10
    ensures TailClass(x + "_T1acq_cerebellum_pred.nii.gz") == 10
    ensures TailClass(x + "_T1acq_nu_HfB_woc_pred.nii.gz") == 13
    ensures TailClass(x + "_T1acq_HfB_woc_pred.nii.gz") == 13
  {
    Ending(x, "_T1acq_nu_cerebellum_pred.nii.gz");
    Ending(x, "_T1acq_cerebellum_pred.nii.gz");
    Ending(x, "_T1acq_nu_HfB_woc_pred.nii.gz");
    Ending(x, "_T1acq_HfB_woc_pred.nii.gz");
  }

  /** The signatures of the masked T1 images. */
  lemma {:induction false} MaskedTails(x: string)
    ensures TailClass(x + "_masked.nii.gz") == 7 && TailClass(x + "_masked_std_orient.nii.gz") == 8
    ensures TailClass(x + "_masked_woc.nii.gz") == 14 && TailClass(x + "_masked_woc_std_orient.nii.gz") == 15
  {
    Ending(x, "_masked.nii.gz");
    Ending(x, "_masked_std_orient.nii.gz");
    Ending(x, "_masked_woc.nii.gz");
    Ending(x, "_masked_woc_std_orient.nii.gz");
  }

  /** Each output path carries its own signature. */
  lemma {:induction false} FieldSignatures(n: OutputNames, bias: bool)
    requires DefaultNames(n)
    ensures var p := PathsOf(n, bias);
      && TailClass(p.meanProb) == 1 && TailClass(p.modelMask) == 2 && TailClass(p.nativeProb) == 3
      && TailClass(p.component) == 4 && TailClass(p.predStd) == 5 && TailClass(p.pred) == 6
      && TailClass(p.masked) == 7 && TailClass(p.maskedStd) == 8 && TailClass(p.cerebProb) == 9
      && TailClass(p.cerebMask) == 10 && TailClass(p.wocComponent) == 11 && TailClass(p.wocPredStd) == 12
      && TailClass(p.wocPred) == 13 && TailClass(p.maskedWoc) == 14 && TailClass(p.maskedWocStd) == 15
  {
    var x := n.subjDir + "/" + n.subj;
    FixedNameTails(n.predDir, n.subj);
    ModelNameTails(n.predDir, n.subj, n.model);
    PredictionTails(x);
    CerebellumTails(x);
    MaskedTails(if bias then x + "_T1_nu" else n.subjDir + "/" + Stem(n.t1));
  }

  /** The field of `OutputPaths` each output kind is written to; the empty path for other kinds. */
  function FieldOf(p: OutputPaths, k: Kind): string {
    match k
    case MeanProb => p.meanProb case ModelMask => p.modelMask case NativeProb => p.nativeProb
    case Component => p.component case PredStdOrient => p.predStd case Prediction => p.pred
    case MaskedT1 => p.masked case MaskedT1Std => p.maskedStd case CerebProb => p.cerebProb
    case CerebMask => p.cerebMask case WocComponent => p.wocComponent case WocPredStd => p.wocPredStd
    case WocPred => p.wocPred case MaskedWoc => p.maskedWoc case MaskedWocStd => p.maskedWocStd
    case _ => []
  }

  /** The signature of each output kind's field: 1 to 15 in field order, 0 for the other kinds. */
  function KindCode(k: Kind): nat {
    match k
    case MeanProb => 1 case ModelMask => 2 case NativeProb => 3 case Component => 4
    case PredStdOrient => 5 case Prediction => 6 case MaskedT1 => 7 case MaskedT1Std => 8
    case CerebProb => 9 case CerebMask => 10 case WocComponent => 11 case WocPredStd => 12
    case WocPred => 13 case MaskedWoc => 14 case MaskedWocStd => 15
    case _ => 0
  }

  /** Every artifact written after inference is an output kind written to its own field. */
  lemma {:induction false} OutputsAreFields(p: OutputPaths, std: bool, woc: int)
    ensures forall a :: a in OutputArtifacts(p, std, woc) ==> KindCode(a.kind) != 0 && a.path == FieldOf(p, a.kind)
  {
    var prim, rest := PrimaryArtifacts(p, std), if woc == 1 then CerebellumArtifacts(p, std) else [];
    assert OutputArtifacts(p, std, woc) == prim + rest;
    forall a | a in prim ensures KindCode(a.kind) != 0 && a.path == FieldOf(p, a.kind) {
      PrimaryAreFields(p, std, a);
    }
    forall a | a in rest ensures KindCode(a.kind) != 0 && a.path == FieldOf(p, a.kind) {
      CerebellumAreFields(p, std, a);
    }
  }

  lemma PrimaryAreFields(p: OutputPaths, std: bool, a: Artifact)
    requires a in PrimaryArtifacts(p, std)
    ensures KindCode(a.kind) != 0 && a.path == FieldOf(p, a.kind)
  {
  }

  lemma CerebellumAreFields(p: OutputPaths, std: bool, a: Artifact)
    requires a in CerebellumArtifacts(p, std)
    ensures KindCode(a.kind) != 0 && a.path == FieldOf(p, a.kind)
  {
  }

  lemma KindCodeSignature(n: OutputNames, bias: bool, k: Kind)
    requires DefaultNames(n) && KindCode(k) != 0
    ensures TailClass(FieldOf(PathsOf(n, bias), k)) == KindCode(k)
  {
    FieldSignatures(n, bias);
  }

  lemma KindCodeInjective(j: Kind, k: Kind)
    requires KindCode(j) == KindCode(k) != 0
    ensures j == k
  {
  }

  /**
   * Without `-o`, two files `main` writes after inference share a path only
   * when they are the same output, whatever `-b`, `cp_orient` and `rmcereb`
   * say: no output overwrites another.
   */
  lemma {:induction false} OutputPathsDistinct(n: OutputNames, bias: bool, std: bool, woc: int)
    requires DefaultNames(n)
    ensures var out := OutputArtifacts(PathsOf(n, bias), std, woc);
      forall a, b :: a in out && b in out && a.path == b.path ==> a == b
  {
    var p := PathsOf(n, bias);
    var out := OutputArtifacts(p, std, woc);
    OutputsAreFields(p, std, woc);
    forall a, b | a in out && b in out && a.path == b.path ensures a == b {
      KindCodeSignature(n, bias, a.kind);
      KindCodeSignature(n, bias, b.kind);
      KindCodeInjective(a.kind, b.kind);
    }
  }

  /** A stem the signatures do not confuse with an output: not empty, and ending in none of `b`, `c`, `d`, `t`. */
  predicate PlainStem(img: string) {
    Stem(img) != [] && Stem(img)[|Stem(img)| - 1] !in "bcdt"
  }

  /** The character before a literal tail is the last one of what precedes it. */
  lemma {:induction false} BeforeTail(x: string, st: string, tail: string)
    requires st != []
    ensures Back(x + st + tail, |tail| + 1) == st[|st| - 1]
  {
    BackAppend(x + st, tail, |tail| + 1);
    BackAppend(x, st, 1);
    BackIndex(st, 1);
  }

  /** The per-modality intermediates and the bias-corrected images carry signature 0. */
  lemma {:induction false} IntermediateSignatures(n: OutputNames, img: string)
    ensures TailClass(Intermediate(n.predDir, img, CropSuffix)) == 0
    ensures TailClass(Intermediate(n.predDir, img, ClipSuffix)) == 0
    ensures TailClass(Intermediate(n.predDir, img, StdSuffix)) == 0
    ensures TailClass(Intermediate(n.predDir, img, ResSuffix)) == 0
  {
    var x := n.predDir + "/" + Stem(img);
    Ending(x, CropSuffix);
    Ending(x, ClipSuffix);
    Ending(x, StdSuffix);
    Ending(x, ResSuffix);
  }

  lemma {:induction false} BiasSignatures(n: OutputNames)
    ensures TailClass(T1BiasPath(n.subjDir, n.subj)) == 0
    ensures TailClass(SeqBiasPath(n.subjDir, n.subj, Flair)) == 0
    ensures TailClass(SeqBiasPath(n.subjDir, n.subj, T2)) == 0
  {
    var s := n.subj;
    JoinEnding(n.subjDir, s + "_T1_nu.nii.gz");
    Ending(s, "_T1_nu.nii.gz");
    assert TailClass(SeqBiasPath(n.subjDir, s, Flair)) == 0 by {
      Ending(s, "_T1acq_nu_FL.nii.gz");
      JoinEnding(n.subjDir, s + "_T1acq_nu_FL.nii.gz");
    }
    assert TailClass(SeqBiasPath(n.subjDir, s, T2)) == 0 by {
      Ending(s, "_T1acq_nu_T2.nii.gz");
      JoinEnding(n.subjDir, s + "_T1acq_nu_T2.nii.gz");
    }
  }

  /** The converted and reoriented copies of an image with a plain stem carry signature 0. */
  lemma {:induction false} CopySignatures(n: OutputNames, img: string)
    requires PlainStem(img)
    ensures TailClass(ConvertedPath(n.subjDir, img)) == 0
    ensures TailClass(StdOrientPath(n.subjDir, img)) == 0
  {
    var st := Stem(img);
    assert TailClass(ConvertedPath(n.subjDir, img)) == 0 by {
      forall k | 1 <= k <= 8 ensures Back(Join(n.subjDir, st + ".nii.gz"), k) == Back(st + ".nii.gz", k) {
        BackJoin(n.subjDir, st + ".nii.gz", k);
      }
      BeforeTail([], st, ".nii.gz");
      assert [] + st + ".nii.gz" == st + ".nii.gz";
    }
    assert TailClass(StdOrientPath(n.subjDir, img)) == 0 by {
      Ending(n.subjDir + "/" + st, "_std_orient.nii.gz");
      BeforeTail(n.subjDir + "/", st, "_std_orient.nii.gz");
    }
  }

  /**
   * Without `-o`, no output overwrites a preprocessing file: not an
   * intermediate of any image, not the bias-corrected T1, FLAIR or T2, and,
   * for an image whose stem is plain, not its converted or reoriented copy.
   */
  lemma {:induction false} OutputsSparePreprocessing(n: OutputNames, bias: bool, std: bool, woc: int, img: string)
    requires DefaultNames(n)
    ensures forall a :: a in OutputArtifacts(PathsOf(n, bias), std, woc) ==>
      && a.path != Intermediate(n.predDir, img, CropSuffix) && a.path != Intermediate(n.predDir, img, ClipSuffix)
      && a.path != Intermediate(n.predDir, img, StdSuffix) && a.path != Intermediate(n.predDir, img, ResSuffix)
      && a.path != T1BiasPath(n.subjDir, n.subj)
      && a.path != SeqBiasPath(n.subjDir, n.subj, Flair) && a.path != SeqBiasPath(n.subjDir, n.subj, T2)
      && (PlainStem(img) ==> a.path != ConvertedPath(n.subjDir, img) && a.path != StdOrientPath(n.subjDir, img))
  {
    var p := PathsOf(n, bias);
    OutputsAreFields(p, std, woc);
    IntermediateSignatures(n, img);
    BiasSignatures(n);
    if PlainStem(img) {
      CopySignatures(n, img);
    }
    forall a | a in OutputArtifacts(p, std, woc) ensures TailClass(a.path) != 0 {
      KindCodeSignature(n, bias, a.kind);
    }
  }

  /**
   * The side conditions are needed: with `-o` named like the T1, the
   * prediction's standard-orientation twin is the T1's reoriented copy.
   */
  lemma StdTwinCanMeetReorientedT1(n: OutputNames, out: string)
    requires Stem(out) == Stem(n.t1)
    ensures PredictionStdPath(n.subjDir, n.subj, Some(out)) == StdOrientPath(n.subjDir, n.t1)
  {
  }
}
