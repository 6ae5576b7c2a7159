/**
 * `main` of icvmapper/segment/icvmapper.py as a method over the file system:
 * the early exit when the prediction exists, model selection, the model-file
 * checks, the T1 anchor (bias-corrected or converted), the orientation
 * check, the per-modality preprocessing loop filling `test_data`, the
 * Monte-Carlo ensemble, and the output plan. Tools are `Disk.Save` calls;
 * the network is the oracle `draw`, the text `c3d -info` prints is the oracle
 * `info`.
 */
module Pipeline {
  import opened Wrappers
  import opened PosixPath
  import opened Orientation
  import opened Selection
  import opened Inputs
  import opened Storage
  import opened Naming
  import opened Voxels
  import opened Ensemble

  datatype RunError =
    | BadInput(error: InputError)     // parse_inputs exits or raises
    | ModelNotFound(path: string)     // the asserts on the model json and weights
    | NoneImage(call: string)         // a None path reaches a tool, basename or nib.load
    | BadSampleCount(numMc: int)      // np.zeros with a negative sample count (and 0, see README)

  /** `pred_shape = [160, 160, 160]`, flattened. */
  const PredVoxels: nat := 160 * 160 * 160

  /** `'%s' % p`: how a path, or None, is spelled on a tool's command line. */
  function ArgText(p: Option<string>): string {
    if p.None? then "None" else p.value
  }

  /**
   * `check_orient` on the file system: the decision is taken on the text
   * `c3d <in> -info` prints; a reorientation writes `outFile`, and fails when
   * the input path is None (the tool is handed no file).
   */
  method CheckOrientOnDisk(disk: Disk, inFile: Option<string>, outFile: string, info: string -> string)
    returns (r: Result<bool, RunError>)
    modifies disk
    ensures var d := CheckOrient(info(ArgText(inFile)), RightOrient, LeftOrient);
      (d.Keep? ==> r == Success(false)) &&
      (d.Reorient? && inFile.Some? ==> r == Success(true)) &&
      (d.Reorient? && inFile.None? ==> r == Failure(NoneImage("orient_img")))
    ensures r == Success(true) ==>
      disk.log == old(disk.log) + [Artifact(Reoriented, outFile)] && disk.files == old(disk.files) + {outFile}
    ensures r != Success(true) ==> disk.log == old(disk.log) && disk.files == old(disk.files)
  {
    var d := CheckOrient(info(ArgText(inFile)), RightOrient, LeftOrient);
    if d.Keep? {
      return Success(false);
    }
    if inFile.None? {
      return Failure(NoneImage("orient_img"));
    }
    disk.Save(Reoriented, outFile);
    return Success(true);
  }

  /**
   * The image the orientation check runs on (lines 275-283): with `-b` the
   * bias-corrected T1; without, the `.nii.gz` copy of the T1 if it exists,
   * else the copy is written and `in_ort` becomes None (`convert` returns
   * nothing).
   */
  method PrepareAnchor(disk: Disk, subjDir: string, subj: string, t1: string, bias: bool)
    returns (inOrt: Option<string>)
    modifies disk
    ensures bias ==> (inOrt == Some(T1BiasPath(subjDir, subj)) &&
      disk.log == old(disk.log) + [Artifact(BiasCorrected, T1BiasPath(subjDir, subj))] &&
      disk.files == old(disk.files) + {T1BiasPath(subjDir, subj)})
    ensures !bias && ConvertedPath(subjDir, t1) in old(disk.files) ==>
      (inOrt == Some(ConvertedPath(subjDir, t1)) && disk.log == old(disk.log) && disk.files == old(disk.files))
    ensures !bias && ConvertedPath(subjDir, t1) !in old(disk.files) ==>
      (inOrt == None && disk.log == old(disk.log) + [Artifact(Converted, ConvertedPath(subjDir, t1))] &&
       disk.files == old(disk.files) + {ConvertedPath(subjDir, t1)})
    ensures old(disk.files) <= disk.files
  {
    if bias {
      var t1Bias := T1BiasPath(subjDir, subj);
      disk.Save(BiasCorrected, t1Bias);
      inOrt := Some(t1Bias);
    } else {
      var converted := ConvertedPath(subjDir, t1);
      if converted in disk.files {
        inOrt := Some(converted);
      } else {
        disk.Save(Converted, converted);
        inOrt := None;
      }
    }
  }

  /** One pass of the per-modality loop, as far as the file system is concerned. */
  datatype ModalityRun = ModalityRun(
    mod: Modality,
    prep: seq<Artifact>,     // bias correction and reorientation of a secondary image
    source: string,          // the image after the `seq = seq_bias if ... else seq` swap
    inSeq: string,           // what is cropped: the std-orient copy if it exists, else `source`
    crop: string,
    ref: Option<string>,     // the crop a secondary image is resliced onto
    res: string)             // the resampled image loaded into `test_data`

  /** The four intermediates every modality writes, in order. */
  function ConformTail(predDir: string, source: string): (t: seq<Artifact>)
    ensures |t| == 4 && forall a :: a in t ==> IsPreprocessing(a.kind)
  {
    [Artifact(Cropped, Intermediate(predDir, source, CropSuffix)),
     Artifact(Clipped, Intermediate(predDir, source, ClipSuffix)),
     Artifact(Standardized, Intermediate(predDir, source, StdSuffix)),
     Artifact(Resampled, Intermediate(predDir, source, ResSuffix))]
  }

  /** Everything the loop writes, modality after modality. */
  function ConformLog(runs: seq<ModalityRun>, predDir: string): seq<Artifact> {
    if runs == [] then []
    else ConformLog(runs[..|runs| - 1], predDir) + runs[|runs| - 1].prep
         + ConformTail(predDir, runs[|runs| - 1].source)
  }

  /** What a secondary image's bias correction and orientation check write. */
  function SecondaryPrep(seqBias: string, seqOrt: string, bias: bool, reoriented: bool): seq<Artifact> {
    (if bias then [Artifact(BiasCorrected, seqBias)] else [])
    + (if reoriented then [Artifact(Reoriented, seqOrt)] else [])
  }

  /** The files a secondary image's preparation writes. */
  lemma SecondaryPrepPaths(seqBias: string, seqOrt: string, bias: bool, reoriented: bool)
    ensures Paths(SecondaryPrep(seqBias, seqOrt, bias, reoriented)) ==
      (if bias then {seqBias} else {}) + (if reoriented then {seqOrt} else {})
  {
    var b := if bias then [Artifact(BiasCorrected, seqBias)] else [];
    var o := if reoriented then [Artifact(Reoriented, seqOrt)] else [];
    PathsConcat(b, o);
  }

  /** Lines 323-339: crop, clip, standardise and resample one image into the prediction directory. */
  method WriteIntermediates(disk: Disk, predDir: string, source: string)
    modifies disk
    ensures disk.log == old(disk.log) + ConformTail(predDir, source)
    ensures disk.files == old(disk.files) + Paths(ConformTail(predDir, source))
    ensures old(disk.files) <= disk.files
  {
    disk.SaveAll(ConformTail(predDir, source));
  }

  /**
   * What one pass of the loop produces for the modality `mod` found at `path`,
   * as far as it holds whatever files appeared since `oldFiles`: every image
   * is cropped and resampled under its own stem; the T1 is cropped by itself
   * with nothing before; a secondary image is resliced onto the T1's crop,
   * swapped for its bias-corrected file when `-b` is given or that file
   * exists, and cropped from its std-orient copy once the check writes it.
   */
  predicate RunFits(run: ModalityRun, mod: Modality, path: Option<string>, subjDir: string, subj: string,
                    t1: string, predDir: string, bias: bool, ignOrt: bool, info: string -> string,
                    oldFiles: set<string>)
  {
    && run.mod == mod && path.Some?
    && run.crop == Intermediate(predDir, run.source, CropSuffix)
    && run.res == Intermediate(predDir, run.source, ResSuffix)
    && AllPreprocessing(run.prep)
    && (mod == T1 ==>
          && run.source == t1 && run.ref == None && run.prep == []
          && (StdOrientPath(subjDir, t1) in oldFiles ==> run.inSeq == StdOrientPath(subjDir, t1)))
    && (mod != T1 ==>
          && run.ref == Some(Intermediate(predDir, t1, CropSuffix))
          && (run.source == path.value || run.source == SeqBiasPath(subjDir, subj, mod))
          && (bias || SeqBiasPath(subjDir, subj, mod) in oldFiles ==> run.source == SeqBiasPath(subjDir, subj, mod))
          && run.prep == SecondaryPrep(SeqBiasPath(subjDir, subj, mod), StdOrientPath(subjDir, path.value), bias,
                                       SecondaryReoriented(info, ignOrt, run.source))
          && (SecondaryReoriented(info, ignOrt, run.source) || StdOrientPath(subjDir, path.value) in oldFiles ==>
                run.inSeq == StdOrientPath(subjDir, path.value)))
  }

  /**
   * The choices of one pass that depend on exactly which files exist when it
   * starts: the std-orient copy of the T1, the bias-corrected secondary image
   * and the std-orient copy of the secondary image.
   */
  predicate RunChoices(run: ModalityRun, mod: Modality, path: Option<string>, subjDir: string, subj: string,
                       t1: string, bias: bool, ignOrt: bool, info: string -> string, files: set<string>)
  {
    if mod == T1 then
      run.inSeq == (if StdOrientPath(subjDir, t1) in files then StdOrientPath(subjDir, t1) else t1)
    else
      && path.Some?
      && run.source == (if bias || SeqBiasPath(subjDir, subj, mod) in files then SeqBiasPath(subjDir, subj, mod)
                        else path.value)
      && run.inSeq == (if SecondaryReoriented(info, ignOrt, run.source) || StdOrientPath(subjDir, path.value) in files
                       then StdOrientPath(subjDir, path.value) else run.source)
  }

  /** The T1 pass of the loop: cropped by itself, from its std-orient copy if one exists, else from the raw T1. */
  method ConformT1(disk: Disk, subjDir: string, subj: string, t1: string, predDir: string,
                   bias: bool, ignOrt: bool, info: string -> string) returns (run: ModalityRun)
    modifies disk
    ensures run.mod == T1 && run.source == t1 && run.ref == None && run.prep == []
    ensures run.crop == Intermediate(predDir, t1, CropSuffix) && run.res == Intermediate(predDir, t1, ResSuffix)
    ensures run.inSeq == (if StdOrientPath(subjDir, t1) in old(disk.files) then StdOrientPath(subjDir, t1) else t1)
    ensures disk.log == old(disk.log) + ConformTail(predDir, t1)
    ensures disk.files == old(disk.files) + Paths(ConformTail(predDir, t1))
    ensures old(disk.files) <= disk.files
    ensures RunFits(run, T1, Some(t1), subjDir, subj, t1, predDir, bias, ignOrt, info, old(disk.files))
    ensures RunChoices(run, T1, Some(t1), subjDir, subj, t1, bias, ignOrt, info, old(disk.files))
  {
    var seqOrt := StdOrientPath(subjDir, t1);
    var inSeq := if seqOrt in disk.files then seqOrt else t1;
    WriteIntermediates(disk, predDir, t1);
    run := ModalityRun(T1, [], t1, inSeq, Intermediate(predDir, t1, CropSuffix), None,
                       Intermediate(predDir, t1, ResSuffix));
  }

  /** `check_orient` on a secondary image decides to reorient it (and `-ignore_orient` is not given). */
  predicate SecondaryReoriented(info: string -> string, ignOrt: bool, source: string) {
    !ignOrt && CheckOrient(info(source), RightOrient, LeftOrient).Reorient?
  }

  /**
   * The start of a FLAIR or T2 pass (lines 310-320): bias-corrected with
   * `-b`, swapped for its bias-corrected file when that exists, and checked
   * for orientation, whose result is not used.
   */
  method PrepareSecondary(disk: Disk, seqBias: string, seqOrt: string, path: string,
                          bias: bool, ignOrt: bool, info: string -> string)
    returns (source: string, prep: seq<Artifact>)
    modifies disk
    ensures source == path || source == seqBias
    ensures bias || seqBias in old(disk.files) ==> source == seqBias
    ensures !bias && seqBias !in old(disk.files) ==> source == path
    ensures prep == SecondaryPrep(seqBias, seqOrt, bias, SecondaryReoriented(info, ignOrt, source))
    ensures disk.files == old(disk.files) + (if bias then {seqBias} else {})
                          + (if SecondaryReoriented(info, ignOrt, source) then {seqOrt} else {})
    ensures disk.files == old(disk.files) + Paths(prep)
    ensures disk.log == old(disk.log) + prep
  {
    if bias {
      disk.Save(BiasCorrected, seqBias);
    }
    source := if seqBias in disk.files then seqBias else path;
    var reoriented := false;
    if !ignOrt {
      var c := CheckOrientOnDisk(disk, Some(source), seqOrt, info);
      reoriented := c == Success(true);
    }
    prep := SecondaryPrep(seqBias, seqOrt, bias, reoriented);
    SecondaryPrepPaths(seqBias, seqOrt, bias, reoriented);
  }

  /** The exact choices of a secondary pass make it fit its modality. */
  lemma SecondaryRunFits(run: ModalityRun, mod: Modality, path: string, subjDir: string, subj: string,
                         t1: string, predDir: string, bias: bool, ignOrt: bool, info: string -> string,
                         files: set<string>)
    requires mod != T1 && run.mod == mod && run.ref == Some(Intermediate(predDir, t1, CropSuffix))
    requires run.crop == Intermediate(predDir, run.source, CropSuffix)
    requires run.res == Intermediate(predDir, run.source, ResSuffix)
    requires run.prep == SecondaryPrep(SeqBiasPath(subjDir, subj, mod), StdOrientPath(subjDir, path), bias,
                                       SecondaryReoriented(info, ignOrt, run.source))
    requires RunChoices(run, mod, Some(path), subjDir, subj, t1, bias, ignOrt, info, files)
    ensures RunFits(run, mod, Some(path), subjDir, subj, t1, predDir, bias, ignOrt, info, files)
  {
    forall i | 0 <= i < |run.prep| ensures IsPreprocessing(run.prep[i].kind) {
    }
  }

  /** What a secondary pass leaves behind, given what its preparation and its intermediates wrote. */
  lemma SecondaryPass(files0: set<string>, files1: set<string>, files2: set<string>,
                      log0: seq<Artifact>, log1: seq<Artifact>, log2: seq<Artifact>, run: ModalityRun,
                      mod: Modality, path: string, subjDir: string, subj: string,
                      t1: string, predDir: string, bias: bool, ignOrt: bool, info: string -> string)
    requires mod != T1
    requires run.source == path || run.source == SeqBiasPath(subjDir, subj, mod)
    requires bias || SeqBiasPath(subjDir, subj, mod) in files0 ==> run.source == SeqBiasPath(subjDir, subj, mod)
    requires !bias && SeqBiasPath(subjDir, subj, mod) !in files0 ==> run.source == path
    requires run.prep == SecondaryPrep(SeqBiasPath(subjDir, subj, mod), StdOrientPath(subjDir, path), bias,
                                       SecondaryReoriented(info, ignOrt, run.source))
    requires files1 == files0 + (if bias then {SeqBiasPath(subjDir, subj, mod)} else {})
                      + (if SecondaryReoriented(info, ignOrt, run.source) then {StdOrientPath(subjDir, path)} else {})
    requires files1 == files0 + Paths(run.prep) && log1 == log0 + run.prep
    requires run == ModalityRun(mod, run.prep, run.source,
                                if StdOrientPath(subjDir, path) in files1 then StdOrientPath(subjDir, path) else run.source,
                                Intermediate(predDir, run.source, CropSuffix), Some(Intermediate(predDir, t1, CropSuffix)),
                                Intermediate(predDir, run.source, ResSuffix))
    requires log2 == log1 + ConformTail(predDir, run.source)
    requires files2 == files1 + Paths(ConformTail(predDir, run.source))
    ensures run.inSeq == if SecondaryReoriented(info, ignOrt, run.source) || StdOrientPath(subjDir, path) in files0
                         then StdOrientPath(subjDir, path) else run.source
    ensures log2 == log0 + run.prep + ConformTail(predDir, run.source)
    ensures files2 == files0 + Paths(run.prep + ConformTail(predDir, run.source))
    ensures files0 <= files2
    ensures RunFits(run, mod, Some(path), subjDir, subj, t1, predDir, bias, ignOrt, info, files0)
    ensures RunChoices(run, mod, Some(path), subjDir, subj, t1, bias, ignOrt, info, files0)
  {
    StdOrientIsNotSeqBias(subjDir, subj, path, mod);
    assert RunChoices(run, mod, Some(path), subjDir, subj, t1, bias, ignOrt, info, files0);
    SecondaryRunFits(run, mod, path, subjDir, subj, t1, predDir, bias, ignOrt, info, files0);
    AddPaths(files0, files1, files2, run.prep, ConformTail(predDir, run.source));
  }

  /**
   * A FLAIR or T2 pass: prepared, then resliced onto the T1's crop. What is
   * cropped is the std-orient copy when the check wrote it or it was there
   * before, else the image itself (line 319).
   */
  method ConformSecondary(disk: Disk, mod: Modality, path: string, subjDir: string, subj: string,
                          t1: string, predDir: string, bias: bool, ignOrt: bool, info: string -> string)
    returns (run: ModalityRun)
    requires mod != T1
    modifies disk
    ensures run.mod == mod && run.ref == Some(Intermediate(predDir, t1, CropSuffix))
    ensures run.crop == Intermediate(predDir, run.source, CropSuffix) && run.res == Intermediate(predDir, run.source, ResSuffix)
    ensures run.source == path || run.source == SeqBiasPath(subjDir, subj, mod)
    ensures bias || SeqBiasPath(subjDir, subj, mod) in old(disk.files) ==> run.source == SeqBiasPath(subjDir, subj, mod)
    ensures !bias && SeqBiasPath(subjDir, subj, mod) !in old(disk.files) ==> run.source == path
    ensures run.prep == SecondaryPrep(SeqBiasPath(subjDir, subj, mod), StdOrientPath(subjDir, path), bias,
                                      SecondaryReoriented(info, ignOrt, run.source))
    ensures run.inSeq == if SecondaryReoriented(info, ignOrt, run.source) || StdOrientPath(subjDir, path) in old(disk.files)
                         then StdOrientPath(subjDir, path) else run.source
    ensures disk.log == old(disk.log) + run.prep + ConformTail(predDir, run.source)
    ensures disk.files == old(disk.files) + Paths(run.prep + ConformTail(predDir, run.source))
    ensures old(disk.files) <= disk.files
    ensures RunFits(run, mod, Some(path), subjDir, subj, t1, predDir, bias, ignOrt, info, old(disk.files))
    ensures RunChoices(run, mod, Some(path), subjDir, subj, t1, bias, ignOrt, info, old(disk.files))
  {
    var seqOrt := StdOrientPath(subjDir, path);
    var source, prep := PrepareSecondary(disk, SeqBiasPath(subjDir, subj, mod), seqOrt, path, bias, ignOrt, info);
    var inSeq := if seqOrt in disk.files then seqOrt else source;
    run := ModalityRun(mod, prep, source, inSeq, Intermediate(predDir, source, CropSuffix),
                       Some(Intermediate(predDir, t1, CropSuffix)), Intermediate(predDir, source, ResSuffix));
    ghost var prepared, logged := disk.files, disk.log;
    WriteIntermediates(disk, predDir, source);
    SecondaryPass(old(disk.files), prepared, disk.files, old(disk.log), logged, disk.log, run, mod, path,
                  subjDir, subj, t1, predDir, bias, ignOrt, info);
  }

  /** No artifact of the loop is an output. */
  lemma {:induction false} ConformLogIsPreprocessing(runs: seq<ModalityRun>, predDir: string)
    requires forall i :: 0 <= i < |runs| ==> AllPreprocessing(runs[i].prep)
    ensures AllPreprocessing(ConformLog(runs, predDir))
  {
    if runs != [] {
      var last := runs[|runs| - 1];
      ConformLogIsPreprocessing(runs[..|runs| - 1], predDir);
      assert AllPreprocessing(last.prep);
      assert AllPreprocessing(ConformTail(predDir, last.source)) by {
        forall i | 0 <= i < 4 ensures IsPreprocessing(ConformTail(predDir, last.source)[i].kind) {
          assert ConformTail(predDir, last.source)[i] in ConformTail(predDir, last.source);
        }
      }
      AllPreprocessingConcat(ConformLog(runs[..|runs| - 1], predDir), last.prep);
      AllPreprocessingConcat(ConformLog(runs[..|runs| - 1], predDir) + last.prep, ConformTail(predDir, last.source));
    }
  }

  lemma AppendAssoc(a: seq<Artifact>, b: seq<Artifact>, c: seq<Artifact>)
    ensures (a + b) + c == a + (b + c)
  {
  }

  lemma ConformLogSnoc(runs: seq<ModalityRun>, run: ModalityRun, predDir: string)
    ensures ConformLog(runs + [run], predDir) == ConformLog(runs, predDir) + (run.prep + ConformTail(predDir, run.source))
  {
    assert (runs + [run])[..|runs|] == runs;
  }

  /** A run that fits a later file system fits an earlier one. */
  lemma RunFitsEarlier(run: ModalityRun, mod: Modality, path: Option<string>, subjDir: string, subj: string,
                       t1: string, predDir: string, bias: bool, ignOrt: bool, info: string -> string,
                       earlier: set<string>, later: set<string>)
    requires earlier <= later
    requires RunFits(run, mod, path, subjDir, subj, t1, predDir, bias, ignOrt, info, later)
    ensures RunFits(run, mod, path, subjDir, subj, t1, predDir, bias, ignOrt, info, earlier)
  {
  }

  /** One pass of the loop: the T1 pass or a secondary pass, by modality; a None path fails at `basename`. */
  method ConformStep(disk: Disk, mod: Modality, path: Option<string>, subjDir: string, subj: string,
                     t1: string, predDir: string, bias: bool, ignOrt: bool, info: string -> string)
    returns (r: Result<ModalityRun, RunError>)
    requires mod == T1 ==> path == Some(t1)
    modifies disk
    ensures r.Failure? <==> path.None?
    ensures r.Failure? ==> r.error == NoneImage("basename") && disk.log == old(disk.log)
    ensures r.Success? ==> RunFits(r.value, mod, path, subjDir, subj, t1, predDir, bias, ignOrt, info, old(disk.files))
    ensures r.Success? ==> RunChoices(r.value, mod, path, subjDir, subj, t1, bias, ignOrt, info, old(disk.files))
    ensures r.Success? ==> disk.log == old(disk.log) + r.value.prep + ConformTail(predDir, r.value.source)
    ensures r.Success? ==> disk.files == old(disk.files) + Paths(r.value.prep + ConformTail(predDir, r.value.source))
    ensures r.Failure? ==> disk.files == old(disk.files)
    ensures old(disk.files) <= disk.files
  {
    if mod == T1 {
      var run := ConformT1(disk, subjDir, subj, t1, predDir, bias, ignOrt, info);
      assert run.prep + ConformTail(predDir, t1) == ConformTail(predDir, t1);
      return Success(run);
    }
    if path.None? {
      return Failure(NoneImage("basename"));
    }
    var run := ConformSecondary(disk, mod, path.value, subjDir, subj, t1, predDir, bias, ignOrt, info);
    return Success(run);
  }

  /** The runs made so far fit the first `|runs|` entries of the selected modality list. */
  predicate RunsFit(runs: seq<ModalityRun>, mods: seq<Modality>, seqs: seq<Option<string>>, subjDir: string,
                    subj: string, t1: string, predDir: string, bias: bool, ignOrt: bool,
                    info: string -> string, oldFiles: set<string>)
  {
    && |runs| <= |mods| && |runs| <= |seqs|
    && (runs != [] ==>
          && RunsFit(runs[..|runs| - 1], mods, seqs, subjDir, subj, t1, predDir, bias, ignOrt, info, oldFiles)
          && RunFits(runs[|runs| - 1], mods[|runs| - 1], seqs[|runs| - 1], subjDir, subj, t1, predDir, bias, ignOrt,
                     info, oldFiles))
  }

  /** Run `i` fits entry `i`. */
  lemma {:induction false} RunsFitAt(runs: seq<ModalityRun>, mods: seq<Modality>, seqs: seq<Option<string>>,
                                     subjDir: string, subj: string, t1: string, predDir: string, bias: bool,
                                     ignOrt: bool, info: string -> string, oldFiles: set<string>, i: int)
    requires RunsFit(runs, mods, seqs, subjDir, subj, t1, predDir, bias, ignOrt, info, oldFiles)
    requires 0 <= i < |runs|
    ensures RunFits(runs[i], mods[i], seqs[i], subjDir, subj, t1, predDir, bias, ignOrt, info, oldFiles)
  {
    if i < |runs| - 1 {
      RunsFitAt(runs[..|runs| - 1], mods, seqs, subjDir, subj, t1, predDir, bias, ignOrt, info, oldFiles, i);
    }
  }

  /** Every entry the runs cover named an image. */
  lemma {:induction false} RunsFitFound(runs: seq<ModalityRun>, mods: seq<Modality>, seqs: seq<Option<string>>,
                                        subjDir: string, subj: string, t1: string, predDir: string, bias: bool,
                                        ignOrt: bool, info: string -> string, oldFiles: set<string>)
    requires RunsFit(runs, mods, seqs, subjDir, subj, t1, predDir, bias, ignOrt, info, oldFiles)
    ensures forall i :: 0 <= i < |runs| ==> seqs[i].Some?
  {
    forall i | 0 <= i < |runs| ensures seqs[i].Some? {
      RunsFitAt(runs, mods, seqs, subjDir, subj, t1, predDir, bias, ignOrt, info, oldFiles, i);
    }
  }

  /** Appending a run that fits the next entry keeps the runs fitting. */
  lemma RunsFitSnoc(runs: seq<ModalityRun>, run: ModalityRun, mods: seq<Modality>, seqs: seq<Option<string>>,
                    subjDir: string, subj: string, t1: string, predDir: string, bias: bool, ignOrt: bool,
                    info: string -> string, oldFiles: set<string>)
    requires |runs| < |mods| == |seqs|
    requires RunsFit(runs, mods, seqs, subjDir, subj, t1, predDir, bias, ignOrt, info, oldFiles)
    requires RunFits(run, mods[|runs|], seqs[|runs|], subjDir, subj, t1, predDir, bias, ignOrt, info, oldFiles)
    ensures RunsFit(runs + [run], mods, seqs, subjDir, subj, t1, predDir, bias, ignOrt, info, oldFiles)
  {
    assert (runs + [run])[..|runs|] == runs;
  }

  /** Appending one fitting run keeps the runs fitting and the log in step with them. */
  lemma ExtendRuns(runs: seq<ModalityRun>, run: ModalityRun, mods: seq<Modality>, seqs: seq<Option<string>>,
                   subjDir: string, subj: string, t1: string, predDir: string, bias: bool, ignOrt: bool,
                   info: string -> string, oldFiles: set<string>, before: set<string>, oldLog: seq<Artifact>, pre: seq<Artifact>, post: seq<Artifact>)
    requires |runs| < |mods| == |seqs|
    requires RunsFit(runs, mods, seqs, subjDir, subj, t1, predDir, bias, ignOrt, info, oldFiles)
    requires oldFiles <= before
    requires RunFits(run, mods[|runs|], seqs[|runs|], subjDir, subj, t1, predDir, bias, ignOrt, info, before)
    requires pre == oldLog + ConformLog(runs, predDir)
    requires post == pre + run.prep + ConformTail(predDir, run.source)
    ensures (runs + [run])[..|runs|] == runs
    ensures RunsFit(runs + [run], mods, seqs, subjDir, subj, t1, predDir, bias, ignOrt, info, oldFiles)
    ensures post == oldLog + ConformLog(runs + [run], predDir)
  {
    var s := |runs|;
    RunFitsEarlier(run, mods[s], seqs[s], subjDir, subj, t1, predDir, bias, ignOrt, info, oldFiles, before);
    AppendAssoc(pre, run.prep, ConformTail(predDir, run.source));
    ConformLogSnoc(runs, run, predDir);
    AppendAssoc(oldLog, ConformLog(runs, predDir), run.prep + ConformTail(predDir, run.source));
    RunsFitSnoc(runs, run, mods, seqs, subjDir, subj, t1, predDir, bias, ignOrt, info, oldFiles);
    assert (runs + [run])[..s] == runs;
  }

  /** Runs that fit a later file system fit an earlier one. */
  lemma {:induction false} RunsFitEarlier(runs: seq<ModalityRun>, mods: seq<Modality>, seqs: seq<Option<string>>, subjDir: string,
                       subj: string, t1: string, predDir: string, bias: bool, ignOrt: bool,
                       info: string -> string, earlier: set<string>, later: set<string>)
    requires earlier <= later
    requires RunsFit(runs, mods, seqs, subjDir, subj, t1, predDir, bias, ignOrt, info, later)
    ensures RunsFit(runs, mods, seqs, subjDir, subj, t1, predDir, bias, ignOrt, info, earlier)
  {
    if runs != [] {
      var n := |runs| - 1;
      RunsFitEarlier(runs[..n], mods, seqs, subjDir, subj, t1, predDir, bias, ignOrt, info, earlier, later);
      RunFitsEarlier(runs[n], mods[n], seqs[n], subjDir, subj, t1, predDir, bias, ignOrt, info, earlier, later);
    }
  }

  /** The resampled image of each run, in order: the channels of `test_data`. */
  function Channels(runs: seq<ModalityRun>): (c: seq<string>)
    ensures |c| == |runs|
  {
    if runs == [] then [] else Channels(runs[..|runs| - 1]) + [runs[|runs| - 1].res]
  }

  /** Channel `i` is the resampled image of run `i`. */
  lemma {:induction false} ChannelAt(runs: seq<ModalityRun>, i: int)
    requires 0 <= i < |runs|
    ensures Channels(runs)[i] == runs[i].res
  {
    if i < |runs| - 1 {
      ChannelAt(runs[..|runs| - 1], i);
    }
  }

  /** `test_data[..., s] = ...`: the channel of the run for entry `s` is stored in slot `s`. */
  method RecordChannel(testData: array<string>, runs: seq<ModalityRun>, run: ModalityRun)
    requires |runs| < testData.Length
    requires testData[..|runs|] == Channels(runs)
    modifies testData
    ensures testData[..|runs| + 1] == Channels(runs + [run])
  {
    var s := |runs|;
    testData[s] := run.res;
    assert (runs + [run])[..s] == runs;
    assert testData[..s + 1] == testData[..s] + [testData[s]];
  }

  /** The files on disk after one more pass are those before the loop plus the paths of its log. */
  lemma FilesAfterRun(files0: set<string>, files1: set<string>, files2: set<string>, runs: seq<ModalityRun>,
                      run: ModalityRun, predDir: string)
    requires files1 == files0 + Paths(ConformLog(runs, predDir))
    requires files2 == files1 + Paths(run.prep + ConformTail(predDir, run.source))
    ensures files2 == files0 + Paths(ConformLog(runs + [run], predDir))
  {
    ConformLogSnoc(runs, run, predDir);
    PathsConcat(ConformLog(runs, predDir), run.prep + ConformTail(predDir, run.source));
  }

  /**
   * One pass of the loop, seen from the loop: the runs so far are extended by
   * the run for entry `|runs|`, its channel is stored, and the log grows by
   * that run's files.
   */
  method ConformNext(disk: Disk, testData: array<string>, runs: seq<ModalityRun>, mods: seq<Modality>,
                     seqs: seq<Option<string>>, subjDir: string, subj: string, t1: string, predDir: string,
                     bias: bool, ignOrt: bool, info: string -> string,
                     ghost oldFiles: set<string>, ghost oldLog: seq<Artifact>)
    returns (r: Result<seq<ModalityRun>, RunError>)
    requires |runs| < |mods| == |seqs| == testData.Length
    requires mods[|runs|] == T1 ==> seqs[|runs|] == Some(t1)
    requires testData[..|runs|] == Channels(runs)
    requires RunsFit(runs, mods, seqs, subjDir, subj, t1, predDir, bias, ignOrt, info, oldFiles)
    requires oldFiles <= disk.files && disk.log == oldLog + ConformLog(runs, predDir)
    requires disk.files == oldFiles + Paths(ConformLog(runs, predDir))
    modifies disk, testData
    ensures r.Failure? <==> seqs[|runs|].None?
    ensures r.Failure? ==> r.error == NoneImage("basename") && disk.log == old(disk.log)
    ensures r.Success? ==> |r.value| == |runs| + 1 && r.value == runs + [r.value[|runs|]]
    ensures r.Success? ==> testData[..|r.value|] == Channels(r.value)
    ensures r.Success? ==> RunsFit(r.value, mods, seqs, subjDir, subj, t1, predDir, bias, ignOrt, info, oldFiles)
    ensures r.Success? ==> RunChoices(r.value[|runs|], mods[|runs|], seqs[|runs|], subjDir, subj, t1,
                                      bias, ignOrt, info, old(disk.files))
    ensures r.Success? ==> disk.log == oldLog + ConformLog(r.value, predDir)
    ensures r.Success? ==> disk.files == oldFiles + Paths(ConformLog(r.value, predDir))
    ensures r.Failure? ==> disk.files == old(disk.files)
    ensures oldFiles <= disk.files
  {
    ghost var before, pre := disk.files, disk.log;
    var step := ConformStep(disk, mods[|runs|], seqs[|runs|], subjDir, subj, t1, predDir, bias, ignOrt, info);
    if step.Failure? {
      return Failure(step.error);
    }
    ExtendRuns(runs, step.value, mods, seqs, subjDir, subj, t1, predDir, bias, ignOrt, info, oldFiles, before, oldLog, pre, disk.log);
    FilesAfterRun(oldFiles, before, disk.files, runs, step.value, predDir);
    RecordChannel(testData, runs, step.value);
    return Success(runs + [step.value]);
  }

  /**
   * The per-modality loop (lines 301-346): `test_data` gets one channel per
   * modality, in the order of the selected list, T1 first; every secondary
   * image is resliced onto the crop the T1 pass wrote. A None secondary path
   * stops the loop.
   */
  method Conform(disk: Disk, choice: Choice, subjDir: string, subj: string, t1: string, predDir: string,
                 bias: bool, ignOrt: bool, info: string -> string)
    returns (r: Result<seq<ModalityRun>, RunError>, testData: array<string>)
    requires |choice.mods| == |choice.seqs| >= 1 && choice.mods[0] == T1 && choice.seqs[0] == Some(t1)
    requires forall i :: 0 < i < |choice.mods| ==> choice.mods[i] != T1
    modifies disk
    ensures fresh(testData) && testData.Length == |choice.mods|
    ensures r.Success? <==> forall i :: 0 <= i < |choice.seqs| ==> choice.seqs[i].Some?
    ensures r.Failure? ==> r.error == NoneImage("basename")
    ensures r.Success? ==> |r.value| == |choice.mods|
    ensures r.Success? ==> testData[..] == Channels(r.value)
    ensures r.Success? ==> RunsFit(r.value, choice.mods, choice.seqs, subjDir, subj, t1, predDir, bias, ignOrt, info, old(disk.files))
    ensures r.Success? ==> disk.log == old(disk.log) + ConformLog(r.value, predDir)
    ensures r.Success? ==> disk.files == old(disk.files) + Paths(ConformLog(r.value, predDir))
    ensures old(disk.log) <= disk.log && disk.files == old(disk.files) + Paths(disk.log[|old(disk.log)|..])
    ensures old(disk.files) <= disk.files
  {
    var mods, seqs := choice.mods, choice.seqs;
    testData := new string[|mods|];
    var runs: seq<ModalityRun> := [];
    while |runs| < |mods|
      invariant |runs| <= |mods|
      invariant testData[..|runs|] == Channels(runs)
      invariant RunsFit(runs, mods, seqs, subjDir, subj, t1, predDir, bias, ignOrt, info, old(disk.files))
      invariant disk.log == old(disk.log) + ConformLog(runs, predDir)
      invariant disk.files == old(disk.files) + Paths(ConformLog(runs, predDir))
      invariant old(disk.files) <= disk.files
    {
      var next := ConformNext(disk, testData, runs, mods, seqs, subjDir, subj, t1, predDir, bias, ignOrt, info,
                              old(disk.files), old(disk.log));
      if next.Failure? {
        SliceAfter(old(disk.log), ConformLog(runs, predDir));
        return Failure(next.error), testData;
      }
      runs := next.value;
    }
    assert testData[..] == testData[..|runs|];
    RunsFitFound(runs, mods, seqs, subjDir, subj, t1, predDir, bias, ignOrt, info, old(disk.files));
    SliceAfter(old(disk.log), ConformLog(runs, predDir));
    return Success(runs), testData;
  }

  /** The four outputs written before the prediction, in order. */
  function InferenceArtifacts(p: OutputPaths): seq<Artifact> {
    [Artifact(MeanProb, p.meanProb), Artifact(ModelMask, p.modelMask),
     Artifact(NativeProb, p.nativeProb), Artifact(Component, p.component)]
  }

  /**
   * Lines 386-396: the prediction, via its standard-orientation twin and
   * `copy_orient` when `std`. `copy_orient` is handed `in_ort`, so it fails
   * when `in_ort` is None (`inOrtKnown` false).
   */
  method WritePrediction(disk: Disk, p: OutputPaths, std: bool, inOrtKnown: bool) returns (ok: bool)
    modifies disk
    ensures ok == (inOrtKnown || !std)
    ensures std && ok ==> disk.log == old(disk.log) + [Artifact(PredStdOrient, p.predStd), Artifact(Prediction, p.pred)]
    ensures std && !ok ==> disk.log == old(disk.log) + [Artifact(PredStdOrient, p.predStd)]
    ensures !std ==> disk.log == old(disk.log) + [Artifact(Prediction, p.pred)]
    ensures std && ok ==> disk.files == old(disk.files) + {p.predStd, p.pred}
    ensures std && !ok ==> disk.files == old(disk.files) + {p.predStd}
    ensures !std ==> disk.files == old(disk.files) + {p.pred}
  {
    if std {
      disk.Save(PredStdOrient, p.predStd);
      if !inOrtKnown {
        return false;
      }
    }
    disk.Save(Prediction, p.pred);
    return true;
  }

  /**
   * Lines 366-410: the primary outputs. The mean map, the model's mask, the
   * native-space probability and the largest component are saved, then the
   * prediction, then the masked T1s, which load `in_ort`. `inOrtKnown` is
   * whether `in_ort` is a path: when it is None the first tool or load
   * handed it fails, after five files were written on either branch.
   */
  method WritePrimary(disk: Disk, p: OutputPaths, std: bool, inOrtKnown: bool) returns (ok: bool)
    modifies disk
    ensures ok == inOrtKnown
    ensures ok ==> disk.log == old(disk.log) + PrimaryArtifacts(p, std)
    ensures !ok ==> disk.log == old(disk.log) + PrimaryArtifacts(p, std)[..5]
    ensures ok ==> disk.files == old(disk.files) + Paths(PrimaryArtifacts(p, std))
    ensures !ok ==> disk.files == old(disk.files) + Paths(PrimaryArtifacts(p, std)[..5])
  {
    ghost var pred := if std then [Artifact(PredStdOrient, p.predStd), Artifact(Prediction, p.pred)]
                      else [Artifact(Prediction, p.pred)];
    var masks := if std then [Artifact(MaskedT1, p.masked), Artifact(MaskedT1Std, p.maskedStd)]
                 else [Artifact(MaskedT1, p.masked)];
    disk.SaveAll(InferenceArtifacts(p));
    ghost var inferred := disk.files;
    ok := WritePrediction(disk, p, std, inOrtKnown);
    if !ok || !inOrtKnown {
      assert PrimaryArtifacts(p, std)[..5] == InferenceArtifacts(p) + [PrimaryArtifacts(p, std)[4]];
      AppendAssoc(old(disk.log), InferenceArtifacts(p), [PrimaryArtifacts(p, std)[4]]);
      assert Paths([PrimaryArtifacts(p, std)[4]]) == {PrimaryArtifacts(p, std)[4].path};
      AddPaths(old(disk.files), inferred, disk.files, InferenceArtifacts(p), [PrimaryArtifacts(p, std)[4]]);
      ok := false;
      return;
    }
    AppendAssoc(old(disk.log), InferenceArtifacts(p), pred);
    PathsConcat(pred[..|pred| - 1], [pred[|pred| - 1]]);
    assert pred[..|pred| - 1] + [pred[|pred| - 1]] == pred;
    AddPaths(old(disk.files), inferred, disk.files, InferenceArtifacts(p), pred);
    ghost var predicted := disk.files;
    disk.SaveAll(masks);
    AddPaths(old(disk.files), predicted, disk.files, InferenceArtifacts(p) + pred, masks);
    assert PrimaryArtifacts(p, std) == (InferenceArtifacts(p) + pred) + masks by {
      if std {
        assert |PrimaryArtifacts(p, std)| == 8;
      } else {
        assert |PrimaryArtifacts(p, std)| == 6;
      }
    }
    AppendAssoc(old(disk.log), InferenceArtifacts(p) + pred, masks);
  }

  /**
   * Lines 412-466, run only with `rmcereb == 1` and a known `in_ort`: the
   * cerebellum probability and mask, the cerebellum-free component, the
   * cerebellum-free prediction (through its standard-orientation twin when
   * `std`), and the T1 masked by it.
   */
  method WriteCerebellum(disk: Disk, p: OutputPaths, std: bool)
    modifies disk
    ensures disk.log == old(disk.log) + CerebellumArtifacts(p, std)
    ensures disk.files == old(disk.files) + Paths(CerebellumArtifacts(p, std))
  {
    disk.SaveAll([Artifact(CerebProb, p.cerebProb), Artifact(CerebMask, p.cerebMask),
                  Artifact(WocComponent, p.wocComponent)]);
    ghost var written := [Artifact(CerebProb, p.cerebProb), Artifact(CerebMask, p.cerebMask),
                          Artifact(WocComponent, p.wocComponent)];
    if std {
      disk.Save(WocPredStd, p.wocPredStd);
      PathsSnoc(written, Artifact(WocPredStd, p.wocPredStd));
      written := written + [Artifact(WocPredStd, p.wocPredStd)];
    }
    disk.Save(WocPred, p.wocPred);
    PathsSnoc(written, Artifact(WocPred, p.wocPred));
    written := written + [Artifact(WocPred, p.wocPred)];
    disk.Save(MaskedWoc, p.maskedWoc);
    PathsSnoc(written, Artifact(MaskedWoc, p.maskedWoc));
    written := written + [Artifact(MaskedWoc, p.maskedWoc)];
    if std {
      disk.Save(MaskedWocStd, p.maskedWocStd);
      PathsSnoc(written, Artifact(MaskedWocStd, p.maskedWocStd));
      written := written + [Artifact(MaskedWocStd, p.maskedWocStd)];
    }
    assert written == CerebellumArtifacts(p, std);
  }

  /** Once the outputs are written after the preprocessing files, the prediction exists. */
  lemma PredictionOnDisk(files0: set<string>, files1: set<string>, prep: seq<Artifact>, p: OutputPaths,
                         std: bool, woc: int)
    requires files1 == files0 + Paths(prep + OutputArtifacts(p, std, woc))
    ensures p.pred in files1
  {
    PredictionWrittenOnce(p, std, woc);
    PathsHas(prep + OutputArtifacts(p, std, woc), Artifact(Prediction, p.pred));
  }

  /** Everything written after inference, stopping where a None `in_ort` is first used. */
  method WriteOutputs(disk: Disk, p: OutputPaths, std: bool, woc: int, inOrtKnown: bool) returns (ok: bool)
    modifies disk
    ensures ok == inOrtKnown
    ensures ok ==> disk.log == old(disk.log) + OutputArtifacts(p, std, woc)
    ensures !ok ==> disk.log == old(disk.log) + OutputArtifacts(p, std, woc)[..5]
    ensures ok ==> disk.files == old(disk.files) + Paths(OutputArtifacts(p, std, woc))
    ensures !ok ==> disk.files == old(disk.files) + Paths(OutputArtifacts(p, std, woc)[..5])
  {
    OutputSplit(p, std, woc);
    ok := WritePrimary(disk, p, std, inOrtKnown);
    if !ok {
      assert OutputArtifacts(p, std, woc)[..5] == PrimaryArtifacts(p, std)[..5];
      return;
    }
    if woc == 1 {
      ghost var primary := disk.files;
      WriteCerebellum(disk, p, std);
      AppendAssoc(old(disk.log), PrimaryArtifacts(p, std), CerebellumArtifacts(p, std));
      AddPaths(old(disk.files), primary, disk.files, PrimaryArtifacts(p, std), CerebellumArtifacts(p, std));
    } else {
      assert PrimaryArtifacts(p, std) + [] == PrimaryArtifacts(p, std);
    }
  }
}
