/**
 * `main` of icvmapper/segment/icvmapper.py from end to end: the decisions
 * taken before anything is written (`Prepare`), then the run on the file
 * system (`Segment`). The install directory the models live in is the
 * parameter `hyperDir`.
 */
module Driver {
  import opened Wrappers
  import opened PosixPath
  import opened Orientation
  import opened Selection
  import opened Inputs
  import opened Storage
  import opened Naming
  import opened Voxels
  import opened Ensemble
  import opened Pipeline

  /** What `main` has decided once the model files are found. */
  datatype Setup = Setup(
    inp: Inputs, prediction: string, predictionStd: string, choice: Choice,
    modelJson: string, modelWeights: string, predDir: string)

  /** Whether `main` stops at the existing prediction or goes on. */
  datatype Start = Skip(prediction: string) | Proceed(setup: Setup)

  /**
   * Lines 212-270, which write nothing: the inputs are parsed, an existing
   * prediction ends the run unless `-f` is given, the model is selected
   * from the images given, and both of its files must exist.
   */
  function Prepare(args: Args, env: Env, files: set<string>, hyperDir: string): (r: Result<Start, RunError>)
    ensures r.Failure? && r.error.BadInput? <==> ParseInputs(args, env, files).Failure?
    ensures r.Failure? && r.error.BadInput? ==> r.error.error == ParseInputs(args, env, files).error
    ensures ParseInputs(args, env, files).Success? ==>
      var inp := ParseInputs(args, env, files).value;
      var prediction := PredictionPath(inp.subjDir, inp.subj, args.out);
      (r == Success(Skip(prediction)) <==> prediction in files && !args.force)
    ensures r.Failure? && r.error.ModelNotFound? ==> r.error.path !in files
    ensures r.Failure? ==> r.error.BadInput? || r.error.ModelNotFound?
    ensures r.Success? && r.value.Proceed? ==>
      var s := r.value.setup;
      && s.inp == ParseInputs(args, env, files).value
      && (s.prediction !in files || args.force)
      && s.choice == SelectModel(s.inp.t1, s.inp.fl, s.inp.t2)
      && s.modelJson in files && s.modelWeights in files
      && s.modelJson == ModelJson(hyperDir, s.choice.model)
      && s.modelWeights == ModelWeights(hyperDir, s.choice.model)
      && s.predDir == PredDir(Abspath(env.cwd, s.inp.subjDir))
  {
    match ParseInputs(args, env, files)
    case Failure(e) => Failure(BadInput(e))
    case Success(inp) =>
      var prediction := PredictionPath(inp.subjDir, inp.subj, inp.out);
      if prediction in files && !inp.force then Success(Skip(prediction))
      else
        var choice := SelectModel(inp.t1, inp.fl, inp.t2);
        var json := ModelJson(hyperDir, choice.model);
        var weights := ModelWeights(hyperDir, choice.model);
        if json !in files then Failure(ModelNotFound(json))
        else if weights !in files then Failure(ModelNotFound(weights))
        else
          Success(Proceed(Setup(inp, prediction, PredictionStdPath(inp.subjDir, inp.subj, inp.out), choice,
                                json, weights, PredDir(Abspath(env.cwd, inp.subjDir)))))
  }

  /** What a finished run reports. */
  datatype Report = Report(
    choice: Choice,          // the modalities stacked and the model used
    inOrt: Option<string>,   // `in_ort`, the image the orientation check reads
    runs: seq<ModalityRun>,  // one preprocessing pass per modality
    channels: seq<string>,   // `test_data`, channel by channel
    std: bool,               // `ign_ort is False and cp_orient`
    meanProb: seq<real>,     // `pred_mean`
    modelMask: seq<real>,    // `pred_th`
    outputs: OutputPaths,
    prep: seq<Artifact>)     // every file written before inference

  datatype Outcome = AlreadyExists(prediction: string) | Segmented(report: Report)

  /** `cp_orient` for the image `in_ort`: the decision taken on what `c3d <in_ort> -info` prints. */
  predicate Reorients(info: string -> string, inOrt: Option<string>) {
    CheckOrient(info(ArgText(inOrt)), RightOrient, LeftOrient).Reorient?
  }

  /** `in_ort` is left None: no `-b`, and the converted T1 did not exist before the run. */
  predicate InOrtMissing(inp: Inputs, predDir: string, files: set<string>) {
    !inp.bias && ConvertedPath(inp.subjDir, inp.t1) !in files
  }

  /** `pred_dir` as `main` names it: `pred_process_hfb` inside some directory. */
  ghost predicate IsPredDir(predDir: string) {
    exists dir :: predDir == PredDir(dir)
  }

  /** The T1 anchor `in_ort` names when it is set: the bias-corrected T1 with `-b`, else the converted T1. */
  function Anchor(inp: Inputs): string {
    if inp.bias then T1BiasPath(inp.subjDir, inp.subj) else ConvertedPath(inp.subjDir, inp.t1)
  }

  /**
   * What a finished run promises about its report, given the setup and the
   * files that existed when it started: `in_ort` was set, `std` is the
   * orientation decision on it, the runs fit the selected modalities, the
   * mean map is the sample average and the mask that map thresholded, and
   * the outputs carry the names `main` derives; the standard-orientation
   * outputs exist exactly when the anchor was reoriented.
   */
  predicate Finished(s: Setup, info: string -> string, draw: nat -> seq<real>, files: set<string>, rep: Report) {
    && rep.choice == s.choice
    && !InOrtMissing(s.inp, s.predDir, files)
    && rep.inOrt == Some(Anchor(s.inp))
    && rep.std == (!s.inp.ignOrt && Reorients(info, rep.inOrt))
    && |rep.channels| == |rep.runs| == |rep.choice.mods|
    && rep.channels == Channels(rep.runs)
    && |rep.channels| >= 1 && rep.channels[0] == Intermediate(s.predDir, s.inp.t1, ResSuffix)
    && (forall i :: 0 <= i < |rep.channels| ==> rep.channels[i] == Intermediate(s.predDir, rep.runs[i].source, ResSuffix))
    && RunsFit(rep.runs, s.choice.mods, s.choice.seqs, s.inp.subjDir, s.inp.subj, s.inp.t1, s.predDir,
               s.inp.bias, s.inp.ignOrt, info, files)
    && s.inp.numMc >= 1 && Sized(draw, s.inp.numMc as nat, PredVoxels)
    && rep.meanProb == MeanMap(draw, s.inp.numMc as nat, PredVoxels)
    && rep.modelMask == Threshold(rep.meanProb, s.inp.thresh)
    && rep.outputs == PathsOf(OutputNames(s.inp.subjDir, s.inp.subj, s.inp.t1, s.predDir, s.choice.model,
                                          s.prediction, s.predictionStd), s.inp.bias)
    && (HasKind(OutputArtifacts(rep.outputs, rep.std, s.inp.woc), IsStdOrient) <==>
          !s.inp.ignOrt && Reorients(info, rep.inOrt))
    && (HasKind(OutputArtifacts(rep.outputs, rep.std, s.inp.woc), IsWocPredStd) <==>
          s.inp.woc == 1 && !s.inp.ignOrt && Reorients(info, rep.inOrt))
    && AllPreprocessing(rep.prep)
  }

  /** Lines 266-268: `os.mkdir(pred_dir)` when it does not exist. */
  method MakePredDir(disk: Disk, predDir: string) returns (ghost written: seq<Artifact>)
    modifies disk
    ensures disk.files == old(disk.files) + {predDir}
    ensures disk.log == old(disk.log) + written && AllPreprocessing(written)
    ensures predDir in old(disk.files) ==> written == []
    ensures disk.files == old(disk.files) + Paths(written)
  {
    written := [];
    if predDir !in disk.files {
      disk.Save(Directory, predDir);
      written := [Artifact(Directory, predDir)];
    }
  }

  /**
   * Lines 264-283: the prediction directory, then the T1 anchor: the
   * bias-corrected T1, or else the converted T1 when it does not exist yet
   * (in which case `in_ort` stays None).
   */
  method AnchorT1(disk: Disk, inp: Inputs, predDir: string) returns (inOrt: Option<string>, ghost written: seq<Artifact>)
    requires IsPredDir(predDir)
    modifies disk
    ensures inOrt == if InOrtMissing(inp, predDir, old(disk.files)) then None else Some(Anchor(inp))
    ensures disk.log == old(disk.log) + written && AllPreprocessing(written)
    ensures disk.files == old(disk.files) + Paths(written)
    ensures old(disk.files) <= disk.files
  {
    ghost var dir :| predDir == PredDir(dir);
    ConvertedIsNotPredDir(inp.subjDir, inp.t1, dir);
    written := MakePredDir(disk, predDir);
    ghost var log1, files1 := disk.log, disk.files;
    inOrt := PrepareAnchor(disk, inp.subjDir, inp.subj, inp.t1, inp.bias);
    ghost var anchorLog :=
      if inp.bias then [Artifact(BiasCorrected, T1BiasPath(inp.subjDir, inp.subj))]
      else if ConvertedPath(inp.subjDir, inp.t1) in files1 then []
      else [Artifact(Converted, ConvertedPath(inp.subjDir, inp.t1))];
    assert disk.log == log1 + anchorLog;
    assert disk.files == files1 + Paths(anchorLog);
    AddPaths(old(disk.files), files1, disk.files, written, anchorLog);
    AllPreprocessingConcat(written, anchorLog);
    AppendAssoc(old(disk.log), written, anchorLog);
    written := written + anchorLog;
  }

  /**
   * Lines 285-296: the orientation check of the anchor, and the image
   * `nib.load` reads as `t1_img`. Returns `in_ort` and `cp_orient`; both
   * failures need `in_ort` to be None.
   */
  method OrientAnchor(disk: Disk, inp: Inputs, predDir: string, info: string -> string)
    returns (r: Result<(Option<string>, bool), RunError>, ghost written: seq<Artifact>)
    requires IsPredDir(predDir)
    modifies disk
    ensures r.Failure? ==> r.error == NoneImage("orient_img") || r.error == NoneImage("nib.load")
    ensures r.Failure? ==> InOrtMissing(inp, predDir, old(disk.files))
    ensures r.Failure? && r.error == NoneImage("orient_img") ==> !inp.ignOrt && Reorients(info, None)
    ensures r.Success? ==> r.value.0 == if InOrtMissing(inp, predDir, old(disk.files)) then None else Some(Anchor(inp))
    ensures r.Success? ==> r.value.1 == (!inp.ignOrt && Reorients(info, r.value.0))
    ensures r.Success? && r.value.0.None? ==> StdOrientPath(inp.subjDir, inp.t1) in disk.files && !r.value.1
    ensures disk.log == old(disk.log) + written && AllPreprocessing(written)
    ensures disk.files == old(disk.files) + Paths(written)
    ensures old(disk.files) <= disk.files
  {
    var inOrt;
    inOrt, written := AnchorT1(disk, inp, predDir);
    var t1Ort := StdOrientPath(inp.subjDir, inp.t1);
    var cpOrient := false;
    if !inp.ignOrt {
      ghost var anchored := disk.files;
      var c := CheckOrientOnDisk(disk, inOrt, t1Ort, info);
      if c.Failure? {
        return Failure(c.error), written;
      }
      cpOrient := c.value;
      if cpOrient {
        AllPreprocessingConcat(written, [Artifact(Reoriented, t1Ort)]);
        AppendAssoc(old(disk.log), written, [Artifact(Reoriented, t1Ort)]);
        assert Paths([Artifact(Reoriented, t1Ort)]) == {t1Ort};
        AddPaths(old(disk.files), anchored, disk.files, written, [Artifact(Reoriented, t1Ort)]);
        written := written + [Artifact(Reoriented, t1Ort)];
      }
    }
    var inT1 := if t1Ort in disk.files then Some(t1Ort) else inOrt;
    if inT1.None? {
      return Failure(NoneImage("nib.load")), written;
    }
    return Success((inOrt, cpOrient)), written;
  }

  /** What the run has prepared when inference starts. */
  datatype Prepared = Prepared(
    inOrt: Option<string>,   // `in_ort`: None when `nib.load` would fail on it
    std: bool,               // `ign_ort is False and cp_orient`
    runs: seq<ModalityRun>,
    channels: seq<string>,   // `test_data`
    prep: seq<Artifact>)     // the files written so far

  /** Lines 301-346 as `main` sees them: the runs, the channels, and preprocessing files only. */
  method StackChannels(disk: Disk, s: Setup, info: string -> string)
    returns (r: Result<(seq<ModalityRun>, seq<string>), RunError>)
    requires |s.choice.mods| == |s.choice.seqs| >= 1 && s.choice.mods[0] == T1 && s.choice.seqs[0] == Some(s.inp.t1)
    requires forall i :: 0 < i < |s.choice.mods| ==> s.choice.mods[i] != T1
    modifies disk
    ensures r.Failure? ==> r.error == NoneImage("basename") && None in s.choice.seqs
    ensures r.Success? ==>
      && |r.value.1| == |r.value.0| == |s.choice.mods|
      && r.value.1 == Channels(r.value.0)
      && (forall i :: 0 <= i < |r.value.1| ==>
            r.value.1[i] == Intermediate(s.predDir, r.value.0[i].source, ResSuffix))
      && RunsFit(r.value.0, s.choice.mods, s.choice.seqs, s.inp.subjDir, s.inp.subj, s.inp.t1, s.predDir,
                 s.inp.bias, s.inp.ignOrt, info, old(disk.files))
      && disk.log == old(disk.log) + ConformLog(r.value.0, s.predDir)
      && AllPreprocessing(ConformLog(r.value.0, s.predDir))
    ensures r.Success? ==> disk.files == old(disk.files) + Paths(ConformLog(r.value.0, s.predDir))
    ensures old(disk.log) <= disk.log && disk.files == old(disk.files) + Paths(disk.log[|old(disk.log)|..])
    ensures old(disk.files) <= disk.files
  {
    var conformed, testData := Conform(disk, s.choice, s.inp.subjDir, s.inp.subj, s.inp.t1, s.predDir,
                                       s.inp.bias, s.inp.ignOrt, info);
    if conformed.Failure? {
      ghost var i :| 0 <= i < |s.choice.seqs| && s.choice.seqs[i].None?;
      assert s.choice.seqs[i] == None;
      return Failure(conformed.error);
    }
    forall i | 0 <= i < |conformed.value| ensures AllPreprocessing(conformed.value[i].prep) {
      RunsFitAt(conformed.value, s.choice.mods, s.choice.seqs, s.inp.subjDir, s.inp.subj, s.inp.t1, s.predDir,
                s.inp.bias, s.inp.ignOrt, info, old(disk.files), i);
    }
    ConformLogIsPreprocessing(conformed.value, s.predDir);
    forall i | 0 <= i < |conformed.value|
      ensures testData[..][i] == Intermediate(s.predDir, conformed.value[i].source, ResSuffix)
    {
      ChannelAt(conformed.value, i);
      RunsFitAt(conformed.value, s.choice.mods, s.choice.seqs, s.inp.subjDir, s.inp.subj, s.inp.t1, s.predDir,
                s.inp.bias, s.inp.ignOrt, info, old(disk.files), i);
    }
    return Success((conformed.value, testData[..]));
  }

  /**
   * Lines 264-346: the prediction directory, the T1 anchor and its
   * orientation, then the preprocessing loop over the stacked modalities.
   */
  method Preprocess(disk: Disk, s: Setup, info: string -> string) returns (r: Result<Prepared, RunError>)
    requires IsPredDir(s.predDir)
    requires |s.choice.mods| == |s.choice.seqs| >= 1 && s.choice.mods[0] == T1 && s.choice.seqs[0] == Some(s.inp.t1)
    requires forall i :: 0 < i < |s.choice.mods| ==> s.choice.mods[i] != T1
    modifies disk
    ensures r.Failure? ==> r.error.NoneImage? && (InOrtMissing(s.inp, s.predDir, old(disk.files)) || None in s.choice.seqs)
    ensures r.Success? ==>
      var p := r.value;
      && p.inOrt == (if InOrtMissing(s.inp, s.predDir, old(disk.files)) then None else Some(Anchor(s.inp)))
      && p.std == (!s.inp.ignOrt && Reorients(info, p.inOrt))
      && |p.channels| == |p.runs| == |s.choice.mods|
      && p.channels == Channels(p.runs)
      && (forall i :: 0 <= i < |p.channels| ==> p.channels[i] == Intermediate(s.predDir, p.runs[i].source, ResSuffix))
      && RunsFit(p.runs, s.choice.mods, s.choice.seqs, s.inp.subjDir, s.inp.subj, s.inp.t1, s.predDir,
                 s.inp.bias, s.inp.ignOrt, info, old(disk.files))
      && AllPreprocessing(p.prep)
      && disk.log == old(disk.log) + p.prep
    ensures r.Success? ==> disk.files == old(disk.files) + Paths(r.value.prep)
    ensures old(disk.log) <= disk.log && disk.files == old(disk.files) + Paths(disk.log[|old(disk.log)|..])
    ensures old(disk.files) <= disk.files
  {
    var inp := s.inp;
    var log0 := disk.log;
    ghost var written;
    var anchor;
    anchor, written := OrientAnchor(disk, inp, s.predDir, info);
    GrewBy(old(disk.files), disk.files, log0, disk.log, written);
    if anchor.Failure? {
      return Failure(anchor.error);
    }
    var (inOrt, cpOrient) := anchor.value;
    ghost var anchored, log1 := disk.files, disk.log;
    var stacked := StackChannels(disk, s, info);
    GrewTwice(old(disk.files), anchored, disk.files, log0, log1, disk.log);
    if stacked.Failure? {
      return Failure(stacked.error);
    }
    var (runs, channels) := stacked.value;
    RunsFitEarlier(runs, s.choice.mods, s.choice.seqs, inp.subjDir, inp.subj, inp.t1, s.predDir,
                   inp.bias, inp.ignOrt, info, old(disk.files), anchored);
    ghost var cl := ConformLog(runs, s.predDir);
    AppendAssoc(log0, written, cl);
    SliceAfter(log0, written + cl);
    var prep := disk.log[|log0|..];
    AllPreprocessingConcat(written, cl);
    return Success(Prepared(inOrt, !inp.ignOrt && cpOrient, runs, channels, prep));
  }

  /**
   * Lines 264-466 once the model is found: preprocessing, the Monte-Carlo
   * ensemble, and the outputs. The sample count is checked before the
   * ensemble; `in_ort` being None fails the first `nib.load` of the outputs,
   * so a finished run always had it set.
   */
  method Run(disk: Disk, s: Setup, info: string -> string, draw: nat -> seq<real>)
    returns (r: Result<Report, RunError>)
    requires IsPredDir(s.predDir)
    requires |s.choice.mods| == |s.choice.seqs| >= 1 && s.choice.mods[0] == T1 && s.choice.seqs[0] == Some(s.inp.t1)
    requires forall i :: 0 < i < |s.choice.mods| ==> s.choice.mods[i] != T1
    requires forall k :: |draw(k)| == PredVoxels
    modifies disk
    ensures r.Failure? ==>
      || (r.error.NoneImage? && (InOrtMissing(s.inp, s.predDir, old(disk.files)) || None in s.choice.seqs))
      || (r.error.BadSampleCount? && s.inp.numMc <= 0)
    ensures r.Success? ==>
      && Finished(s, info, draw, old(disk.files), r.value)
      && disk.log == old(disk.log) + r.value.prep + OutputArtifacts(r.value.outputs, r.value.std, s.inp.woc)
    ensures r.Success? ==>
      disk.files == old(disk.files) + Paths(r.value.prep + OutputArtifacts(r.value.outputs, r.value.std, s.inp.woc))
    ensures old(disk.log) <= disk.log && disk.files == old(disk.files) + Paths(disk.log[|old(disk.log)|..])
    ensures old(disk.files) <= disk.files
  {
    var inp := s.inp;
    var pre := Preprocess(disk, s, info);
    if pre.Failure? {
      return Failure(pre.error);
    }
    var p := pre.value;
    RunsFitAt(p.runs, s.choice.mods, s.choice.seqs, inp.subjDir, inp.subj, inp.t1, s.predDir,
              inp.bias, inp.ignOrt, info, old(disk.files), 0);
    if inp.numMc <= 0 {
      return Failure(BadSampleCount(inp.numMc));
    }
    var mean := PredictMean(inp.numMc as nat, PredVoxels, draw);
    var mask := Threshold(mean, inp.thresh);
    var names := OutputNames(inp.subjDir, inp.subj, inp.t1, s.predDir, s.choice.model,
                             s.prediction, s.predictionStd);
    var paths := PathsOf(names, inp.bias);
    ghost var files1, log1 := disk.files, disk.log;
    var ok := WriteOutputs(disk, paths, p.std, inp.woc, p.inOrt.Some?);
    ghost var outs := OutputArtifacts(paths, p.std, inp.woc);
    if !ok {
      GrewBy(files1, disk.files, log1, disk.log, outs[..5]);
      GrewTwice(old(disk.files), files1, disk.files, old(disk.log), log1, disk.log);
      return Failure(NoneImage(if p.std then "copy_orient" else "nib.load"));
    }
    AppendAssoc(old(disk.log), p.prep, outs);
    AddPaths(old(disk.files), files1, disk.files, p.prep, outs);
    GrewBy(old(disk.files), disk.files, old(disk.log), disk.log, p.prep + outs);
    StdOrientGating(paths, p.std, inp.woc);
    WocStdGating(paths, p.std, inp.woc);
    return Success(Report(s.choice, p.inOrt, p.runs, p.channels, p.std, mean, mask, paths, p.prep));
  }

  /**
   * `main`: bad arguments write nothing, an existing prediction ends the run
   * unless `-f` is given, and a finished run has written its preprocessing
   * files and then exactly the planned outputs; its mean map is the average
   * of the `num_mc` network samples and its mask that map thresholded. The
   * network always returns a 160x160x160 map.
   */
  method Segment(disk: Disk, args: Args, env: Env, hyperDir: string, info: string -> string,
                 draw: nat -> seq<real>)
    returns (r: Result<Outcome, RunError>)
    requires forall k :: |draw(k)| == PredVoxels
    modifies disk
    ensures r.Failure? && r.error.BadInput? <==> ParseInputs(args, env, old(disk.files)).Failure?
    ensures Prepare(args, env, old(disk.files), hyperDir).Failure? ==>
      r == Failure(Prepare(args, env, old(disk.files), hyperDir).error)
    ensures Prepare(args, env, old(disk.files), hyperDir).Success? && Prepare(args, env, old(disk.files), hyperDir).value.Skip? ==>
      r == Success(AlreadyExists(Prepare(args, env, old(disk.files), hyperDir).value.prediction))
    ensures r.Failure? && (r.error.BadInput? || r.error.ModelNotFound?) ==>
      disk.log == old(disk.log) && disk.files == old(disk.files)
    ensures r.Success? && r.value.AlreadyExists? ==>
      r.value.prediction in old(disk.files) && !args.force && disk.log == old(disk.log) && disk.files == old(disk.files)
    ensures r.Failure? && (r.error.NoneImage? || r.error.BadSampleCount?) ==>
      var start := Prepare(args, env, old(disk.files), hyperDir);
      && start.Success? && start.value.Proceed?
      && (r.error.NoneImage? ==>
            InOrtMissing(start.value.setup.inp, start.value.setup.predDir, old(disk.files))
            || None in start.value.setup.choice.seqs)
      && (r.error.BadSampleCount? ==> start.value.setup.inp.numMc <= 0)
    ensures r.Success? && r.value.Segmented? ==>
      var rep := r.value.report;
      var start := Prepare(args, env, old(disk.files), hyperDir);
      var inp := ParseInputs(args, env, old(disk.files)).value;
      && ParseInputs(args, env, old(disk.files)).Success?
      && start.Success? && start.value.Proceed? && start.value.setup.inp == inp
      && rep.choice == SelectModel(inp.t1, inp.fl, inp.t2)
      && Finished(start.value.setup, info, draw, old(disk.files), rep)
      && disk.log == old(disk.log) + rep.prep + OutputArtifacts(rep.outputs, rep.std, inp.woc)
      && disk.files == old(disk.files) + Paths(rep.prep + OutputArtifacts(rep.outputs, rep.std, inp.woc))
      && start.value.setup.prediction in disk.files
    ensures old(disk.log) <= disk.log && disk.files == old(disk.files) + Paths(disk.log[|old(disk.log)|..])
    ensures old(disk.files) <= disk.files
  {
    var start := Prepare(args, env, disk.files, hyperDir);
    if start.Failure? {
      SliceAfter(disk.log, []);
      return Failure(start.error);
    }
    if start.value.Skip? {
      SliceAfter(disk.log, []);
      return Success(AlreadyExists(start.value.prediction));
    }
    var s := start.value.setup;
    var run := Run(disk, s, info, draw);
    if run.Failure? {
      return Failure(run.error);
    }
    PredictionOnDisk(old(disk.files), disk.files, run.value.prep, run.value.outputs, run.value.std, s.inp.woc);
    return Success(Segmented(run.value));
  }
}
