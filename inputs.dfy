/**
 * `parse_inputs` of icvmapper/segment/icvmapper.py: how the subject
 * directory, the subject name and the image paths are derived from the
 * command-line arguments. Argument parsing itself (argparse) is not modelled:
 * `Args` holds the parsed values. The working directory and the session
 * glob are parameters.
 */
module Inputs {
  import opened Wrappers
  import opened PosixPath
  import opened Selection

  /** The parsed command line; `None` where an option was not given. */
  datatype Args = Args(
    subj: Option<string>, flair: Option<string>, t1w: Option<string>, t2w: Option<string>,
    out: Option<string>, bias: bool, rmcereb: int, ignOrt: bool, force: bool,
    numMc: int, thresh: real, session: Option<string>)

  /** The process environment `parse_inputs` consults besides the file system. */
  datatype Env = Env(cwd: string, glob: string -> seq<string>)

  /** What `parse_inputs` returns. */
  datatype Inputs = Inputs(
    subjDir: string, subj: string, t1: string, fl: Option<string>, t2: Option<string>,
    woc: int, out: Option<string>, bias: bool, numMc: int, thresh: real, ignOrt: bool, force: bool)

  datatype InputError =
    | NoSubjectOrT1              // sys.exit: neither -s nor -t1
    | NoSessionMatch(pattern: string)  // glob(...)[0] on an empty list
    | DirnameOfNone              // os.path.dirname(None): -s "" without -t1
    | T1NotFound(path: string)   // the assert on the T1 path

  /** The glob pattern used to find a session directory inside the subject directory. */
  function SessionPattern(subj: string, session: string): string {
    Join(subj, "*" + session)
  }

  /**
   * The subject directory, made absolute: with a non-empty -s, the first
   * match of the session glob when a non-empty session is given (an empty
   * match list is an IndexError), else -s itself; otherwise the T1's
   * directory, which fails when no T1 was given either (-s "").
   */
  function SubjectDir(args: Args, env: Env): (r: Result<string, InputError>)
    requires args.subj.Some? || args.t1w.Some?
    ensures Truthy(args.subj) && Truthy(args.session) ==>
      var pattern := SessionPattern(args.subj.value, args.session.value);
      && (r == Failure(NoSessionMatch(pattern)) <==> env.glob(pattern) == [])
      && (env.glob(pattern) != [] ==> r == Success(Abspath(env.cwd, env.glob(pattern)[0])))
    ensures Truthy(args.subj) && !Truthy(args.session) ==> r == Success(Abspath(env.cwd, args.subj.value))
    ensures !Truthy(args.subj) ==>
      && (r == Failure(DirnameOfNone) <==> args.t1w.None?)
      && (args.t1w.Some? ==> r == Success(Abspath(env.cwd, Dirname(args.t1w.value))))
    ensures r.Failure? ==> r.error.NoSessionMatch? || r.error.DirnameOfNone?
  {
    if Truthy(args.subj) then
      if Truthy(args.session) then
        var matches := env.glob(SessionPattern(args.subj.value, args.session.value));
        if matches == [] then Failure(NoSessionMatch(SessionPattern(args.subj.value, args.session.value)))
        else Success(Abspath(env.cwd, matches[0]))
      else Success(Abspath(env.cwd, args.subj.value))
    else if args.t1w.None? then Failure(DirnameOfNone)
    else Success(Abspath(env.cwd, Dirname(args.t1w.value)))
  }

  /** The T1 path `parse_inputs` falls back on: `<subj_dir>/<subj>_T1_nu.nii.gz`. */
  function DefaultT1(subjDir: string, subj: string): string {
    subjDir + "/" + subj + "_T1_nu.nii.gz"
  }

  /** The FLAIR and T2 paths of subject mode. */
  function SubjectFlair(subjDir: string, subj: string): string {
    subjDir + "/" + subj + "_T1acq_nu_FL.nii.gz"
  }

  function SubjectT2(subjDir: string, subj: string): string {
    subjDir + "/" + subj + "_T1acq_nu_T2.nii.gz"
  }

  /**
   * `parse_inputs`. It fails exactly as the source exits or raises; on
   * success the subject name is the last component of the subject
   * directory, the T1 exists, and in subject mode (-s given, even as "")
   * the FLAIR and T2 paths are always the subject's own file names,
   * whatever -fl and -t2 said.
   */
  function ParseInputs(args: Args, env: Env, files: set<string>): (r: Result<Inputs, InputError>)
    ensures r == Failure(NoSubjectOrT1) <==> args.subj.None? && args.t1w.None?
    ensures args.subj.Some? || args.t1w.Some? ==>
      (SubjectDir(args, env).Failure? <==> r.Failure? && (r.error.NoSessionMatch? || r.error.DirnameOfNone?))
    ensures r.Success? ==> SubjectDir(args, env) == Success(r.value.subjDir)
    ensures r.Failure? && r.error.T1NotFound? ==> r.error.path !in files
    ensures r.Success? ==> r.value.t1 in files
    ensures r.Success? ==> r.value.subj == Basename(r.value.subjDir)
    ensures r.Success? ==> r.value.t1 == (if args.t1w.Some? then args.t1w.value else DefaultT1(r.value.subjDir, r.value.subj))
    ensures r.Success? && args.subj.Some? ==>
      r.value.fl == Some(SubjectFlair(r.value.subjDir, r.value.subj)) &&
      r.value.t2 == Some(SubjectT2(r.value.subjDir, r.value.subj))
    ensures r.Success? && args.subj.None? ==> r.value.fl == args.flair && r.value.t2 == args.t2w
    ensures r.Success? ==>
      r.value.woc == args.rmcereb && r.value.out == args.out && r.value.bias == args.bias &&
      r.value.numMc == args.numMc && r.value.thresh == args.thresh &&
      r.value.ignOrt == args.ignOrt && r.value.force == args.force
  {
    if args.subj.None? && args.t1w.None? then Failure(NoSubjectOrT1)
    else
      match SubjectDir(args, env)
      case Failure(e) => Failure(e)
      case Success(subjDir) =>
        var subj := Basename(subjDir);
        var t1 := if args.t1w.Some? then args.t1w.value else DefaultT1(subjDir, subj);
        if t1 !in files then Failure(T1NotFound(t1))
        else
          var fl := if args.subj.Some? then Some(SubjectFlair(subjDir, subj)) else args.flair;
          var t2 := if args.subj.Some? then Some(SubjectT2(subjDir, subj)) else args.t2w;
          Success(Inputs(subjDir, subj, t1, fl, t2, args.rmcereb, args.out, args.bias,
                         args.numMc, args.thresh, args.ignOrt, args.force))
  }

  /**
   * Subject-directory quirk: with -s, FLAIR and T2 paths are always set and
   * non-empty, so the three-image model is always selected, even when the
   * subject has no FLAIR or T2 image on disk.
   */
  lemma {:induction false} SubjectModeSelectsAllThree(args: Args, env: Env, files: set<string>)
    requires args.subj.Some?
    requires ParseInputs(args, env, files).Success?
    ensures var inp := ParseInputs(args, env, files).value;
      SelectModel(inp.t1, inp.fl, inp.t2).mods == [T1, Flair, T2] &&
      SelectModel(inp.t1, inp.fl, inp.t2).model == "hfb_multi_mcdp_contrast" &&
      SelectModel(inp.t1, inp.fl, inp.t2).wocModel == "hfb_t1flt2_mcdp_contrast"
  {
    var inp := ParseInputs(args, env, files).value;
    assert inp.fl.value[|inp.subjDir|] == '/';
    assert inp.t2.value[|inp.subjDir|] == '/';
  }

  /** Every subject directory is some `abspath`. */
  lemma {:induction false} SubjectDirIsAbspath(args: Args, env: Env)
    requires args.subj.Some? || args.t1w.Some?
    requires SubjectDir(args, env).Success?
    ensures exists p :: SubjectDir(args, env).value == Abspath(env.cwd, p)
  {
    if Truthy(args.subj) {
      if Truthy(args.session) {
        var matches := env.glob(SessionPattern(args.subj.value, args.session.value));
        assert SubjectDir(args, env).value == Abspath(env.cwd, matches[0]);
      } else {
        assert SubjectDir(args, env).value == Abspath(env.cwd, args.subj.value);
      }
    } else {
      assert SubjectDir(args, env).value == Abspath(env.cwd, Dirname(args.t1w.value));
    }
  }

  /**
   * With an absolute working directory, the subject directory is absolute
   * and the subject name is empty only when that directory is the root.
   */
  lemma {:induction false} SubjectNameEmptyOnlyAtRoot(args: Args, env: Env, files: set<string>)
    requires IsAbs(env.cwd)
    requires ParseInputs(args, env, files).Success?
    ensures var inp := ParseInputs(args, env, files).value;
      IsAbs(inp.subjDir) && (inp.subj == "" <==> inp.subjDir == "/" || inp.subjDir == "//")
  {
    var inp := ParseInputs(args, env, files).value;
    assert inp.subjDir == SubjectDir(args, env).value;
    SubjectDirIsAbspath(args, env);
    var p :| inp.subjDir == Abspath(env.cwd, p);
    AbspathShape(env.cwd, p);
  }
}
