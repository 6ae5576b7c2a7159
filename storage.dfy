/**
 * The file system as the pipeline sees it: the set of paths that exist and
 * the log of every file written, in order, tagged with what it is. Every
 * external tool the source calls (c3d through nipype, the bias-correction
 * module, nibabel's save, plot_roi, PIL's save) is modelled as writing its
 * output file.
 */
module Storage {

  /** What a written file is. */
  datatype Kind =
    // icvmapper: preprocessing, before inference
    | BiasCorrected | Converted | Reoriented | Directory
    | Cropped | Clipped | Standardized | Resampled
    // icvmapper: after inference
    | MeanProb | ModelMask | NativeProb | Component
    | PredStdOrient | Prediction | MaskedT1 | MaskedT1Std
    | CerebProb | CerebMask | WocComponent | WocPredStd | WocPred | MaskedWoc | MaskedWocStd
    // reg_svg
    | PngTile | CombinedFixed | CombinedReg

  predicate IsPreprocessing(k: Kind) {
    k.BiasCorrected? || k.Converted? || k.Reoriented? || k.Directory? ||
    k.Cropped? || k.Clipped? || k.Standardized? || k.Resampled?
  }

  /** The artifacts that exist only when the image was reoriented to a standard code. */
  predicate IsStdOrient(k: Kind) {
    k.PredStdOrient? || k.MaskedT1Std? || k.WocPredStd? || k.MaskedWocStd?
  }

  /** The artifacts of the cerebellum-removal branch. */
  predicate IsCerebellum(k: Kind) {
    k.CerebProb? || k.CerebMask? || k.WocComponent? || k.WocPredStd? ||
    k.WocPred? || k.MaskedWoc? || k.MaskedWocStd?
  }

  datatype Artifact = Artifact(kind: Kind, path: string)

  /** Every artifact of `log` is a preprocessing file. */
  predicate AllPreprocessing(log: seq<Artifact>) {
    forall i :: 0 <= i < |log| ==> IsPreprocessing(log[i].kind)
  }

  lemma AllPreprocessingConcat(a: seq<Artifact>, b: seq<Artifact>)
    requires AllPreprocessing(a) && AllPreprocessing(b)
    ensures AllPreprocessing(a + b)
  {
    forall i | 0 <= i < |a + b| ensures IsPreprocessing((a + b)[i].kind) {
      if i >= |a| {
        assert (a + b)[i] == b[i - |a|];
      }
    }
  }

  lemma SliceAfter(a: seq<Artifact>, b: seq<Artifact>)
    ensures (a + b)[|a|..] == b
  {
  }

  function Kinds(log: seq<Artifact>): (ks: seq<Kind>)
    ensures |ks| == |log|
    ensures forall i :: 0 <= i < |log| ==> ks[i] == log[i].kind
  {
    seq(|log|, i requires 0 <= i < |log| => log[i].kind)
  }

  /** The paths a log writes. */
  function Paths(log: seq<Artifact>): set<string> {
    if log == [] then {} else Paths(log[..|log| - 1]) + {log[|log| - 1].path}
  }

  /** A path is written by a log exactly when one of its entries names it. */
  lemma {:induction false} PathsIff(log: seq<Artifact>, p: string)
    ensures p in Paths(log) <==> exists i :: 0 <= i < |log| && log[i].path == p
  {
    if log != [] {
      var init := log[..|log| - 1];
      PathsIff(init, p);
      if p in Paths(init) {
        var i :| 0 <= i < |init| && init[i].path == p;
        assert log[i] == init[i];
      }
      if exists i :: 0 <= i < |log| && log[i].path == p {
        var i :| 0 <= i < |log| && log[i].path == p;
        if i < |log| - 1 {
          assert init[i] == log[i];
        }
      }
    }
  }

  /** The paths of two logs written one after the other. */
  lemma {:induction false} PathsConcat(a: seq<Artifact>, b: seq<Artifact>)
    ensures Paths(a + b) == Paths(a) + Paths(b)
  {
    if b == [] {
      assert a + b == a;
    } else {
      PathsConcat(a, b[..|b| - 1]);
      assert (a + b)[..|a + b| - 1] == a + b[..|b| - 1];
    }
  }

  /** Every file a log writes is among its paths. */
  lemma PathsHas(log: seq<Artifact>, a: Artifact)
    requires a in log
    ensures a.path in Paths(log)
  {
    var i :| 0 <= i < |log| && log[i] == a;
    PathsIff(log, a.path);
  }

  /** Writing one more file adds its path. */
  lemma PathsSnoc(log: seq<Artifact>, a: Artifact)
    ensures Paths(log + [a]) == Paths(log) + {a.path}
  {
    assert (log + [a])[..|log|] == log;
  }

  /** Writing `a` and then `b` adds the paths of `a + b`. */
  lemma AddPaths(files0: set<string>, files1: set<string>, files2: set<string>, a: seq<Artifact>, b: seq<Artifact>)
    requires files1 == files0 + Paths(a) && files2 == files1 + Paths(b)
    ensures files2 == files0 + Paths(a + b)
  {
    PathsConcat(a, b);
  }

  /** A log that grew by `suffix` adds the paths of `suffix`, and those are the paths of what it added. */
  lemma GrewBy(files0: set<string>, files1: set<string>, log0: seq<Artifact>, log1: seq<Artifact>,
               suffix: seq<Artifact>)
    requires log1 == log0 + suffix
    ensures log0 <= log1 && log1[|log0|..] == suffix
    ensures files1 == files0 + Paths(suffix) <==> files1 == files0 + Paths(log1[|log0|..])
  {
    SliceAfter(log0, suffix);
  }

  /** Two stretches of writing, each adding the paths it logs, add the paths of both. */
  lemma GrewTwice(files0: set<string>, files1: set<string>, files2: set<string>,
                  log0: seq<Artifact>, log1: seq<Artifact>, log2: seq<Artifact>)
    requires log0 <= log1 && files1 == files0 + Paths(log1[|log0|..])
    requires log1 <= log2 && files2 == files1 + Paths(log2[|log1|..])
    ensures log0 <= log2 && files2 == files0 + Paths(log2[|log0|..])
  {
    assert log2[|log0|..] == log1[|log0|..] + log2[|log1|..];
    PathsConcat(log1[|log0|..], log2[|log1|..]);
  }

  class Disk {
    /** The paths that exist. */
    var files: set<string>
    /** Every file written so far, in order. */
    var log: seq<Artifact>

    constructor (existing: set<string>)
      ensures files == existing && log == []
    {
      files := existing;
      log := [];
    }

    /** A tool writes (or overwrites) `path`. */
    method Save(kind: Kind, path: string)
      modifies this
      ensures files == old(files) + {path}
      ensures log == old(log) + [Artifact(kind, path)]
    {
      files := files + {path};
      log := log + [Artifact(kind, path)];
    }

    /** Several tools run one after the other, each writing its file. */
    method SaveAll(arts: seq<Artifact>)
      modifies this
      ensures files == old(files) + Paths(arts)
      ensures log == old(log) + arts
    {
      var i := 0;
      while i < |arts|
        invariant 0 <= i <= |arts|
        invariant files == old(files) + Paths(arts[..i])
        invariant log == old(log) + arts[..i]
      {
        assert Paths(arts[..i + 1]) == Paths(arts[..i]) + {arts[i].path} by {
          assert arts[..i + 1] == arts[..i] + [arts[i]];
        }
        Save(arts[i].kind, arts[i].path);
        i := i + 1;
      }
      assert arts[..i] == arts;
    }

    /** `os.remove(path)`: fails (FileNotFoundError) when the path does not exist. */
    method Remove(path: string) returns (ok: bool)
      modifies this
      ensures ok == (path in old(files))
      ensures files == old(files) - {path}
      ensures log == old(log)
    {
      ok := path in files;
      files := files - {path};
    }
  }
}
