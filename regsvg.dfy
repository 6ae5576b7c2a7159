/**
 * The bookkeeping of icvmapper/qc/reg_svg.py, which builds the registration
 * QC figure: the argument defaults, the geometry checks on the fixed,
 * registered and segmentation images, the names and titles of the
 * intermediate tiles, how the tiles are stacked into two columns, and the
 * removal of the tiles afterwards. The headers `nib.load` reads, the
 * listings `glob` returns and the tile sizes PIL reads are parameters;
 * `plot_roi` and PIL's `save` are modelled as writing their output files.
 */
module RegSvg {
  import opened Wrappers
  import opened PyStr
  import opened PosixPath
  import opened Storage

  // ------------------------------------------------------------------ axes

  /** `ORIENTATION_DICT[d]`; None is the KeyError of any other letter. */
  function AxisOf(d: char): (r: Option<char>)
    ensures r.Some? <==> d == 'L' || d == 'R' || d == 'P' || d == 'A' || d == 'S' || d == 'I'
    ensures r.Some? ==> r.value == 'x' || r.value == 'y' || r.value == 'z'
  {
    match d
    case 'L' => Some('x')
    case 'R' => Some('x')
    case 'P' => Some('y')
    case 'A' => Some('y')
    case 'S' => Some('z')
    case 'I' => Some('z')
    case _ => None
  }

  predicate LeftRight(c: char) { c == 'L' || c == 'R' }
  predicate PostAnt(c: char) { c == 'P' || c == 'A' }
  predicate SupInf(c: char) { c == 'S' || c == 'I' }

  /** An axis-code triple as `nib.aff2axcodes` gives it: one letter of each pair, in any order. */
  predicate AxisCodes(codes: seq<char>) {
    && |codes| == 3
    && (LeftRight(codes[0]) || LeftRight(codes[1]) || LeftRight(codes[2]))
    && (PostAnt(codes[0]) || PostAnt(codes[1]) || PostAnt(codes[2]))
    && (SupInf(codes[0]) || SupInf(codes[1]) || SupInf(codes[2]))
  }

  /** Such a triple names three different display axes: every one of x, y and z once. */
  lemma AxesOfCodes(codes: seq<char>)
    requires AxisCodes(codes)
    ensures AxisOf(codes[0]).Some? && AxisOf(codes[1]).Some? && AxisOf(codes[2]).Some?
    ensures AxisOf(codes[0]) != AxisOf(codes[1]) && AxisOf(codes[0]) != AxisOf(codes[2])
    ensures AxisOf(codes[1]) != AxisOf(codes[2])
    ensures {AxisOf(codes[0]).value, AxisOf(codes[1]).value, AxisOf(codes[2]).value} == {'x', 'y', 'z'}
  {
  }

  // -------------------------------------------------------------- geometry

  /** What `get_orient` and `.shape` give for a loaded image. */
  datatype Header = Header(codes: seq<char>, shape: seq<int>)

  /** The exceptions of reg_svg.py. */
  datatype QcError =
    | OrientMismatch               // fixed and registered orientations differ
    | ShapeMismatch                // fixed and registered shapes differ
    | SegOrientMismatch            // the segmentation's orientation differs
    | NoOutputDir                  // `os.path.join(None, ...)`
    | UnknownDirection(d: char)    // KeyError in ORIENTATION_DICT
    | TilesMissing                 // `combine_png` finds no tiles of one kind
    | NoSuchFile(path: string)     // `os.remove` of a path that is gone

  /**
   * The checks at the head of `generate_pngs`: orientation first, then shape,
   * then (only with a segmentation) the segmentation's orientation against
   * the registered image's.
   */
  function CheckGeometry(fixed: Header, reg: Header, seg: Option<Header>): (r: Option<QcError>)
    ensures fixed.codes != reg.codes ==> r == Some(OrientMismatch)
    ensures fixed.codes == reg.codes && fixed.shape != reg.shape ==> r == Some(ShapeMismatch)
    ensures r.None? <==> fixed.codes == reg.codes && fixed.shape == reg.shape && (seg.None? || seg.value.codes == reg.codes)
    ensures r.Some? ==> r.value.OrientMismatch? || r.value.ShapeMismatch? || r.value.SegOrientMismatch?
  {
    if fixed.codes != reg.codes then Some(OrientMismatch)
    else if fixed.shape != reg.shape then Some(ShapeMismatch)
    else if seg.Some? && seg.value.codes != reg.codes then Some(SegOrientMismatch)
    else None
  }

  // ------------------------------------------------------------- arguments

  /** The parsed command line: `-f`, `-r`, `-s`, `-sl`, `-o`. */
  datatype QcArgs = QcArgs(fixed: string, reg: string, seg: Option<string>, slices: int, out: Option<string>)

  /** What `parse_inputs` returns. */
  datatype QcInputs = QcInputs(
    fixed: string, reg: string, seg: Option<string>, slices: int,
    outDir: string, outFile: string, prefix: string)

  const DefaultOutFile: string := "reg_comparison.svg"

  /**
   * `parse_inputs`: an empty `-s` counts as none; without `-o` the figure is
   * `reg_comparison.svg` in the working directory `cwd`; the prefix is the
   * figure's file name without its extension.
   */
  function ParseQcInputs(args: QcArgs, cwd: string): (r: QcInputs)
    ensures r.fixed == args.fixed && r.reg == args.reg && r.slices == args.slices
    ensures r.seg.Some? <==> Truthy(args.seg)
    ensures r.seg.Some? ==> r.seg == args.seg
    ensures Truthy(args.out) ==> r.outFile == args.out.value && r.outDir == Dirname(args.out.value)
    ensures !Truthy(args.out) ==> r.outFile == DefaultOutFile && r.outDir == cwd
    ensures r.prefix + SplitExt(Basename(r.outFile)).1 == Basename(r.outFile)
    ensures r.prefix == Basename(r.outFile) <==> OnlyLeadingDots(Basename(r.outFile))
    ensures '/' !in r.prefix
  {
    var outFile := if Truthy(args.out) then args.out.value else DefaultOutFile;
    var outDir := if Truthy(args.out) then Dirname(args.out.value) else cwd;
    var prefix := SplitExt(Basename(outFile)).0;
    BasenameSpec(outFile);
    assert prefix <= Basename(outFile);
    QcInputs(args.fixed, args.reg, if Truthy(args.seg) then args.seg else None, args.slices,
             outDir, outFile, prefix)
  }

  /** Without `-o` the tiles and the figure are all named after `reg_comparison`. */
  lemma DefaultPrefix(args: QcArgs, cwd: string)
    requires !Truthy(args.out)
    ensures ParseQcInputs(args, cwd).prefix == "reg_comparison"
  {
    var p := DefaultOutFile;
    BasenameSpec(p);
    LastIndexOfSpec(p, '/');
    LastIndexOfUnique(p, '.', 14);
    assert !AllDots(p[0..14]) by {
      assert p[0] == 'r';
    }
    assert p[..14] == "reg_comparison";
  }

  /** A file name `name.ext` holds no slash when neither part does. */
  lemma {:induction false} PlainFileNoSlash(name: string, ext: string)
    requires '/' !in name && '/' !in ext
    ensures '/' !in name + "." + ext
  {
    var file := name + "." + ext;
    forall i | 0 <= i < |file| ensures file[i] != '/' {
      if i < |name| { assert file[i] == name[i]; }
      else if i > |name| { assert file[i] == ext[i - |name| - 1]; }
    }
  }

  /** `splitext` cuts a file name `name.ext` at the dot before `ext`. */
  lemma {:induction false} PlainFileSplit(name: string, ext: string)
    requires name != [] && name[0] != '.' && '/' !in name
    requires '.' !in ext && '/' !in ext
    ensures '/' !in name + "." + ext
    ensures SplitExt(name + "." + ext).0 == name
  {
    var file := name + "." + ext;
    PlainFileNoSlash(name, ext);
    LastIndexOfSpec(file, '/');
    assert LastIndexOf(file, '/') == -1;
    assert file[|name| + 1..] == ext;
    LastIndexOfUnique(file, '.', |name|);
    var head := file[0..|name|];
    assert head == name;
    assert !AllDots(head) by { assert head[0] == name[0]; }
    assert SplitExt(file).0 == file[..|name|];
  }

  /** `-o dir/name.ext` names the tiles after `name`, dots inside `name` included. */
  lemma {:induction false} NamedOutPrefix(args: QcArgs, cwd: string, dir: string, name: string, ext: string)
    requires args.out == Some(dir + "/" + name + "." + ext)
    requires name != [] && name[0] != '.' && '/' !in name
    requires '.' !in ext && '/' !in ext
    ensures ParseQcInputs(args, cwd).prefix == name
  {
    var file := name + "." + ext;
    assert args.out.value == (dir + "/") + file;
    PlainFileSplit(name, ext);
    BasenameAfterSlash(dir + "/", file);
  }

  // ----------------------------------------------------------------- tiles

  /** The image types `generate_pngs` plots, in order. */
  const ImageTypes: seq<string> := ["fixed", "reg"]

  /** One `plot_roi` call: the file it writes, what it shows and its title. */
  datatype Tile = Tile(path: string, imgType: string, axis: char, title: Option<string>)

  /** `os.path.join(preprocdir, "{prefix}_{type}_{axis}.png")`. */
  function TileName(preprocDir: string, prefix: string, imgType: string, axis: char): string {
    Join(preprocDir, prefix + "_" + imgType + "_" + [axis] + ".png")
  }

  /** `img_type.capitalize() if axis == 'x' else None`. */
  function Title(imgType: string, axis: char): Option<string> {
    if axis == 'x' then Some(Capitalize(imgType)) else None
  }

  /** Only the sagittal tiles carry a title, and it is "Fixed" or "Reg". */
  lemma Titles(axis: char)
    ensures Title("fixed", axis) == if axis == 'x' then Some("Fixed") else None
    ensures Title("reg", axis) == if axis == 'x' then Some("Reg") else None
  {
    if axis == 'x' {
      assert Capitalize("fixed") == "Fixed";
      assert Capitalize("reg") == "Reg";
    }
  }

  function MakeTile(preprocDir: string, prefix: string, imgType: string, axis: char): Tile {
    Tile(TileName(preprocDir, prefix, imgType, axis), imgType, axis, Title(imgType, axis))
  }

  /** How many leading direction letters the table knows: the loop stops at the first it does not. */
  function KnownCount(codes: seq<char>): (n: nat)
    ensures n <= |codes|
    ensures forall i :: 0 <= i < n ==> AxisOf(codes[i]).Some?
    ensures n < |codes| ==> AxisOf(codes[n]).None?
  {
    if codes == [] || AxisOf(codes[0]).None? then 0
    else
      var n := 1 + KnownCount(codes[1..]);
      assert forall i :: 1 <= i < n ==> codes[i] == codes[1..][i - 1];
      n
  }

  /** The tiles of one image type, one per direction letter up to the first the table does not know. */
  function TypeTiles(preprocDir: string, prefix: string, imgType: string, codes: seq<char>): (ts: seq<Tile>)
    ensures |ts| == KnownCount(codes)
  {
    seq(KnownCount(codes), i requires 0 <= i < KnownCount(codes) =>
      MakeTile(preprocDir, prefix, imgType, AxisOf(codes[i]).value))
  }

  /** The tiles of the first `k` image types, in the loop's order. */
  function TypesTiles(preprocDir: string, prefix: string, k: nat, codes: seq<char>): (ts: seq<Tile>)
    requires k <= |ImageTypes|
    ensures |ts| == k * KnownCount(codes)
  {
    if k == 0 then []
    else TypesTiles(preprocDir, prefix, k - 1, codes) + TypeTiles(preprocDir, prefix, ImageTypes[k - 1], codes)
  }

  /**
   * What the loops of `generate_pngs` write once the checks pass: the tiles,
   * in order, and the KeyError that stops them, if any (the fixed image's
   * tiles before the unknown letter are already written by then).
   */
  function TilePlan(preprocDir: string, prefix: string, codes: seq<char>): (seq<Tile>, Option<QcError>) {
    var n := KnownCount(codes);
    if n == |codes| then (TypesTiles(preprocDir, prefix, 2, codes), None)
    else (TypeTiles(preprocDir, prefix, "fixed", codes), Some(UnknownDirection(codes[n])))
  }

  /** `Join` keeps what is appended to a relative name. */
  lemma JoinAppend(d: string, x: string, y: string)
    requires x != [] && x[0] != '/'
    ensures Join(d, x + y) == Join(d, x) + y
  {
    assert (x + y)[0] == x[0];
  }

  /** Two relative names stay different under `Join`. */
  lemma JoinInjective(d: string, x: string, y: string)
    requires x != [] && x[0] != '/' && y != [] && y[0] != '/'
    requires x != y
    ensures Join(d, x) != Join(d, y)
  {
    var sep := if d == [] || d[|d| - 1] == '/' then d else d + "/";
    assert Join(d, x) == sep + x && Join(d, y) == sep + y;
    assert (sep + x)[|sep|..] == x && (sep + y)[|sep|..] == y;
  }

  /** The file names of two different (type, axis) pairs differ. */
  lemma TileNamesDiffer(preprocDir: string, prefix: string, t: string, a: char, u: string, b: char)
    requires '/' !in prefix
    requires t in ImageTypes && u in ImageTypes && (t, a) != (u, b)
    ensures TileName(preprocDir, prefix, t, a) != TileName(preprocDir, prefix, u, b)
  {
    var x := prefix + "_" + t + "_" + [a] + ".png";
    var y := prefix + "_" + u + "_" + [b] + ".png";
    assert x[0] != '/' by {
      if prefix != [] { assert x[0] == prefix[0]; } else { assert x[0] == '_'; }
    }
    assert y[0] != '/' by {
      if prefix != [] { assert y[0] == prefix[0]; } else { assert y[0] == '_'; }
    }
    if t == u {
      assert x[|x| - 5] == a && y[|y| - 5] == b;
    } else {
      assert |x| != |y|;
    }
    JoinInjective(preprocDir, x, y);
  }

  /** For a proper axis-code triple both loops run to the end: three fixed tiles, then three registered ones, each in direction order. */
  lemma PlanOfCodes(preprocDir: string, prefix: string, codes: seq<char>)
    requires AxisCodes(codes)
    ensures KnownCount(codes) == 3 && TilePlan(preprocDir, prefix, codes).1.None?
    ensures var ts := TilePlan(preprocDir, prefix, codes).0;
      |ts| == 6 &&
      forall i :: 0 <= i < 3 ==>
        ts[i] == MakeTile(preprocDir, prefix, "fixed", AxisOf(codes[i]).value) &&
        ts[i + 3] == MakeTile(preprocDir, prefix, "reg", AxisOf(codes[i]).value)
  {
    AxesOfCodes(codes);
    assert KnownCount(codes) == 3;
    var fixed := TypeTiles(preprocDir, prefix, "fixed", codes);
    var reg := TypeTiles(preprocDir, prefix, "reg", codes);
    assert TypesTiles(preprocDir, prefix, 1, codes) == fixed;
    var ts := fixed + reg;
    assert TilePlan(preprocDir, prefix, codes).0 == ts;
    forall i | 0 <= i < 3
      ensures ts[i] == MakeTile(preprocDir, prefix, "fixed", AxisOf(codes[i]).value)
      ensures ts[i + 3] == MakeTile(preprocDir, prefix, "reg", AxisOf(codes[i]).value)
    {
      assert ts[i] == fixed[i] && ts[i + 3] == reg[i];
    }
  }

  /**
   * For a proper axis-code triple the loops write six tiles, one per image
   * type and axis, all under different names; the sagittal ones are titled.
   */
  lemma SixTiles(preprocDir: string, prefix: string, codes: seq<char>)
    requires AxisCodes(codes) && '/' !in prefix
    ensures TilePlan(preprocDir, prefix, codes).1.None?
    ensures var ts := TilePlan(preprocDir, prefix, codes).0;
      && |ts| == 6
      && (forall i, j :: 0 <= i < j < 6 ==> ts[i].path != ts[j].path)
      && (forall i :: 0 <= i < 6 ==> (ts[i].title.Some? <==> ts[i].axis == 'x'))
      && ts[0].imgType == ts[1].imgType == ts[2].imgType == "fixed"
      && ts[3].imgType == ts[4].imgType == ts[5].imgType == "reg"
      && {ts[0].axis, ts[1].axis, ts[2].axis} == {'x', 'y', 'z'}
      && {ts[3].axis, ts[4].axis, ts[5].axis} == {'x', 'y', 'z'}
  {
    PlanOfCodes(preprocDir, prefix, codes);
    var ts := TilePlan(preprocDir, prefix, codes).0;
    forall i, j | 0 <= i < j < 6 ensures ts[i].path != ts[j].path {
      TileNamesDiffer(preprocDir, prefix, ts[i].imgType, ts[i].axis, ts[j].imgType, ts[j].axis);
    }
    AxesOfCodes(codes);
  }

  // ------------------------------------------------------------ generating

  /** The log entries of the tiles written, in order. */
  function TileLog(ts: seq<Tile>): (log: seq<Artifact>)
    ensures |log| == |ts|
  {
    seq(|ts|, i requires 0 <= i < |ts| => Artifact(PngTile, ts[i].path))
  }

  lemma TileLogConcat(a: seq<Tile>, b: seq<Tile>)
    ensures TileLog(a + b) == TileLog(a) + TileLog(b)
  {
  }

  /** Plotting the tiles `a` and then the tiles `b` logs and creates the tiles of `a + b`. */
  lemma TilesWritten(files0: set<string>, files1: set<string>, files2: set<string>,
                     log0: seq<Artifact>, log1: seq<Artifact>, log2: seq<Artifact>, a: seq<Tile>, b: seq<Tile>)
    requires log1 == log0 + TileLog(a) && files1 == files0 + Paths(TileLog(a))
    requires log2 == log1 + TileLog(b) && files2 == files1 + Paths(TileLog(b))
    ensures log2 == log0 + TileLog(a + b) && files2 == files0 + Paths(TileLog(a + b))
  {
    TileLogConcat(a, b);
    AddPaths(files0, files1, files2, TileLog(a), TileLog(b));
  }

  /** Saving one tile after the tiles `a` logs and creates the tiles of `a + [t]`. */
  lemma TileWritten(files0: set<string>, files1: set<string>, files2: set<string>,
                    log0: seq<Artifact>, log1: seq<Artifact>, log2: seq<Artifact>, a: seq<Tile>, t: Tile)
    requires log1 == log0 + TileLog(a) && files1 == files0 + Paths(TileLog(a))
    requires log2 == log1 + [Artifact(PngTile, t.path)] && files2 == files1 + {t.path}
    ensures log2 == log0 + TileLog(a + [t]) && files2 == files0 + Paths(TileLog(a + [t]))
  {
    assert TileLog([t]) == [Artifact(PngTile, t.path)];
    PathsSnoc([], Artifact(PngTile, t.path));
    TilesWritten(files0, files1, files2, log0, log1, log2, a, [t]);
  }

  /** `os.makedirs(preprocdir, exist_ok=True)`. */
  function MkdirLog(files: set<string>, dir: string): seq<Artifact> {
    if dir in files then [] else [Artifact(Directory, dir)]
  }

  /** The inner loop of `generate_pngs` for one image type. */
  method PlotType(disk: Disk, preprocDir: string, prefix: string, imgType: string, codes: seq<char>)
    returns (tiles: seq<Tile>, err: Option<QcError>)
    modifies disk
    ensures tiles == TypeTiles(preprocDir, prefix, imgType, codes)
    ensures err.None? <==> KnownCount(codes) == |codes|
    ensures err.Some? ==> err == Some(UnknownDirection(codes[KnownCount(codes)]))
    ensures disk.log == old(disk.log) + TileLog(tiles)
    ensures disk.files == old(disk.files) + Paths(TileLog(tiles))
    ensures old(disk.files) <= disk.files
  {
    tiles := [];
    var j := 0;
    while j < |codes|
      invariant 0 <= j <= KnownCount(codes)
      invariant tiles == TypeTiles(preprocDir, prefix, imgType, codes)[..j]
      invariant disk.log == old(disk.log) + TileLog(tiles)
      invariant disk.files == old(disk.files) + Paths(TileLog(tiles))
    {
      var axis := AxisOf(codes[j]);
      if axis.None? {
        return tiles, Some(UnknownDirection(codes[j]));
      }
      var tile := MakeTile(preprocDir, prefix, imgType, axis.value);
      TypeTilesStep(preprocDir, prefix, imgType, codes, j);
      ghost var files1, log1 := disk.files, disk.log;
      disk.Save(PngTile, tile.path);
      TileWritten(old(disk.files), files1, disk.files, old(disk.log), log1, disk.log, tiles, tile);
      tiles := tiles + [tile];
      j := j + 1;
    }
    return tiles, None;
  }

  /** The first `j + 1` tiles of an image type extend the first `j` by the tile of letter `j`. */
  lemma TypeTilesStep(preprocDir: string, prefix: string, imgType: string, codes: seq<char>, j: nat)
    requires j < KnownCount(codes)
    ensures TypeTiles(preprocDir, prefix, imgType, codes)[..j + 1] ==
      TypeTiles(preprocDir, prefix, imgType, codes)[..j] + [MakeTile(preprocDir, prefix, imgType, AxisOf(codes[j]).value)]
  {
  }

  /** The outer loop of `generate_pngs`: the fixed image, then the registered one. */
  method PlotAll(disk: Disk, preprocDir: string, prefix: string, codes: seq<char>)
    returns (tiles: seq<Tile>, err: Option<QcError>)
    modifies disk
    ensures (tiles, err) == TilePlan(preprocDir, prefix, codes)
    ensures disk.log == old(disk.log) + TileLog(tiles)
    ensures disk.files == old(disk.files) + Paths(TileLog(tiles))
    ensures old(disk.files) <= disk.files
  {
    tiles := [];
    var k := 0;
    while k < |ImageTypes|
      invariant 0 <= k <= |ImageTypes|
      invariant k > 0 ==> KnownCount(codes) == |codes|
      invariant tiles == TypesTiles(preprocDir, prefix, k, codes)
      invariant disk.log == old(disk.log) + TileLog(tiles)
      invariant disk.files == old(disk.files) + Paths(TileLog(tiles))
    {
      ghost var files1, log1 := disk.files, disk.log;
      var more, e := PlotType(disk, preprocDir, prefix, ImageTypes[k], codes);
      TilesWritten(old(disk.files), files1, disk.files, old(disk.log), log1, disk.log, tiles, more);
      tiles := tiles + more;
      if e.Some? {
        assert k == 0 && ImageTypes[0] == "fixed";
        assert tiles == more;
        return tiles, e;
      }
      k := k + 1;
    }
    return tiles, None;
  }

  /**
   * `generate_pngs`: the geometry checks, the tile directory, then one tile
   * per image type and direction of the fixed image. A missing output
   * directory fails at the first `os.path.join`, before anything is written.
   */
  method GeneratePngs(disk: Disk, fixed: Header, reg: Header, seg: Option<Header>, prefix: string,
                      outputDir: Option<string>)
    returns (r: Result<seq<Tile>, QcError>)
    modifies disk
    ensures CheckGeometry(fixed, reg, seg).Some? ==>
      r == Failure(CheckGeometry(fixed, reg, seg).value) && disk.log == old(disk.log) && disk.files == old(disk.files)
    ensures CheckGeometry(fixed, reg, seg).None? && outputDir.None? ==>
      r == Failure(NoOutputDir) && disk.log == old(disk.log) && disk.files == old(disk.files)
    ensures CheckGeometry(fixed, reg, seg).None? && outputDir.Some? ==>
      var preprocDir := Join(outputDir.value, "svg_process");
      var plan := TilePlan(preprocDir, prefix, fixed.codes);
      && (r.Success? <==> plan.1.None?)
      && (r.Success? ==> r.value == plan.0)
      && (r.Failure? ==> r.error == plan.1.value)
      && disk.log == old(disk.log) + MkdirLog(old(disk.files), preprocDir) + TileLog(plan.0)
      && disk.files == old(disk.files) + Paths(MkdirLog(old(disk.files), preprocDir) + TileLog(plan.0))
    ensures old(disk.files) <= disk.files
  {
    var bad := CheckGeometry(fixed, reg, seg);
    if bad.Some? {
      return Failure(bad.value);
    }
    if outputDir.None? {
      return Failure(NoOutputDir);
    }
    var preprocDir := Join(outputDir.value, "svg_process");
    if preprocDir !in disk.files {
      disk.Save(Directory, preprocDir);
    }
    assert disk.files == old(disk.files) + Paths(MkdirLog(old(disk.files), preprocDir));
    ghost var made := disk.files;
    var tiles, err := PlotAll(disk, preprocDir, prefix, fixed.codes);
    AddPaths(old(disk.files), made, disk.files, MkdirLog(old(disk.files), preprocDir), TileLog(tiles));
    if err.Some? {
      return Failure(err.value);
    }
    return Success(tiles);
  }

  // --------------------------------------------------------------- globbing

  /** The pattern `combine_png` globs for the tiles of one image type. */
  function TilePattern(outDir: string, prefix: string, imgType: string): string {
    Join(Join(outDir, "svg_process"), prefix + "_" + imgType + "_*.png")
  }

  /** A pattern `pre*suf` matches a path when the star stands for a run of characters without `/`. */
  predicate StarMatch(pre: string, suf: string, path: string) {
    && |pre| + |suf| <= |path|
    && path[..|pre|] == pre
    && path[|path| - |suf|..] == suf
    && '/' !in path[|pre|..|path| - |suf|]
  }

  /**
   * The glob of each image type finds that type's tiles and not the other
   * type's: the pattern is `pre*.png` where `pre` ends in `_fixed_` or
   * `_reg_`, and a tile name is `pre` + axis letter + `.png`.
   */
  lemma {:induction false} TilesMatchGlob(outDir: string, prefix: string, t: string, u: string, a: char)
    requires '/' !in prefix && t in ImageTypes && u in ImageTypes && a != '/'
    ensures var pre := Join(Join(outDir, "svg_process"), prefix + "_" + t + "_");
      && TilePattern(outDir, prefix, t) == pre + "*" + ".png"
      && (StarMatch(pre, ".png", TileName(Join(outDir, "svg_process"), prefix, u, a)) <==> t == u)
  {
    var dir := Join(outDir, "svg_process");
    var lead := prefix + "_";
    assert lead != [] && lead[0] != '/' by {
      if prefix != [] { assert lead[0] == prefix[0]; } else { assert lead[0] == '_'; }
    }
    var pre := Join(dir, lead + t + "_");
    assert (lead + t + "_")[0] == lead[0];
    JoinAppend(dir, lead + t + "_", "*" + ".png");
    assert prefix + "_" + t + "_*.png" == (lead + t + "_") + ("*" + ".png");
    var path := TileName(dir, prefix, u, a);
    JoinAppend(dir, lead, u + "_" + [a] + ".png");
    JoinAppend(dir, lead, t + "_");
    assert prefix + "_" + u + "_" + [a] + ".png" == lead + (u + "_" + [a] + ".png");
    var base := Join(dir, lead);
    assert pre == base + (t + "_");
    assert path == base + (u + "_" + [a] + ".png");
    if t == u {
      assert path == pre + [a] + ".png";
      assert path[..|pre|] == pre;
      assert path[|pre|..|path| - 4] == [a];
    } else {
      assert path[|base|] != pre[|base|] by {
        assert path[|base|] == u[0] && pre[|base|] == t[0];
      }
      if |pre| <= |path| {
        assert path[..|pre|][|base|] != pre[|base|];
      }
    }
  }

  // -------------------------------------------------------------- combining

  /** A tile as PIL opens it. */
  datatype Png = Png(path: string, width: nat, height: nat)

  /** Where `paste` put a tile: its upper-left corner. */
  datatype Placement = Placement(path: string, x: int, y: int)

  /** An `Image.new('RGB', (width, height))` and what was pasted into it, in order. */
  datatype Canvas = Canvas(width: nat, height: nat, pasted: seq<Placement>)

  function SumHeights(pngs: seq<Png>): nat {
    if pngs == [] then 0 else SumHeights(pngs[..|pngs| - 1]) + pngs[|pngs| - 1].height
  }

  /** `paste(png, (0, i * png.height))` for tile `i`. */
  function Spot(pngs: seq<Png>, i: nat): Placement
    requires i < |pngs|
  {
    Placement(pngs[i].path, 0, i * pngs[i].height)
  }

  /** The canvas after the `enumerate` loop of `combine_png`. */
  function Column(pngs: seq<Png>, width: nat, height: nat): (c: Canvas)
    ensures |c.pasted| == |pngs|
  {
    Canvas(width, height, seq(|pngs|, i requires 0 <= i < |pngs| => Spot(pngs, i)))
  }

  /** The two canvases of `combine_png`: both take the first fixed tile's width and the fixed tiles' total height. */
  function Columns(fixed: seq<Png>, reg: seq<Png>): (Canvas, Canvas)
    requires fixed != []
  {
    (Column(fixed, fixed[0].width, SumHeights(fixed)), Column(reg, fixed[0].width, SumHeights(fixed)))
  }

  /** `Image.new` and the paste loop. */
  method PasteColumn(pngs: seq<Png>, width: nat, height: nat) returns (c: Canvas)
    ensures c == Column(pngs, width, height)
  {
    c := Canvas(width, height, []);
    for i := 0 to |pngs|
      invariant c == Canvas(width, height, Column(pngs, width, height).pasted[..i])
    {
      c := c.(pasted := c.pasted + [Spot(pngs, i)]);
    }
  }

  predicate Uniform(pngs: seq<Png>, h: nat) {
    forall i :: 0 <= i < |pngs| ==> pngs[i].height == h
  }

  lemma {:induction false} SumUniform(pngs: seq<Png>, h: nat)
    requires Uniform(pngs, h)
    ensures SumHeights(pngs) == |pngs| * h
  {
    if pngs != [] {
      SumUniform(pngs[..|pngs| - 1], h);
    }
  }

  /**
   * With tiles of one height, each tile starts where the ones above it end,
   * and the last ends at the bottom of a canvas as tall as their sum: the
   * column neither overlaps nor leaves a gap.
   */
  lemma {:induction false} UniformColumn(pngs: seq<Png>, h: nat)
    requires Uniform(pngs, h)
    ensures forall i :: 0 <= i < |pngs| ==> Spot(pngs, i).y == SumHeights(pngs[..i])
    ensures forall i :: 0 <= i < |pngs| ==> Spot(pngs, i).y + pngs[i].height <= SumHeights(pngs)
    ensures pngs != [] ==> Spot(pngs, |pngs| - 1).y + h == SumHeights(pngs)
  {
    forall i | 0 <= i < |pngs|
      ensures Spot(pngs, i).y == SumHeights(pngs[..i])
      ensures Spot(pngs, i).y + pngs[i].height <= SumHeights(pngs)
    {
      UniformSpot(pngs, h, i);
    }
    if pngs != [] {
      UniformSpot(pngs, h, |pngs| - 1);
    }
  }

  /** Tile `i` of a uniform column starts below the `i` tiles above it and ends within the canvas. */
  lemma UniformSpot(pngs: seq<Png>, h: nat, i: nat)
    requires Uniform(pngs, h) && i < |pngs|
    ensures Spot(pngs, i).y == SumHeights(pngs[..i])
    ensures Spot(pngs, i).y + pngs[i].height <= SumHeights(pngs)
  {
    assert Uniform(pngs[..i], h);
    SumUniform(pngs[..i], h);
    SumUniform(pngs, h);
    assert |pngs[..i]| == i;
    MulBelow(i, |pngs|, h);
  }

  /** `i * h + h <= n * h` for `i < n`. */
  lemma MulBelow(i: nat, n: nat, h: nat)
    requires i < n
    ensures i * h + h <= n * h
  {
    assert n * h == (i + 1) * h + (n - i - 1) * h;
  }

  /** Tiles of different heights are misplaced: the second of [10, 20] starts at 20, after a gap of 10. */
  lemma MixedHeightsLeaveGap()
    ensures var pngs := [Png("a", 1, 10), Png("b", 1, 20)];
      Spot(pngs, 1).y == 20 && SumHeights(pngs[..1]) == 10
  {
    var pngs := [Png("a", 1, 10), Png("b", 1, 20)];
    assert pngs[..1][..0] == [];
  }

  // --------------------------------------------------------------- removing

  /** Whether `os.remove` succeeds on each path in turn. */
  predicate Removable(files: set<string>, paths: seq<string>) {
    paths == [] || (paths[0] in files && Removable(files - {paths[0]}, paths[1..]))
  }

  /** The removals all succeed exactly when every path exists and none is listed twice. */
  lemma {:induction false} RemovableIff(files: set<string>, paths: seq<string>)
    ensures Removable(files, paths) <==>
      (forall i :: 0 <= i < |paths| ==> paths[i] in files) &&
      (forall i, j :: 0 <= i < j < |paths| ==> paths[i] != paths[j])
  {
    if paths != [] {
      var rest := paths[1..];
      RemovableIff(files - {paths[0]}, rest);
      assert forall i :: 1 <= i < |paths| ==> paths[i] == rest[i - 1];
      if Removable(files, paths) {
        forall i, j | 0 <= i < j < |paths| ensures paths[i] != paths[j] {
          if i == 0 {
            assert rest[j - 1] in files - {paths[0]};
          } else {
            assert rest[i - 1] != rest[j - 1];
          }
        }
      }
    }
  }

  function PngPaths(pngs: seq<Png>): (ps: seq<string>)
    ensures |ps| == |pngs|
  {
    seq(|pngs|, i requires 0 <= i < |pngs| => pngs[i].path)
  }

  function Members(s: seq<string>): set<string> {
    set p | p in s
  }

  /** The `os.remove` loops: they stop at the first path that is gone. */
  method RemoveAll(disk: Disk, paths: seq<string>) returns (err: Option<QcError>)
    modifies disk
    ensures err.None? <==> Removable(old(disk.files), paths)
    ensures err.Some? ==> err.value.NoSuchFile? && err.value.path in paths
    ensures err.None? ==> disk.files == old(disk.files) - Members(paths)
    ensures disk.files <= old(disk.files) && disk.log == old(disk.log)
  {
    var i := 0;
    while i < |paths|
      invariant 0 <= i <= |paths|
      invariant Removable(old(disk.files), paths) <==> Removable(disk.files, paths[i..])
      invariant disk.files == old(disk.files) - Members(paths[..i])
      invariant disk.log == old(disk.log)
    {
      assert paths[i..][1..] == paths[i + 1..];
      assert Members(paths[..i + 1]) == Members(paths[..i]) + {paths[i]} by {
        assert paths[..i + 1] == paths[..i] + [paths[i]];
      }
      var ok := disk.Remove(paths[i]);
      if !ok {
        return Some(NoSuchFile(paths[i]));
      }
      i := i + 1;
    }
    assert paths[..i] == paths;
    return None;
  }

  /** `os.path.join(out_dir, 'svg_process', '{prefix}_combined_{which}_image.png')`. */
  function CombinedName(outDir: string, prefix: string, which: string): string {
    Join(Join(outDir, "svg_process"), prefix + "_combined_" + which + "_image.png")
  }

  /**
   * `combine_png`: both globs must find tiles; both canvases take the first
   * fixed tile's width and the fixed tiles' total height; each column is
   * saved, and then every tile found is removed. The tiles are taken in the
   * order `glob` lists them; the `sort()` of each listing is not modelled.
   */
  method CombinePng(disk: Disk, outDir: string, prefix: string, glob: string -> seq<Png>)
    returns (r: Result<(Canvas, Canvas), QcError>)
    modifies disk
    ensures var fixed := glob(TilePattern(outDir, prefix, "fixed"));
      var reg := glob(TilePattern(outDir, prefix, "reg"));
      && (r == Failure(TilesMissing) <==> fixed == [] || reg == [])
      && (fixed == [] || reg == [] ==> disk.log == old(disk.log) && disk.files == old(disk.files))
      && (fixed != [] && reg != [] ==>
            && disk.log == old(disk.log) + [Artifact(CombinedFixed, CombinedName(outDir, prefix, "fixed")),
                                            Artifact(CombinedReg, CombinedName(outDir, prefix, "reg"))]
            && (r.Success? <==> Removable(old(disk.files) + {CombinedName(outDir, prefix, "fixed"),
                                                             CombinedName(outDir, prefix, "reg")},
                                          PngPaths(fixed) + PngPaths(reg)))
            && (r.Success? ==>
                  disk.files == (old(disk.files) + {CombinedName(outDir, prefix, "fixed"),
                                                    CombinedName(outDir, prefix, "reg")})
                                - Members(PngPaths(fixed) + PngPaths(reg)))
            && disk.files <= old(disk.files) + {CombinedName(outDir, prefix, "fixed"),
                                                CombinedName(outDir, prefix, "reg")})
      && (r.Success? ==> fixed != [] && r.value == Columns(fixed, reg))
      && (r.Failure? ==>
            r.error == TilesMissing || (r.error.NoSuchFile? && r.error.path in PngPaths(fixed) + PngPaths(reg)))
  {
    var fixed := glob(TilePattern(outDir, prefix, "fixed"));
    var reg := glob(TilePattern(outDir, prefix, "reg"));
    if fixed == [] || reg == [] {
      return Failure(TilesMissing);
    }
    var width, height := fixed[0].width, SumHeights(fixed);
    var fixedCanvas := PasteColumn(fixed, width, height);
    disk.Save(CombinedFixed, CombinedName(outDir, prefix, "fixed"));
    var regCanvas := PasteColumn(reg, width, height);
    disk.Save(CombinedReg, CombinedName(outDir, prefix, "reg"));
    assert disk.files == old(disk.files) + {CombinedName(outDir, prefix, "fixed"), CombinedName(outDir, prefix, "reg")};
    var err := RemoveAll(disk, PngPaths(fixed) + PngPaths(reg));
    if err.Some? {
      return Failure(err.value);
    }
    return Success((fixedCanvas, regCanvas));
  }

  // ------------------------------------------------------------------- main

  /** What `main` has produced when the SVG is compiled. */
  datatype QcRun = QcRun(inputs: QcInputs, tiles: seq<Tile>, fixedColumn: Canvas, regColumn: Canvas)

  /**
   * `main` up to `compile_svg`: parse, generate the tiles, combine them.
   * `load` gives the header of each image path.
   */
  method QcMain(disk: Disk, args: QcArgs, cwd: string, load: string -> Header, glob: string -> seq<Png>)
    returns (r: Result<QcRun, QcError>)
    modifies disk
    ensures var inp := ParseQcInputs(args, cwd);
      var seg := if inp.seg.Some? then Some(load(inp.seg.value)) else None;
      && (CheckGeometry(load(inp.fixed), load(inp.reg), seg).Some? ==>
            && r == Failure(CheckGeometry(load(inp.fixed), load(inp.reg), seg).value)
            && disk.log == old(disk.log) && disk.files == old(disk.files))
      && (r.Success? ==>
            && r.value.inputs == inp
            && r.value.tiles == TilePlan(Join(inp.outDir, "svg_process"), inp.prefix, load(inp.fixed).codes).0
            && KnownCount(load(inp.fixed).codes) == |load(inp.fixed).codes|)
    ensures var inp := ParseQcInputs(args, cwd);
      var seg := if inp.seg.Some? then Some(load(inp.seg.value)) else None;
      var plan := TilePlan(Join(inp.outDir, "svg_process"), inp.prefix, load(inp.fixed).codes);
      var fixed := glob(TilePattern(inp.outDir, inp.prefix, "fixed"));
      var reg := glob(TilePattern(inp.outDir, inp.prefix, "reg"));
      var made := old(disk.files) + Paths(MkdirLog(old(disk.files), Join(inp.outDir, "svg_process")) + TileLog(plan.0));
      var combined := {CombinedName(inp.outDir, inp.prefix, "fixed"), CombinedName(inp.outDir, inp.prefix, "reg")};
      CheckGeometry(load(inp.fixed), load(inp.reg), seg).None? ==>
        && (plan.1.Some? ==> r == Failure(plan.1.value) && disk.files == made)
        && (plan.1.None? && (fixed == [] || reg == []) ==> r == Failure(TilesMissing) && disk.files == made)
        && (plan.1.None? && fixed != [] && reg != [] ==>
              && (r.Failure? ==> r.error.NoSuchFile? && r.error.path in PngPaths(fixed) + PngPaths(reg))
              && disk.log == old(disk.log) + MkdirLog(old(disk.files), Join(inp.outDir, "svg_process")) + TileLog(plan.0)
                             + [Artifact(CombinedFixed, CombinedName(inp.outDir, inp.prefix, "fixed")),
                                Artifact(CombinedReg, CombinedName(inp.outDir, inp.prefix, "reg"))]
              && (r.Success? <==> Removable(made + combined, PngPaths(fixed) + PngPaths(reg)))
              && (r.Success? ==> disk.files == (made + combined) - Members(PngPaths(fixed) + PngPaths(reg)))
              && disk.files <= made + combined)
        && (r.Success? ==>
              && fixed != [] && reg != []
              && (r.value.fixedColumn, r.value.regColumn) == Columns(fixed, reg))
  {
    var inp := ParseQcInputs(args, cwd);
    var seg := if inp.seg.Some? then Some(load(inp.seg.value)) else None;
    var tiles := GeneratePngs(disk, load(inp.fixed), load(inp.reg), seg, inp.prefix, Some(inp.outDir));
    if tiles.Failure? {
      return Failure(tiles.error);
    }
    var columns := CombinePng(disk, inp.outDir, inp.prefix, glob);
    if columns.Failure? {
      return Failure(columns.error);
    }
    return Success(QcRun(inp, tiles.value, columns.value.0, columns.value.1));
  }
}
