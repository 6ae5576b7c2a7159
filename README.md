# icvmapper: a Dafny model of the segmentation driver and the registration QC

This project models two parts of icvmapper, a brain-MRI tool that segments the
intracranial volume with a Monte-Carlo-dropout network.

- **`main` of `icvmapper/segment/icvmapper.py`.** This is the decision layer around the network:
  - how `parse_inputs` turns the command line into a subject directory, a subject name and image paths;
  - which of the four trained models the given images select;
  - how `check_orient` reads c3d's report and decides whether to reorient;
  - the per-modality preprocessing loop (bias correction, reorientation, crop, clip, standardise, resample) and the files it writes;
  - the Monte Carlo ensemble: the mean of the samples and its threshold;
  - the plan of outputs written afterwards, gated by `ign_ort`/`cp_orient`, `-b` and `-rc`.
- **The registration QC of `icvmapper/qc/reg_svg.py`.** This covers:
  - the orientation-letter table;
  - the argument defaults;
  - the geometry checks and the tile names of `generate_pngs`;
  - the column layout and clean-up of `combine_png`;
  - `main` up to the SVG.

The file system is a `Storage.Disk` object. It holds the set of paths that
exist and the ordered log of files written, each tagged with its kind. Every
external tool (c3d, the bias-correction module, nibabel's save, `plot_roi`,
PIL) is modelled as writing its output file. Outside inputs are parameters:
- the text `c3d -info` prints (`info`);
- the network's k-th sample (`draw`);
- `glob`;
- the working directory;
- the models directory;
- the image headers (`load`).

Modules, one file each:
- `Wrappers`: Option, Result and Python truthiness of an optional string.
- `PyStr`: `str.find`, slicing with negative and clamped bounds, `split`, `capitalize`.
- `PosixPath`: `basename`, `dirname`, `join`, `normpath`/`abspath`, `splitext`, and the stem `basename(p).split('.')[0]`.
- `Orientation`: the `check_orient` decision.
- `Selection`: the model table.
- `Inputs`: `parse_inputs`.
- `Storage`: the `Disk` class.
- `Naming`: every derived file name and the gated output plan.
- `Voxels`: clipping, thresholding, cerebellum removal and masking on voxel sequences.
- `Ensemble`: the Monte Carlo mean, computed by a loop over a 2-D array.
- `Pipeline`: the conform loop and the output writers.
- `Driver`: `main` of the segmentation.
- `RegSvg`: `reg_svg.py`.

## Model

| member | source | states |
|---|---|---|
| PyStr.Find | icvmapper/segment/icvmapper.py:118 | `str.find`: -1 exactly when the pattern never occurs, otherwise the first index where it occurs |
| PyStr.PySlice | icvmapper/segment/icvmapper.py:119 | a Python slice `s[a:b]`: `s[a..b]` for in-range bounds, `s[a..]` when the stop runs past the end, negative bounds counted from the end (`s[-5:-2]`), a non-negative start with a negative stop cut at `len(s) + b`, empty when the start is past the end or a non-negative stop does not exceed the start, and never longer than `s` |
| PyStr.SplitOn | icvmapper/segment/icvmapper.py:281 | `str.split(sep)` gives at least one piece, no piece holds the separator, and joining the pieces with it gives back the string |
| PyStr.FirstPieceSpec | icvmapper/segment/icvmapper.py:281 | `split('.')[0]` is the prefix before the first dot, or the whole string when there is no dot |
| PosixPath.Basename | icvmapper/segment/icvmapper.py:73 | `basename` is a suffix of the path |
| PosixPath.BasenameSpec | icvmapper/segment/icvmapper.py:73 | `basename` holds no slash, and a path without a slash is its own basename |
| PosixPath.Join | icvmapper/segment/icvmapper.py:277 | `join` with an absolute second part gives that part, and the result is absolute whenever either part is |
| PosixPath.JoinSplitRoundTrip | icvmapper/qc/reg_svg.py:51 | `dirname` and `basename` of `join(dir, name)` give back `dir` and `name` for a slash-free name and a directory not ending in a slash |
| PosixPath.BasenameOfJoin | icvmapper/segment/icvmapper.py:277 | the basename of `join(a, b)` is the basename of `b` |
| PosixPath.StemSpec | icvmapper/segment/icvmapper.py:281 | the stem `basename(p).split('.')[0]` holds no dot and no slash and is a prefix of the basename |
| PosixPath.SplitExt | icvmapper/qc/reg_svg.py:57 | `splitext` splits the path into root + extension; the extension is empty or one dot followed by dot-free, slash-free text, and it is empty iff every dot after the last slash is a leading dot of the last component |
| PosixPath.Collapse | icvmapper/segment/icvmapper.py:69 | `normpath` keeps only real components taken from the input, and no `..` remains in a rooted path |
| PosixPath.NormpathOfAbsolute | icvmapper/segment/icvmapper.py:69 | `normpath` of an absolute path is absolute, and its basename is empty only for `/` and `//` |
| PosixPath.AbspathShape | icvmapper/segment/icvmapper.py:69-73 | `abspath` is absolute, and its basename (the subject name) is empty only at the root |
| Orientation.CheckOrient | icvmapper/segment/icvmapper.py:108-134 | the image is kept iff the code read is one of the two standard codes; otherwise it is reoriented to RPI iff the code (the report's tail for `Obl`) contains `R`, else to LPI |
| Orientation.CodeAfterMarker | icvmapper/segment/icvmapper.py:116-119 | in a report `... orient = XYZ ...` with no earlier marker, the code read is XYZ |
| Orientation.MissingMarkerReadsIndexEight | icvmapper/segment/icvmapper.py:118-119 | without the marker, `find` gives -1 and the code is read at index 8 |
| Orientation.StandardImageKept | icvmapper/segment/icvmapper.py:122 | an image reported as RPI or LPI is kept |
| Orientation.ReorientationIdempotent | icvmapper/segment/icvmapper.py:122-133 | once an image reports the tag it was reoriented to, a second check keeps it |
| Orientation.NonStandardReoriented | icvmapper/segment/icvmapper.py:126-130 | a non-standard, non-oblique code is reoriented to RPI iff it contains `R` |
| Orientation.ObliqueUsesClosestCode | icvmapper/segment/icvmapper.py:126-128 | for an oblique image, the handedness comes from the 3 characters ending 2 before the end of the report |
| Selection.SelectModel | icvmapper/segment/icvmapper.py:230-256 | T1 comes first and only once, every channel is the image of its modality, modalities are distinct, FLAIR precedes T2, and FLAIR (T2) is stacked iff it was given or the other one is an empty string |
| Selection.SelectionTable | icvmapper/segment/icvmapper.py:230-256 | the four rows of the model table: which channels and which model and cerebellum-model names each combination of given images selects |
| Selection.ModelDeterminedByModalities | icvmapper/segment/icvmapper.py:230-256 | the model chosen depends only on which modalities are stacked, not on the paths |
| Selection.GivenImagesAreStacked | icvmapper/segment/icvmapper.py:230-256 | with non-empty optional paths, a modality is stacked iff its image was given, and every stacked channel has a path |
| Selection.EmptyT2FallsThrough | icvmapper/segment/icvmapper.py:237-256 | `-t2 ""` without a FLAIR reaches the full-model branch with no FLAIR path |
| Inputs.ParseInputs | icvmapper/segment/icvmapper.py:55-99 | fails with `NoSubjectOrT1` iff neither `-s` nor `-t1` is given, and otherwise fails at the subject directory iff `SubjectDir` does; on success the subject directory is `SubjectDir`'s, the T1 exists and is `-t1` or the default name, the subject is the basename of the subject directory, with `-s` the FLAIR and T2 are the subject's standard names, otherwise `-fl`/`-t2`, and every other option is passed through |
| Inputs.SubjectModeSelectsAllThree | icvmapper/segment/icvmapper.py:78-80 | with `-s`, all three modalities are stacked and the full model is chosen |
| Inputs.SubjectDir | icvmapper/segment/icvmapper.py:64-71 | with `-s` and `--session`: the absolute first match of `<subj>/*<session>`, failing iff nothing matches; with `-s` alone: `abspath(subj)`; without `-s`: `abspath(dirname(t1w))`, failing iff `-t1` is missing too |
| Inputs.SubjectNameEmptyOnlyAtRoot | icvmapper/segment/icvmapper.py:64-73 | the subject directory is absolute, and the subject name is empty iff the directory is the root |
| Storage.Disk.Save | icvmapper/segment/icvmapper.py:367 | a tool writing a file adds its path and appends one artifact to the log |
| Storage.Disk.SaveAll | icvmapper/segment/icvmapper.py:322-340 | a series of tools adds all their paths and appends their artifacts in order |
| Storage.Disk.Remove | icvmapper/qc/reg_svg.py:143 | `os.remove` succeeds iff the path exists and then removes it; the log is unchanged |
| Naming.OutputPathsDistinct | icvmapper/segment/icvmapper.py:366-466 | without `-o`, and with a model named like those of the table, no two different outputs of the gated plan share a path, whatever `-b`, the reorientation and `rmcereb` are |
| Naming.OutputArtifacts | icvmapper/segment/icvmapper.py:366-466 | the output plan writes 6 files, plus 2 when reoriented, plus 5 (+2 when reoriented) for `-rc 1` |
| Naming.OutputsAreNotPreprocessing | icvmapper/segment/icvmapper.py:366-466 | no file written after inference is a preprocessing file, so the log splits cleanly into the two phases |
| Naming.IntermediateCollidesOnlyOnStem | icvmapper/segment/icvmapper.py:324-339 | two images share an intermediate file iff their stems agree |
| Naming.SameFileNameSharesIntermediates | icvmapper/segment/icvmapper.py:324-339 | images with the same file name in different directories write to the same intermediates |
| Naming.StdOrientGating | icvmapper/segment/icvmapper.py:388-409 | a standard-orientation output is written iff the flag `std` holds; `Driver.Run` reports that flag as `not ign_ort` and `check_orient`'s decision to reorient the T1 |
| Naming.CerebellumGating | icvmapper/segment/icvmapper.py:412-466 | a cerebellum output is written iff `rmcereb == 1` |
| Naming.WocStdGating | icvmapper/segment/icvmapper.py:445-447 | the standard-orientation cerebellum-excluded prediction is written iff `rmcereb == 1` and `std` holds, `std` being the reorientation decision `Driver.Run` reports |
| Naming.PredictionWrittenOnce | icvmapper/segment/icvmapper.py:388-397 | the delivered prediction is written exactly once, in both branches |
| Naming.ScenarioStandardNoCerebellum | icvmapper/segment/icvmapper.py:366-403 | the exact sequence of outputs for a standard image without cerebellum removal |
| Naming.ScenarioReorientedWithCerebellum | icvmapper/segment/icvmapper.py:366-466 | the exact sequence of outputs for a reoriented image with cerebellum removal |
| Naming.OutputsSparePreprocessing | icvmapper/segment/icvmapper.py:275-466 | without `-o`, no output path is an intermediate of any image or one of the bias-corrected T1, FLAIR and T2, nor, for an image with a plain stem, its converted or reoriented copy |
| Naming.ConvertedIsNotPredDir | icvmapper/segment/icvmapper.py:264-282 | the converted T1 never has the name of the prediction directory created just before it is looked for |
| Naming.StdOrientIsNotSeqBias | icvmapper/segment/icvmapper.py:307-320 | a secondary image's std-orient copy never has the name of the bias-corrected FLAIR or T2 |
| Naming.StdTwinCanMeetReorientedT1 | icvmapper/segment/icvmapper.py:218-220 | with `-o` named after the T1 (same stem), the prediction's standard-orientation twin is the path of the T1's reoriented copy |
| Voxels.Clip | icvmapper/segment/icvmapper.py:154-155 | a value is clamped into `[low, high]`: unchanged inside, `high` above, `low` below |
| Voxels.ClipIdempotent | icvmapper/segment/icvmapper.py:154-155 | clipping twice is clipping once |
| Voxels.ClipMonotone | icvmapper/segment/icvmapper.py:154-155 | clipping preserves the order of intensities |
| Voxels.CutoffImg | icvmapper/segment/icvmapper.py:147-156 | the clipped image has the same size and every voxel is the clipped input voxel |
| Voxels.Threshold | icvmapper/segment/icvmapper.py:370 | `img > t` gives a binary mask that is 1 exactly where the voxel exceeds `t` |
| Voxels.ThresholdMonotone | icvmapper/segment/icvmapper.py:370 | a higher threshold gives a smaller mask |
| Voxels.Difference | icvmapper/segment/icvmapper.py:432 | the voxel-wise difference: adding the subtrahend back gives the minuend |
| Voxels.RemoveCerebellum | icvmapper/segment/icvmapper.py:432-435 | prediction minus cerebellum, thresholded at 0, is a binary mask of the same size |
| Voxels.RemoveCerebellumIsSetDifference | icvmapper/segment/icvmapper.py:432-435 | on binary masks, a voxel stays in iff it is in the brain mask and not in the cerebellum mask, so the result lies within the prediction |
| Voxels.Mask | icvmapper/segment/icvmapper.py:402 | `img1 * img2` with a binary mask keeps the voxels under the mask and zeroes the rest |
| Voxels.MaskIdempotent | icvmapper/segment/icvmapper.py:402 | masking twice with the same mask is masking once |
| Voxels.SubMaskComposes | icvmapper/segment/icvmapper.py:459 | masking by the prediction and then by a sub-mask equals masking by the sub-mask alone |
| Ensemble.VotesCount | icvmapper/segment/icvmapper.py:355-359 | the vote count at a voxel is the number of samples that mark it |
| Ensemble.PredictMean | icvmapper/segment/icvmapper.py:353-363 | filling the sample buffer and averaging it along the sample axis gives the mean map `MeanMap` |
| Ensemble.SumOfMasksIsVotes | icvmapper/segment/icvmapper.py:363 | for binary samples, a voxel's sum over the samples is its vote count |
| Ensemble.MeanOfMasksIsProbability | icvmapper/segment/icvmapper.py:363 | for binary samples, every voxel of the mean map lies in `[0, 1]` |
| Ensemble.ThresholdIsVote | icvmapper/segment/icvmapper.py:369-371 | thresholding the mean at `t` keeps a voxel iff more than `t * n` samples voted for it; at 0.5, iff a strict majority did |
| Ensemble.AgreeingSamplesMean | icvmapper/segment/icvmapper.py:363 | when every sample is the same map, the mean is that map |
| Ensemble.MeanMapPermutation | icvmapper/segment/icvmapper.py:353-363 | the samples are exchangeable: reordering them by any permutation of `0 .. num_mc-1` leaves the mean map unchanged |
| Pipeline.CheckOrientOnDisk | icvmapper/segment/icvmapper.py:116-134 | runs the decision on the image's report; a reorientation writes exactly the reoriented copy and reports true; a kept image writes nothing; a missing (None) input to be reoriented is an error |
| Pipeline.PrepareAnchor | icvmapper/segment/icvmapper.py:275-282 | with `-b`, writes and uses the bias-corrected T1; without, reuses an existing `.nii.gz` copy, or writes one and leaves `in_ort` as None; the disk gains exactly the file written |
| Pipeline.ConformTail | icvmapper/segment/icvmapper.py:322-340 | every modality writes four preprocessing files |
| Pipeline.WriteIntermediates | icvmapper/segment/icvmapper.py:322-340 | the crop, clip, standardise and resample files are appended to the log in order, and the disk gains exactly their four paths |
| Pipeline.ConformT1 | icvmapper/segment/icvmapper.py:303-340 | the T1 channel is cropped on its own with nothing prepared before, crops the reoriented copy iff it exists, and writes exactly its four intermediates, which are the only paths the disk gains |
| Pipeline.PrepareSecondary | icvmapper/segment/icvmapper.py:307-320 | a FLAIR or T2 uses its bias-corrected name when `-b` is given or that file exists, and is reoriented iff `ign_ort` is off and its report is non-standard; exactly the bias-corrected and reoriented files are added to the disk, and logged in that order |
| Pipeline.SecondaryRunFits | icvmapper/segment/icvmapper.py:307-340 | a secondary pass that takes the choices the files dictate fits its modality: the bias swap, its preparation, the std-orient copy, and the crop and resampled names of the image it read |
| Pipeline.ConformSecondary | icvmapper/segment/icvmapper.py:303-340 | a FLAIR or T2 channel is cropped like the T1's crop, under the name of the image after the bias swap; it crops the std-orient copy iff the orientation check wrote it or it existed before, else the image itself; the log grows by its preparation and its four intermediates, and the disk gains exactly their paths |
| Pipeline.ConformLogIsPreprocessing | icvmapper/segment/icvmapper.py:303-340 | the whole conform loop writes only preprocessing files |
| Pipeline.ConformStep | icvmapper/segment/icvmapper.py:303-346 | one iteration fails iff the channel's path is None, and then writes nothing and leaves the disk unchanged; otherwise its run fits the modality (crop and resampled file named after the image it read, the T1 with no preparation, a secondary with the bias swap, its preparation and its std-orient copy), takes exactly the choices the files present at its start dictate, and adds exactly the paths of its preparation and intermediates |
| Pipeline.ChannelAt | icvmapper/segment/icvmapper.py:339-346 | channel `s` of `test_data` is the resampled file of pass `s` |
| Pipeline.RecordChannel | icvmapper/segment/icvmapper.py:345-346 | storing the resampled file extends the stacked channels by one, in order |
| Pipeline.ConformNext | icvmapper/segment/icvmapper.py:303-346 | one iteration extends the runs by one, stores the new run's resampled file in the next channel slot, keeps every run fitting the files present before the loop, takes the new run's choices from the files present at its start, and keeps the log and the disk in step: the disk is the files before the loop plus the paths of every run's log |
| Pipeline.Conform | icvmapper/segment/icvmapper.py:299-346 | the loop succeeds iff every selected channel has a path; then it stacks one resampled channel per modality, in the selected order, every run fitting its modality as in `Pipeline.ConformStep`, and logs exactly their preprocessing; whatever the outcome, the disk gains exactly the paths of what it logged |
| Pipeline.WritePrediction | icvmapper/segment/icvmapper.py:386-397 | when reoriented, writes the standard-orientation prediction and then copies the orientation back (which fails when `in_ort` is None); otherwise writes the prediction directly; the disk gains exactly the files written |
| Pipeline.WritePrimary | icvmapper/segment/icvmapper.py:366-409 | writes the primary outputs in order; with `in_ort` None it stops after the fifth; the disk gains exactly the paths written |
| Pipeline.WriteCerebellum | icvmapper/segment/icvmapper.py:412-466 | writes the cerebellum-removal outputs in order, and the disk gains exactly their paths |
| Pipeline.WriteOutputs | icvmapper/segment/icvmapper.py:366-466 | writes exactly the gated output plan `OutputArtifacts`, or its first five files when `in_ort` is None, and the disk gains exactly those paths |
| Pipeline.PredictionOnDisk | icvmapper/segment/icvmapper.py:388-397 | once the disk has gained the paths of the preprocessing and the gated output plan, the delivered prediction exists |
| Driver.Prepare | icvmapper/segment/icvmapper.py:209-268 | fails with a bad input iff `parse_inputs` does; skips iff the prediction exists and `-f` is not given; otherwise the model files exist and the model is the one the table selects |
| Driver.MakePredDir | icvmapper/segment/icvmapper.py:266-268 | the prediction directory exists afterwards and is created only when missing; nothing else is added to the disk |
| Driver.AnchorT1 | icvmapper/segment/icvmapper.py:266-282 | with `pred_dir` named `<dir>/pred_process_hfb` as `main` names it, `in_ort` is the bias-corrected T1 with `-b`, and None iff the `.nii.gz` copy had to be written; the disk gains exactly the paths logged |
| Driver.OrientAnchor | icvmapper/segment/icvmapper.py:285-296 | orientation is checked only when `ign_ort` is off, and the reorientation flag is exactly `check_orient`'s decision on `in_ort`; a failure happens only when `in_ort` is None (no `-b` and the converted copy was missing), either in `orient_img` or when loading the missing reoriented copy; the disk gains exactly the paths logged |
| Driver.StackChannels | icvmapper/segment/icvmapper.py:299-346 | one channel per selected modality, channel `i` being the resampled file of the image run `i` read, the runs fitting the files present before the loop, with only preprocessing written; it fails (at `basename(None)`) only when a selected modality has no path; the disk gains exactly the paths logged |
| Driver.Preprocess | icvmapper/segment/icvmapper.py:264-346 | fails only when `in_ort` is None or a selected modality has no path; on success `in_ort` is the bias-corrected or converted T1, the reorientation flag is `not ign_ort` and `check_orient`'s decision, channel `i` is the resampled file of run `i`'s image, the runs fit the files on disk, and only preprocessing files are written; the disk gains exactly the paths logged |
| Driver.Run | icvmapper/segment/icvmapper.py:264-466 | fails only with a missing image (`in_ort` or a selected path None) or a non-positive sample count; on success the report carries the selected model, `in_ort`, the reorientation decision, the runs and channels (channel 0 the T1's resampled file, channel `i` that of run `i`'s image), the mean map `MeanMap` of the samples and its threshold, and the output paths named at the start of `main`; standard-orientation outputs appear iff the image was reoriented; the log is the preprocessing followed by the gated output plan, and the disk gains exactly their paths |
| Driver.Segment | icvmapper/segment/icvmapper.py:209-466 | the whole `main`: a bad input iff `parse_inputs` fails; a failure before anything is written is exactly the one `Driver.Prepare` decides, and a skip reports the prediction `Driver.Prepare` names; in these three cases the log and the disk are unchanged; a failed run is a missing image or a bad sample count; a segmentation runs on the parsed inputs with the table's model, reports what `Driver.Run` promises, logs preprocessing, then exactly the gated outputs, the disk gains exactly their paths, and the prediction `main` names exists afterwards |
| RegSvg.AxisOf | icvmapper/qc/reg_svg.py:13-18 | the table is defined exactly on L R P A S I and maps them to x, y, z |
| RegSvg.AxesOfCodes | icvmapper/qc/reg_svg.py:13-18 | the three codes of a proper orientation map to x, y and z, one each |
| RegSvg.CheckGeometry | icvmapper/qc/reg_svg.py:70-78 | orientation is checked first and shape second; the check passes iff fixed and registered images agree in orientation and shape and the segmentation (when given) has the registered orientation |
| RegSvg.ParseQcInputs | icvmapper/qc/reg_svg.py:38-59 | the images and slices are passed through; an empty `-s` counts as absent; `-o` gives the output file and its directory, else `reg_comparison.svg` in the working directory; the prefix is the file name without its extension, and the whole file name iff its only dots are leading ones |
| RegSvg.DefaultPrefix | icvmapper/qc/reg_svg.py:53-57 | without `-o` the prefix is `reg_comparison` |
| RegSvg.NamedOutPrefix | icvmapper/qc/reg_svg.py:51-57 | `-o dir/name.ext`, with a slash-free name not starting with a dot and a plain extension, gives the prefix `name`, dots inside `name` included |
| RegSvg.Titles | icvmapper/qc/reg_svg.py:104 | only the x tiles get a title, `Fixed` or `Reg` |
| RegSvg.KnownCount | icvmapper/qc/reg_svg.py:95-96 | the tiles plotted before the table lookup fails are those for the leading known direction letters |
| RegSvg.TileNamesDiffer | icvmapper/qc/reg_svg.py:102 | tiles of different image type or axis get different file names |
| RegSvg.PlanOfCodes | icvmapper/qc/reg_svg.py:94-106 | for a proper orientation, the plan is the three fixed tiles followed by the three registered ones, in the order of the codes |
| RegSvg.SixTiles | icvmapper/qc/reg_svg.py:94-106 | for a proper orientation: six tiles with distinct paths, three fixed and three registered, each triple covering x, y and z, titled iff on x |
| RegSvg.PlotType | icvmapper/qc/reg_svg.py:95-106 | the inner loop plots one tile per direction letter and fails at the first letter the table lacks; the disk gains exactly the tiles written |
| RegSvg.PlotAll | icvmapper/qc/reg_svg.py:94-106 | the nested loops produce exactly `TilePlan`, log each tile written, and add exactly the tiles' paths to the disk |
| RegSvg.GeneratePngs | icvmapper/qc/reg_svg.py:65-106 | geometry errors write nothing and leave the disk unchanged; otherwise `svg_process` is made when missing and the planned tiles are written, failing at an unknown letter; the disk gains exactly the directory when made and the tiles written |
| RegSvg.TilesMatchGlob | icvmapper/qc/reg_svg.py:114-118 | the glob for one image type matches a tile iff the tile is of that type |
| RegSvg.PasteColumn | icvmapper/qc/reg_svg.py:131-139 | pasting each image at `i * height` gives the column `Column` |
| RegSvg.SumUniform | icvmapper/qc/reg_svg.py:128 | with equal heights, the canvas height is the count times the height |
| RegSvg.UniformColumn | icvmapper/qc/reg_svg.py:127-138 | with equal heights, the images stack without gaps and the last one ends at the bottom of the canvas |
| RegSvg.MixedHeightsLeaveGap | icvmapper/qc/reg_svg.py:133 | with heights 10 and 20, the second image is pasted at 20, not at 10 |
| RegSvg.RemovableIff | icvmapper/qc/reg_svg.py:141-145 | removing a list of files one by one succeeds iff every file exists and none is listed twice |
| RegSvg.RemoveAll | icvmapper/qc/reg_svg.py:141-145 | the clean-up fails iff the list is not removable, naming a listed file; on success exactly the listed files are gone |
| RegSvg.CombinePng | icvmapper/qc/reg_svg.py:109-145 | fails with missing tiles iff either glob is empty, writing nothing; otherwise writes the two combined images, laid out as columns of the fixed images' width and total height, and succeeds iff the tiles can all be removed, leaving the files present before plus the two combined images minus every tile found; any other failure names a listed tile, and no file other than the two combined images appears |
| RegSvg.QcMain | icvmapper/qc/reg_svg.py:174-179 | a geometry error is reported with nothing written and the disk unchanged; an unknown direction letter is reported as such; then missing tiles are reported when either glob is empty, in both cases the disk holding the files before plus the tile directory when made and the tiles written; otherwise it succeeds iff every tile found can be removed from those files plus the two combined images, and then the disk is exactly that set minus the tiles; a failed clean-up names a listed tile; on success the inputs are the parsed ones, every direction letter is known, the tiles are the plan, both columns are those `combine_png` lays out, and the log holds the tile directory, the tiles and the two combined images |

## Left out

- The image processing itself is out: the c3d operations, percentiles, intensity standardisation, smoothing, resampling and largest-connected-component. They are modelled only as the files they write. `CutoffImg` takes its two percentiles as parameters.
- Floating point is out. Voxels are `real`.
- The network (`run_test_case`) is an oracle of binary sample maps. The cerebellum network's output is not modelled beyond the files written.
- nibabel loading, image headers and affines are out. `reg_svg.py`'s images enter as `Header` values (codes and shape) through a `load` parameter.
- Tool failures are out: every tool is assumed to write its output.
- Printing, `termcolor`, `datetime`, `seg_qc.main` and `endstatement.main` are out; they neither decide nor write anything the model tracks.
- argparse and argcomplete are out. `Args`/`QcArgs` hold the parsed values.
- `cli.py` is not part of this model.
- `compile_svg` is out (svgwrite). `QcMain` stops after `combine_png`.
- The pixels `plot_roi` and PIL draw are out. A tile is its path, type, axis and title; a combined image is its size and the placements pasted on it.
- `glob` is an oracle. Its result is not tied to the disk contents, and its order is the order given (the `sort()` calls are not modelled).
- Paths are compared as strings: two spellings of one file are different files.
- Driver.Run: `num_mc <= 0` is reported as `BadSampleCount`. In the source, a negative count fails in `np.zeros`, but a count of 0 averages an empty axis and goes on with a NaN map.
- Naming.OutputPathsDistinct: stated only without `-o` and for model names ending in none of `b`, `B`, `c`, `m` (every model the table selects); with `-o` outputs can meet preprocessing files, as `Naming.StdTwinCanMeetReorientedT1` shows.
- Naming.OutputsSparePreprocessing: the converted and reoriented copies are covered only for images whose stem ends in none of `b`, `c`, `d`, `t`; the prediction directory itself is not compared with the outputs.
- Ensemble.PredictMean: requires at least one sample, for the reason given for `Driver.Run`.
- Driver.Run: requires every network sample to have `160*160*160` voxels, the size the source's buffer has.
- Pipeline.WritePrediction: `fill_holes` rewrites a file in place and is folded into the save before it.
- Pipeline.RecordChannel: the stacked test data holds the resampled file names, not voxel arrays.
- RegSvg.GeneratePngs: the `output_dir is None` branch inside the loop (`reg_svg.py:99-100`) cannot help, since `os.path.join(None, ...)` has already failed at line 87; it is reported as `NoOutputDir`.
- RegSvg.GeneratePngs: a loaded segmentation image is taken to be truthy, and the blank mask image is not modelled.
- RegSvg.ParseQcInputs: `slices` is passed through but never used, as in the source, whose cut coordinates are fixed.
