# Instant-NGP with depths: manifest-to-dataset transformation

A Dafny model of the data parser `InstantNGPWithDepths` from nerfstudio. The parser reads
a `transforms.json` manifest, with one entry per frame giving an image path and a pose. Each
frame also has a disparity file next to its image. The parser turns all this into the dataset
description that training consumes. The model covers:

- **Frame retention** (`FrameRetention`). The loop over `meta["frames"]` keeps a frame when
  its joined image path is truthy, and otherwise counts it as skipped. For each kept frame it
  appends the image path, the pose and the `[0][0]` slice of the frame's depth array to three
  parallel lists. `RetainFrames` is the imperative loop. `Retain` is its specification, and
  the lemmas about `Retain` state the counts, the order and which error is raised.
- **Depth files and the depth lookup** (`Depths`). The depth file of `file_path` is
  `file_path[:-4] + "_disp.npy"`. `get_depths` is modelled with Python's indexing rules,
  negative indices included.
- **Pose post-processing** (`Poses`). The kept poses are stacked into an `array3<real>`.
  `poses[:, :3, 3] *= scene_scale` is an in-place loop over that array. `poses[:, :3]` then
  gives the camera-to-world transforms.
- **Scene box** (`SceneBoxes`). The cube `[-s,-s,-s]..[s,s,s]`, where `s = aabb_scale`.
- **Focal lengths** (`FocalLengths`). The per-axis fallback `fl_x` → `x_fov` (degrees) →
  `camera_angle_x` (radians) → 0, and likewise for y. The parse raises if either axis ends
  at 0. `FirstMatch` is a reference definition of the same fallback as an ordered rule list.
- **Assembly** (`DataParser`). `GenerateDataparserOutputs` runs every step in the source's
  order. `Expected` is its specification. Every exception is a `Result` error:
  - a missing manifest key (`KeyError`);
  - the empty-dataset assertion;
  - the focal-length `AttributeError`;
  - a failing read;
  - an index past the end of an array;
  - a ragged `transform_matrix`, which `np.array` rejects inside the loop;
  - poses that numpy cannot stack and index.

Values that come from outside the manifest are parameters:
- `Environment` carries the data directory, the truthiness of a joined path, `np.load` and
  whether `imageio.imread` succeeds.
- `Numerics` carries `np.deg2rad` and `fov_to_focal_length`.
- The scene scale is a plain argument.

Where the code departs from the usual account of this format, the model follows the code:
- `fov_to_focal_length` divides by `np.tanh` (the hyperbolic tangent), not by the tangent
  that the usual pinhole formula uses. The conversion is uninterpreted, so no numeric
  statement depends on it. Numeric examples computed with `tan` do not hold for the code.
- The skip branch tests the truthiness of a `pathlib.Path`, which is always true, so no frame
  is ever skipped in practice. The model keeps the branch behind the `truthy` parameter and
  does not assume either answer.
- An explicit `fl_x` or `fl_y` of 0 raises the focal-length error, just like a missing field.
- Nothing checks that `aabb_scale` is positive. A negative value gives an empty box
  (`SceneBoxNonEmptyIff`).

## Model

| member | source | states |
|---|---|---|
| `ManifestTypes.Field` | nerfstudio/data/dataparsers/instant_ngp_with_depths_dataparser.py:102 | `meta[key]` succeeds exactly when the key is present, returns its value, and otherwise raises the KeyError naming that key |
| `Depths.DropLastFour` | nerfstudio/data/dataparsers/instant_ngp_with_depths_dataparser.py:84 | `s[:-4]` is a prefix of `s` of length `max(0, len(s) - 4)` |
| `Depths.DepthFileName` | nerfstudio/data/dataparsers/instant_ngp_with_depths_dataparser.py:84 | the depth path has length `max(0, len(p) - 4) + 9`, starts with a prefix of the image path and ends in `_disp.npy` |
| `Depths.ImagePathRecovered` | nerfstudio/data/dataparsers/instant_ngp_with_depths_dataparser.py:84 | round trip: the image path is its depth path without the suffix, followed by the four dropped characters |
| `Depths.DepthFileNameInjective` | nerfstudio/data/dataparsers/instant_ngp_with_depths_dataparser.py:84 | two images with the same extension never share a depth file |
| `Depths.SameStemSameDepthFile` | nerfstudio/data/dataparsers/instant_ngp_with_depths_dataparser.py:84 | images differing only in their last four characters share one depth file |
| `Depths.DepthFileNameExample` | nerfstudio/data/dataparsers/instant_ngp_with_depths_dataparser.py:84 | `images/frame_0001.png` maps to `images/frame_0001_disp.npy` |
| `Depths.PyIndex` | nerfstudio/data/dataparsers/instant_ngp_with_depths_dataparser.py:61 | `depths[i]` succeeds exactly for `-n <= i < n`, with negative indices counting from the end, and raises IndexError otherwise |
| `Depths.GetDepths` | nerfstudio/data/dataparsers/instant_ngp_with_depths_dataparser.py:54-61 | the lookup succeeds exactly for a valid Python index and returns a one-key dictionary `{"depth": depths[i]}` |
| `Depths.GetDepthsNegativeIndex` | nerfstudio/data/dataparsers/instant_ngp_with_depths_dataparser.py:54-61 | index `-k` gives the same entry as index `n - k` |
| `FrameRetention.LoadFrame` | nerfstudio/data/dataparsers/instant_ngp_with_depths_dataparser.py:83-86 | the work for a kept frame fails at its first failing step, in the source's order: a ragged `transform_matrix` raises before anything is read; then a failing `np.load` raises a read error naming the depth path; then a missing `[0][0]` raises the index error before the image is read; then an undecodable image raises a read error naming the image path; otherwise the result is the `[0][0]` entry |
| `FrameRetention.Step` | nerfstudio/data/dataparsers/instant_ngp_with_depths_dataparser.py:78-87 | one iteration raises exactly when the frame is kept and its work fails, and raises that error; a skipped frame only adds 1 to the skip count; a kept frame appends its path, its pose and its `[0][0]` depth entry at the end of the three lists and leaves the skip count alone |
| `FrameRetention.Retain` | nerfstudio/data/dataparsers/instant_ngp_with_depths_dataparser.py:73-87 | after the loop the three lists have equal length, at most the number of frames, and that length plus the skip count is the number of frames; `RetainShape`, `RetainFailsAtFirstFailingFrame` and `RetainErrorPersists` state the contents and the errors |
| `FrameRetention.KeptIndicesExact` | nerfstudio/data/dataparsers/instant_ngp_with_depths_dataparser.py:77-82 | the kept positions are strictly increasing and lie in range; a position is listed exactly when its path is truthy |
| `FrameRetention.RetainErrorPersists` | nerfstudio/data/dataparsers/instant_ngp_with_depths_dataparser.py:77-87 | once a frame's reads raise, later frames do not change the outcome |
| `FrameRetention.RetainShape` | nerfstudio/data/dataparsers/instant_ngp_with_depths_dataparser.py:73-87 | after the loop the three lists have equal length; that length plus the skip count is the number of frames; the i-th path, pose and depth come from the i-th kept frame, in manifest order |
| `FrameRetention.RetainFailsAtFirstFailingFrame` | nerfstudio/data/dataparsers/instant_ngp_with_depths_dataparser.py:82-87 | the loop raises if and only if some kept frame's pose conversion, depth load, `[0][0]` slice or image decode fails; it raises the error of the first such frame |
| `FrameRetention.RaggedPoseFailsBeforeLoad` | nerfstudio/data/dataparsers/instant_ngp_with_depths_dataparser.py:83-84 | when the first kept frame, at any position, has a ragged pose, the loop ends with the ragged-pose error, whatever that frame's depth file and image would do |
| `FrameRetention.AllFalsyPathsSkipAll` | nerfstudio/data/dataparsers/instant_ngp_with_depths_dataparser.py:77-80 | when no path is truthy, the lists stay empty and every frame is counted as skipped |
| `FrameRetention.RetainFrames` | nerfstudio/data/dataparsers/instant_ngp_with_depths_dataparser.py:73-87 | the loop computes `Retain`, with equal list lengths and kept + skipped = number of frames |
| `Poses.ScaledCameraToWorld` | nerfstudio/data/dataparsers/instant_ngp_with_depths_dataparser.py:97-99 | the transform of one pose has `min(3, rows)` rows, each as long as the pose's row; `ScaledCameraToWorldEntries`, `ScalingComposes` and `ScalingInvertible` state its entries |
| `Poses.CameraToWorlds` | nerfstudio/data/dataparsers/instant_ngp_with_depths_dataparser.py:96-99 | one transform per pose, in order, each with `min(3, rows)` rows; `PosePostProcess` shows that the stacked, scaled and sliced array equals it |
| `Poses.ScaledCameraToWorldEntries` | nerfstudio/data/dataparsers/instant_ngp_with_depths_dataparser.py:96-99 | exactly the entries `[r][3]` for `r < 3` are multiplied by the scale, and all other entries of the top three rows are kept |
| `Poses.ScalingComposes` | nerfstudio/data/dataparsers/instant_ngp_with_depths_dataparser.py:97 | translations scale linearly: scaling by s and then by t equals scaling by s * t |
| `Poses.ScalingInvertible` | nerfstudio/data/dataparsers/instant_ngp_with_depths_dataparser.py:97-99 | for a nonzero scale, scaling back by its inverse recovers the top three rows of the pose |
| `Poses.Stack` | nerfstudio/data/dataparsers/instant_ngp_with_depths_dataparser.py:96 | `np.array(poses)` is a fresh (n, rows, cols) array holding each pose entry at its place |
| `Poses.ScaleTranslations` | nerfstudio/data/dataparsers/instant_ngp_with_depths_dataparser.py:97 | in place: `a[i, r, 3]` for `r < 3` is multiplied by the scale, and every other entry is unchanged |
| `Poses.TopRows` | nerfstudio/data/dataparsers/instant_ngp_with_depths_dataparser.py:99 | `poses[:, :3]` holds the first `min(3, rows)` rows of every pose, entry for entry |
| `Poses.CheckStackable` | nerfstudio/data/dataparsers/instant_ngp_with_depths_dataparser.py:96-97 | returns true exactly when there is at least one pose and all poses share one shape with at least one row and at least four columns |
| `Poses.PosePostProcess` | nerfstudio/data/dataparsers/instant_ngp_with_depths_dataparser.py:96-99 | succeeds exactly when the poses can be stacked; the result is each pose's scaled top three rows, in order |
| `SceneBoxes.FromAabbScale` | nerfstudio/data/dataparsers/instant_ngp_with_depths_dataparser.py:107-112 | the box is well shaped: two corners of three coordinates each |
| `SceneBoxes.SceneBoxCentredAtOrigin` | nerfstudio/data/dataparsers/instant_ngp_with_depths_dataparser.py:105-112 | the box is centred at the origin and is `2s` wide along every axis |
| `SceneBoxes.SceneBoxPointSymmetric` | nerfstudio/data/dataparsers/instant_ngp_with_depths_dataparser.py:107-112 | a point is inside exactly when its negation is |
| `SceneBoxes.SceneBoxNonEmptyIff` | nerfstudio/data/dataparsers/instant_ngp_with_depths_dataparser.py:107-112 | the box holds the origin exactly when `s >= 0`; with `s < 0` it holds no point |
| `SceneBoxes.SceneBoxForScaleFour` | nerfstudio/data/dataparsers/instant_ngp_with_depths_dataparser.py:107-112 | `aabb_scale = 4` gives exactly `[-4,-4,-4]..[4,4,4]` |
| `FocalLengths.ResolveAxis` | nerfstudio/data/dataparsers/instant_ngp_with_depths_dataparser.py:152-164 | a present direct field (`fl_x`/`fl_y`) is returned as is; the axis raises exactly when the direct field is absent, a field of view is present and the resolution (`w`/`h`) is missing, and then the KeyError names the resolution; with none of the three fields the axis stays 0 |
| `FocalLengths.GetFocalLengths` | nerfstudio/data/dataparsers/instant_ngp_with_depths_dataparser.py:140-169 | succeeds exactly when both axes resolve and both values are nonzero, and then returns the two resolved values; the focal-length error is raised exactly when both axes resolve and one of them is 0; an x-axis KeyError comes first, and a y-axis KeyError is raised when x resolves |
| `FocalLengths.FirstMatchSelectsFirstPresent` | nerfstudio/data/dataparsers/instant_ngp_with_depths_dataparser.py:152-164 | in an ordered rule list, the first rule whose key is present decides the result |
| `FocalLengths.FirstMatchNonePresent` | nerfstudio/data/dataparsers/instant_ngp_with_depths_dataparser.py:147-164 | with no key present, the axis keeps the sentinel 0 |
| `FocalLengths.ResolveAxisIsFirstMatch` | nerfstudio/data/dataparsers/instant_ngp_with_depths_dataparser.py:152-164 | the if/elif chain equals the rule list: direct value, then degrees FOV, then radians angle, with the resolution `w` or `h` |
| `FocalLengths.AxisDependsOnItsKeysOnly` | nerfstudio/data/dataparsers/instant_ngp_with_depths_dataparser.py:152-164 | manifests that agree on an axis's four keys resolve that axis the same way |
| `FocalLengths.AxesAreIndependent` | nerfstudio/data/dataparsers/instant_ngp_with_depths_dataparser.py:152-164 | removing every y key leaves x unchanged, and removing every x key leaves y unchanged |
| `FocalLengths.DirectFocalLengthsExact` | nerfstudio/data/dataparsers/instant_ngp_with_depths_dataparser.py:152-169 | present `fl_x`/`fl_y` are returned exactly; if either of them is 0 the resolver raises |
| `FocalLengths.NoFocalFieldsFails` | nerfstudio/data/dataparsers/instant_ngp_with_depths_dataparser.py:147-167 | without any x-axis field the resolver fails; it gives the focal-length error when the y axis resolves |
| `FocalLengths.DegreesAgreeWithRadians` | nerfstudio/data/dataparsers/instant_ngp_with_depths_dataparser.py:154-157 | an `x_fov` of d degrees resolves to the same focal length as a `camera_angle_x` holding `deg2rad(d)` |
| `FocalLengths.DirectFocalExample` | nerfstudio/data/dataparsers/instant_ngp_with_depths_dataparser.py:152-169 | `{fl_x: 50, fl_y: 60}` gives `(50, 60)` |
| `DataParser.DepthInput` | nerfstudio/data/dataparsers/instant_ngp_with_depths_dataparser.py:54-61 | the depth input registered with the outputs (line 133) for index i exists exactly when i is a valid Python index into the depths list, and for `i >= 0` it is `{"depth": depths[i]}` |
| `DataParser.TruncToInt` | nerfstudio/data/dataparsers/instant_ngp_with_depths_dataparser.py:122-123 | `int()` truncates toward zero: the result is within 1 of its argument, on the zero side |
| `DataParser.Expected` | nerfstudio/data/dataparsers/instant_ngp_with_depths_dataparser.py:70-137 | without `frames` the parse raises the KeyError for `frames`; an exception in the loop is the parse's exception; a successful parse has equally many image paths, depths and transforms, at least one, and nonzero focal lengths; the lemmas below state the rest |
| `DataParser.GenerateDataparserOutputs` | nerfstudio/data/dataparsers/instant_ngp_with_depths_dataparser.py:70-137 | the parse computes `Expected`: every step in the source's order, with the first exception ending it |
| `DataParser.EmptyDatasetFailsFirst` | nerfstudio/data/dataparsers/instant_ngp_with_depths_dataparser.py:90-95 | if the loop keeps nothing, the parse fails with the empty-dataset error, whatever the rest of the manifest holds |
| `DataParser.AllFalsyPathsFail` | nerfstudio/data/dataparsers/instant_ngp_with_depths_dataparser.py:77-95 | when every path is falsy, every frame is counted as skipped and the parse fails as empty |
| `DataParser.ExpectedUsesRetained` | nerfstudio/data/dataparsers/instant_ngp_with_depths_dataparser.py:129-135 | a successful parse outputs the loop's image paths and depths unchanged, and the scaled transforms of the loop's poses |
| `DataParser.OutputsAligned` | nerfstudio/data/dataparsers/instant_ngp_with_depths_dataparser.py:96-135 | on success the paths, camera-to-world transforms and depths are nonempty and equally long, one per kept frame, in order; each transform is that frame's scaled top three rows |
| `DataParser.DepthInputMatchesImage` | nerfstudio/data/dataparsers/instant_ngp_with_depths_dataparser.py:129-135 | the depth input at index i is the depth array loaded for the i-th image path |
| `DataParser.CamerasFromManifest` | nerfstudio/data/dataparsers/instant_ngp_with_depths_dataparser.py:101-126 | the camera has the resolved nonzero focal lengths, the manifest's `cx` and `cy`, `h` and `w` truncated to integers, `k1, k2, p1, p2`, the perspective type and the scene box of `aabb_scale` |
| `DataParser.FocalFailureEndsParse` | nerfstudio/data/dataparsers/instant_ngp_with_depths_dataparser.py:114-116 | a focal-length failure ends a parse that gets that far, before the camera is built |

## Left out

- Reading `transforms.json` (`load_from_json`) is I/O. The manifest arrives already loaded,
  with its numeric top-level fields as reals.
- A frame entry without `file_path` or `transform_matrix` is not modelled. A non-numeric
  manifest value, where `float()` would fail, is not modelled either.
- `np.load` and `imageio.imread` are I/O. They are parameters that either succeed or raise.
  A depth array is opaque, except for the two outer levels that `[0][0]` indexes. The decoded
  image's height and width are never used, so they are dropped.
- The numeric values of `np.deg2rad` and `fov_to_focal_length` (`np.tanh`) are floating-point
  transcendental maths. They are uninterpreted parameters, and only the choice of branch is
  modelled.
- The `float32` cast and the `torch` conversions are numeric representation. Entries are exact
  reals, so float32 rounding of the scaled translations is not captured.
- `camera_utils.get_distortion_params`, `Cameras`, `SceneBox` and `DataparserOutputs` are
  not part of this model. The model records the arguments passed to them.
- The console line reporting the skip count is output only. Its condition is always true.
- The `split` argument only appears in that log line, so it is not a parameter.
- The configuration dataclass (`data`, `scale_factor`, `scene_scale` with its default 0.33)
  and the parser registration are plumbing. The data directory and the scene scale are
  parameters, and `scale_factor` is unused by this parser.
- A ragged `transform_matrix` (rows of different lengths) fails at line 83, inside the loop,
  before that frame's depth file is read. This is how NumPy 1.24 and later behave. Older
  NumPy versions build an object array there and fail only at line 96, which the model does
  not capture.
- Joining paths with pathlib (`data / Path(file_path)`) is abstract. A path is kept as the
  raw pair of strings, so an absolute `file_path`, which replaces the data directory, is not
  resolved, and `.` components or repeated `/` are not normalised. Two raw pairs that name the
  same file count as different paths.
- Aliasing between parse calls is not modelled. Each parse allocates its own pose array and
  shares nothing with other calls.
