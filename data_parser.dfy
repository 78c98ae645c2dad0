/** _generate_dataparser_outputs: from one loaded manifest to the dataset description. */
module DataParser {
  import opened ManifestTypes
  import opened Depths
  import opened FrameRetention
  import opened Poses
  import opened SceneBoxes
  import opened FocalLengths

  datatype CameraType = Perspective

  /** The coefficients read for camera_utils.get_distortion_params, which is not part of this
      model: they are kept as read. */
  datatype DistortionParams = DistortionParams(k1: real, k2: real, p1: real, p2: real)

  /** The arguments the Cameras object is built from. */
  datatype Cameras = Cameras(
    fx: real, fy: real, cx: real, cy: real,
    distortion: DistortionParams,
    height: int, width: int,
    cameraToWorlds: seq<Matrix>,
    cameraType: CameraType)

  /** The dataset description. The extra input registered under "semantics" is get_depths over
      this same depths list, so it is given by DepthInput below rather than stored twice. */
  datatype DataparserOutputs<D> = DataparserOutputs(
    imageFilenames: seq<DataPath>,
    cameras: Cameras,
    sceneBox: SceneBox,
    depths: seq<D>)

  /** The extra per-sample input a consumer asks for with image index idx. */
  function DepthInput<D>(out: DataparserOutputs<D>, idx: int): (r: Result<map<string, D>>)
    ensures r.Ok? <==> -|out.depths| <= idx < |out.depths|
    ensures r.Ok? && 0 <= idx ==> r.value == map["depth" := out.depths[idx]]
    ensures r.Ok? && idx < 0 ==> r.value == map["depth" := out.depths[|out.depths| + idx]]
    ensures r.Err? ==> r.error == IndexOutOfRange
  {
    GetDepths(idx, out.depths)
  }

  /** Python's int() on a float: truncation toward zero. */
  function TruncToInt(x: real): (n: int)
    ensures 0.0 <= x ==> 0 <= n && n as real <= x < n as real + 1.0
    ensures x < 0.0 ==> n <= 0 && n as real - 1.0 < x <= n as real
  {
    if x >= 0.0 then x.Floor else -((-x).Floor)
  }

  /** The specification of a parse: every step in the source's order, the first exception
      ending it. */
  ghost function Expected<D>(meta: Manifest, env: Environment<D>, sceneScale: real, num: Numerics): (r: Result<DataparserOutputs<D>>)
    ensures meta.frames.None? ==> r == Err(MissingField("frames"))
    ensures meta.frames.Some? && Retain(env, meta.frames.value).Err? ==> r == Retain(env, meta.frames.value).PropagateFailure()
    ensures r.Ok? ==> |r.value.imageFilenames| == |r.value.depths| == |r.value.cameras.cameraToWorlds| > 0
    ensures r.Ok? ==> r.value.cameras.fx != 0.0 && r.value.cameras.fy != 0.0
  {
    if meta.frames.None? then Err(MissingField("frames"))
    else
      var kept :- Retain(env, meta.frames.value);
      if |kept.imageFilenames| == 0 then Err(DatasetEmpty)
      else if !Stackable(kept.poses) then Err(MalformedPoses)
      else
        var k1 :- Field(meta.scalars, "k1");
        var k2 :- Field(meta.scalars, "k2");
        var p1 :- Field(meta.scalars, "p1");
        var p2 :- Field(meta.scalars, "p2");
        var aabbScale :- Field(meta.scalars, "aabb_scale");
        var fl :- GetFocalLengths(meta.scalars, num);
        var cx :- Field(meta.scalars, "cx");
        var cy :- Field(meta.scalars, "cy");
        var h :- Field(meta.scalars, "h");
        var w :- Field(meta.scalars, "w");
        Ok(DataparserOutputs(
          kept.imageFilenames,
          Cameras(fl.0, fl.1, cx, cy, DistortionParams(k1, k2, p1, p2), TruncToInt(h), TruncToInt(w),
                  CameraToWorlds(kept.poses, sceneScale), Perspective),
          FromAabbScale(aabbScale),
          kept.depths))
  }

  /** The parse. The manifest arrives loaded; reading it from disk is not modelled. */
  method GenerateDataparserOutputs<D>(meta: Manifest, env: Environment<D>, sceneScale: real, num: Numerics)
    returns (r: Result<DataparserOutputs<D>>)
    ensures r == Expected(meta, env, sceneScale, num)
  {
    if meta.frames.None? {
      return Err(MissingField("frames"));
    }
    var kept :- RetainFrames(env, meta.frames.value);
    var imageFilenames, poses, depths := kept.imageFilenames, kept.poses, kept.depths;
    if |imageFilenames| == 0 {
      return Err(DatasetEmpty);
    }
    var cameraToWorld :- PosePostProcess(poses, sceneScale);

    var k1 :- Field(meta.scalars, "k1");
    var k2 :- Field(meta.scalars, "k2");
    var p1 :- Field(meta.scalars, "p1");
    var p2 :- Field(meta.scalars, "p2");
    var distortionParams := DistortionParams(k1, k2, p1, p2);

    var aabbScale :- Field(meta.scalars, "aabb_scale");
    var sceneBox := FromAabbScale(aabbScale);

    var fl :- GetFocalLengths(meta.scalars, num);

    var cx :- Field(meta.scalars, "cx");
    var cy :- Field(meta.scalars, "cy");
    var h :- Field(meta.scalars, "h");
    var w :- Field(meta.scalars, "w");
    var cameras := Cameras(fl.0, fl.1, cx, cy, distortionParams, TruncToInt(h), TruncToInt(w), cameraToWorld, Perspective);

    return Ok(DataparserOutputs(imageFilenames, cameras, sceneBox, depths));
  }

  // ---------------------------------------------------------------------------------------
  // Properties of a parse.

  /** When the loop keeps nothing the parse fails with the empty-dataset assertion, whatever
      the rest of the manifest holds: no pose, camera or scene-box work decides the outcome. */
  lemma EmptyDatasetFailsFirst<D>(meta: Manifest, env: Environment<D>, sceneScale: real, num: Numerics)
    requires meta.frames.Some?
    requires Retain(env, meta.frames.value).Ok? && Retain(env, meta.frames.value).value.imageFilenames == []
    ensures Expected(meta, env, sceneScale, num) == Err(DatasetEmpty)
  {
  }

  /** A manifest whose every path is falsy: all frames skipped, then the empty-dataset error. */
  lemma AllFalsyPathsFail<D>(meta: Manifest, env: Environment<D>, sceneScale: real, num: Numerics)
    requires meta.frames.Some?
    requires forall k :: 0 <= k < |meta.frames.value| ==> !IsKept(env, meta.frames.value[k])
    ensures Retain(env, meta.frames.value).Ok?
    ensures Retain(env, meta.frames.value).value.numSkipped == |meta.frames.value|
    ensures Expected(meta, env, sceneScale, num) == Err(DatasetEmpty)
  {
    AllFalsyPathsSkipAll(env, meta.frames.value);
  }

  /** A successful parse took its lists from a successful loop, and its transforms from them. */
  lemma ExpectedUsesRetained<D>(meta: Manifest, env: Environment<D>, sceneScale: real, num: Numerics)
    requires Expected(meta, env, sceneScale, num).Ok?
    ensures meta.frames.Some? && Retain(env, meta.frames.value).Ok?
    ensures var out, kept := Expected(meta, env, sceneScale, num).value, Retain(env, meta.frames.value).value;
      out.imageFilenames == kept.imageFilenames && out.depths == kept.depths && |kept.imageFilenames| > 0 &&
      out.cameras.cameraToWorlds == CameraToWorlds(kept.poses, sceneScale)
  {
  }

  /** A successful parse lines up its outputs: one image path, camera-to-world transform and
      depth array per kept frame, in manifest order, at least one of them; the transform is the
      frame's pose with the translation scaled and the homogeneous row dropped. */
  lemma OutputsAligned<D>(meta: Manifest, env: Environment<D>, sceneScale: real, num: Numerics)
    requires Expected(meta, env, sceneScale, num).Ok?
    ensures meta.frames.Some?
    ensures var out, frames, idx := Expected(meta, env, sceneScale, num).value, meta.frames.value, KeptIndices(env, meta.frames.value);
      0 < |out.imageFilenames| == |out.depths| == |out.cameras.cameraToWorlds| == |idx| <= |frames| &&
      forall i :: 0 <= i < |idx| ==>
        idx[i] < |frames| &&
        out.imageFilenames[i] == ImagePathOf(env, frames[idx[i]]) &&
        out.cameras.cameraToWorlds[i] == ScaledCameraToWorld(frames[idx[i]].transformMatrix, sceneScale) &&
        LoadFrame(env, frames[idx[i]]) == Ok(out.depths[i])
  {
    ExpectedUsesRetained(meta, env, sceneScale, num);
    var frames := meta.frames.value;
    RetainShape(env, frames);
  }

  /** The depth input for sample i is the depth array loaded for the i-th image. */
  lemma DepthInputMatchesImage<D>(meta: Manifest, env: Environment<D>, sceneScale: real, num: Numerics, i: nat)
    requires Expected(meta, env, sceneScale, num).Ok?
    requires i < |Expected(meta, env, sceneScale, num).value.imageFilenames|
    ensures meta.frames.Some? && i < |KeptIndices(env, meta.frames.value)|
    ensures KeptIndices(env, meta.frames.value)[i] < |meta.frames.value|
    ensures var out, frame := Expected(meta, env, sceneScale, num).value, meta.frames.value[KeptIndices(env, meta.frames.value)[i]];
      out.imageFilenames[i] == ImagePathOf(env, frame) &&
      DepthInput(out, i).Ok? &&
      LoadFrame(env, frame) == Ok(DepthInput(out, i).value["depth"])
  {
    OutputsAligned(meta, env, sceneScale, num);
  }

  /** The camera carries the resolved focal lengths (both nonzero), the manifest's principal
      point, its height and width truncated to integers, and the scene box of aabb_scale. */
  lemma CamerasFromManifest<D>(meta: Manifest, env: Environment<D>, sceneScale: real, num: Numerics)
    requires Expected(meta, env, sceneScale, num).Ok?
    ensures var out, m := Expected(meta, env, sceneScale, num).value, meta.scalars;
      GetFocalLengths(m, num) == Ok((out.cameras.fx, out.cameras.fy)) &&
      out.cameras.fx != 0.0 && out.cameras.fy != 0.0 &&
      "cx" in m && out.cameras.cx == m["cx"] && "cy" in m && out.cameras.cy == m["cy"] &&
      "h" in m && out.cameras.height == TruncToInt(m["h"]) && "w" in m && out.cameras.width == TruncToInt(m["w"]) &&
      "aabb_scale" in m && out.sceneBox == FromAabbScale(m["aabb_scale"]) &&
      out.cameras.distortion == DistortionParams(m["k1"], m["k2"], m["p1"], m["p2"]) &&
      out.cameras.cameraType == Perspective
  {
  }

  /** A focal-length failure ends a parse that got that far, before any camera is built. */
  lemma FocalFailureEndsParse<D>(meta: Manifest, env: Environment<D>, sceneScale: real, num: Numerics)
    requires meta.frames.Some?
    requires Retain(env, meta.frames.value).Ok?
    requires |Retain(env, meta.frames.value).value.imageFilenames| > 0
    requires Stackable(Retain(env, meta.frames.value).value.poses)
    requires "k1" in meta.scalars && "k2" in meta.scalars && "p1" in meta.scalars && "p2" in meta.scalars
    requires "aabb_scale" in meta.scalars
    requires GetFocalLengths(meta.scalars, num).Err?
    ensures Expected(meta, env, sceneScale, num) == Err(GetFocalLengths(meta.scalars, num).error)
  {
  }
}
