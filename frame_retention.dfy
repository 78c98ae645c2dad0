/** The loop over meta["frames"]: which frames are kept, and the three parallel lists
    (image paths, poses, depth arrays) and the skip counter it builds. */
module FrameRetention {
  import opened ManifestTypes
  import opened Depths

  /** What the loop reaches outside the manifest, as values:
      - data: the configured data directory;
      - truthy: Python truthiness of `data / Path(file_path)` (a pathlib path is always truthy,
        so in practice this holds of every path; the model does not rely on it);
      - loadArray: np.load of a depth file, None when it raises;
      - decodes: whether imageio.imread of an image succeeds (its pixels are never used). */
  datatype Environment<D> = Environment(
    data: string,
    truthy: DataPath -> bool,
    loadArray: DataPath -> Option<seq<seq<D>>>,
    decodes: DataPath -> bool)

  /** The loop's four accumulators. */
  datatype Retained<D> = Retained(imageFilenames: seq<DataPath>, poses: seq<Matrix>, depths: seq<D>, numSkipped: nat)

  function ImagePathOf<D>(env: Environment<D>, frame: Frame): DataPath
  {
    Joined(env.data, frame.filePath)
  }

  function DepthPathOf<D>(env: Environment<D>, frame: Frame): DataPath
  {
    Joined(env.data, DepthFileName(frame.filePath))
  }

  /** A frame is kept exactly when its joined image path is truthy. */
  predicate IsKept<D>(env: Environment<D>, frame: Frame)
  {
    env.truthy(ImagePathOf(env, frame))
  }

  /** The work done for a kept frame, in the source's order: convert its pose with np.array,
      load the depth file, take its [0][0] slice, decode the image. The slice, or the first
      exception raised. */
  function LoadFrame<D>(env: Environment<D>, frame: Frame): (r: Result<D>)
    ensures !Rectangular(frame.transformMatrix) ==> r == Err(RaggedPose)
    ensures Rectangular(frame.transformMatrix) && env.loadArray(DepthPathOf(env, frame)).None? ==>
      r == Err(ReadFailure(DepthPathOf(env, frame)))
    ensures var loaded := env.loadArray(DepthPathOf(env, frame));
      Rectangular(frame.transformMatrix) && loaded.Some? && (|loaded.value| == 0 || |loaded.value[0]| == 0) ==>
      r == Err(IndexOutOfRange)
    ensures var loaded := env.loadArray(DepthPathOf(env, frame));
      Rectangular(frame.transformMatrix) && loaded.Some? && |loaded.value| > 0 && |loaded.value[0]| > 0 &&
      !env.decodes(ImagePathOf(env, frame)) ==>
      r == Err(ReadFailure(ImagePathOf(env, frame)))
    ensures r.Ok? <==>
      var loaded := env.loadArray(DepthPathOf(env, frame));
      Rectangular(frame.transformMatrix) && loaded.Some? && |loaded.value| > 0 && |loaded.value[0]| > 0 &&
      env.decodes(ImagePathOf(env, frame))
    ensures r.Ok? ==> r.value == env.loadArray(DepthPathOf(env, frame)).value[0][0]
  {
    if !Rectangular(frame.transformMatrix) then Err(RaggedPose)
    else
      match env.loadArray(DepthPathOf(env, frame))
      case None => Err(ReadFailure(DepthPathOf(env, frame)))
      case Some(arr) =>
        if |arr| == 0 || |arr[0]| == 0 then Err(IndexOutOfRange)
        else if !env.decodes(ImagePathOf(env, frame)) then Err(ReadFailure(ImagePathOf(env, frame)))
        else Ok(arr[0][0])
  }

  /** A kept frame whose reads raise. */
  predicate Fails<D>(env: Environment<D>, frame: Frame)
  {
    IsKept(env, frame) && LoadFrame(env, frame).Err?
  }

  /** One turn of the loop: skip the frame, or append its path, pose and depth slice. */
  function Step<D>(env: Environment<D>, acc: Retained<D>, frame: Frame): (r: Result<Retained<D>>)
    ensures r.Err? <==> Fails(env, frame)
    ensures r.Err? ==> r.error == LoadFrame(env, frame).error
    ensures r.Ok? && !IsKept(env, frame) ==> r.value == acc.(numSkipped := acc.numSkipped + 1)
    ensures r.Ok? && IsKept(env, frame) ==>
      r.value.imageFilenames == acc.imageFilenames + [ImagePathOf(env, frame)] &&
      r.value.poses == acc.poses + [frame.transformMatrix] &&
      r.value.depths == acc.depths + [LoadFrame(env, frame).value] &&
      r.value.numSkipped == acc.numSkipped
  {
    if !IsKept(env, frame) then Ok(acc.(numSkipped := acc.numSkipped + 1))
    else
      var depth :- LoadFrame(env, frame);
      Ok(Retained(acc.imageFilenames + [ImagePathOf(env, frame)],
                  acc.poses + [frame.transformMatrix],
                  acc.depths + [depth],
                  acc.numSkipped))
  }

  /** The specification of the loop: the state after the frames so far, or the exception. */
  function Retain<D>(env: Environment<D>, frames: seq<Frame>): (r: Result<Retained<D>>)
    ensures r.Ok? ==> |r.value.imageFilenames| == |r.value.poses| == |r.value.depths| <= |frames|
    ensures r.Ok? ==> |r.value.imageFilenames| + r.value.numSkipped == |frames|
    decreases |frames|
  {
    if frames == [] then Ok(Retained([], [], [], 0))
    else
      var acc :- Retain(env, frames[..|frames| - 1]);
      Step(env, acc, frames[|frames| - 1])
  }

  /** Retain over one more frame is one more Step. */
  lemma RetainExtend<D>(env: Environment<D>, frames: seq<Frame>, i: nat, acc: Retained<D>)
    requires i < |frames| && Retain(env, frames[..i]) == Ok(acc)
    ensures Retain(env, frames[..i + 1]) == Step(env, acc, frames[i])
  {
    assert frames[..i + 1][..i] == frames[..i];
  }

  /** The positions, in manifest order, of the frames that are kept. */
  function KeptIndices<D>(env: Environment<D>, frames: seq<Frame>): seq<nat>
    decreases |frames|
  {
    if frames == [] then []
    else KeptIndices(env, frames[..|frames| - 1]) + (if IsKept(env, frames[|frames| - 1]) then [|frames| - 1] else [])
  }

  /** KeptIndices lists every kept position once, in increasing order, and nothing else. */
  lemma {:induction false} KeptIndicesExact<D>(env: Environment<D>, frames: seq<Frame>)
    ensures forall a, b :: 0 <= a < b < |KeptIndices(env, frames)| ==> KeptIndices(env, frames)[a] < KeptIndices(env, frames)[b]
    ensures forall a :: 0 <= a < |KeptIndices(env, frames)| ==>
      KeptIndices(env, frames)[a] < |frames| && IsKept(env, frames[KeptIndices(env, frames)[a]])
    ensures forall j :: 0 <= j < |frames| && IsKept(env, frames[j]) ==> j in KeptIndices(env, frames)
    decreases |frames|
  {
    if frames != [] {
      var init := frames[..|frames| - 1];
      KeptIndicesExact(env, init);
      assert forall j :: 0 <= j < |init| ==> init[j] == frames[j];
    }
  }

  /** Once the loop has raised, later frames change nothing. */
  lemma {:induction false} RetainErrorPersists<D>(env: Environment<D>, frames: seq<Frame>, n: nat)
    requires n <= |frames| && Retain(env, frames[..n]).Err?
    ensures Retain(env, frames) == Retain(env, frames[..n])
    decreases |frames| - n
  {
    if n < |frames| {
      var init := frames[..|frames| - 1];
      assert init[..n] == frames[..n];
      RetainErrorPersists(env, init, n);
    } else {
      assert frames[..n] == frames;
    }
  }

  /** After the loop the three lists have one entry per kept frame, in manifest order (the
      i-th image path, pose and depth all come from the same frame), and every other frame
      was counted as skipped. */
  lemma {:induction false} RetainShape<D>(env: Environment<D>, frames: seq<Frame>)
    requires Retain(env, frames).Ok?
    ensures var r, idx := Retain(env, frames).value, KeptIndices(env, frames);
      |r.imageFilenames| == |r.poses| == |r.depths| == |idx| &&
      |r.imageFilenames| + r.numSkipped == |frames| &&
      forall i :: 0 <= i < |idx| ==>
        idx[i] < |frames| &&
        r.imageFilenames[i] == ImagePathOf(env, frames[idx[i]]) &&
        r.poses[i] == frames[idx[i]].transformMatrix &&
        LoadFrame(env, frames[idx[i]]) == Ok(r.depths[i])
    decreases |frames|
  {
    KeptIndicesExact(env, frames);
    if frames != [] {
      var init := frames[..|frames| - 1];
      RetainShape(env, init);
      KeptIndicesExact(env, init);
      assert forall j :: 0 <= j < |init| ==> init[j] == frames[j];
    }
  }

  /** The loop raises exactly when some kept frame's reads raise, and then it raises the
      exception of the first such frame. */
  lemma {:induction false} RetainFailsAtFirstFailingFrame<D>(env: Environment<D>, frames: seq<Frame>)
    ensures Retain(env, frames).Err? <==> exists k :: 0 <= k < |frames| && Fails(env, frames[k])
    ensures forall k :: 0 <= k < |frames| && Fails(env, frames[k]) && (forall j :: 0 <= j < k ==> !Fails(env, frames[j])) ==>
      Retain(env, frames) == Err(LoadFrame(env, frames[k]).error)
    decreases |frames|
  {
    if frames != [] {
      var init := frames[..|frames| - 1];
      var last := |frames| - 1;
      RetainFailsAtFirstFailingFrame(env, init);
      assert forall j :: 0 <= j < |init| ==> init[j] == frames[j];
      if exists k :: 0 <= k < |init| && Fails(env, init[k]) {
        var k :| 0 <= k < |init| && Fails(env, init[k]);
        assert Fails(env, frames[k]);
      }
    }
  }

  /** A ragged pose in the first kept frame, at whatever position, ends the loop before that
      frame's depth file is read, whatever the reads would do. */
  lemma RaggedPoseFailsBeforeLoad<D>(env: Environment<D>, frames: seq<Frame>, k: nat)
    requires k < |frames| && IsKept(env, frames[k]) && !Rectangular(frames[k].transformMatrix)
    requires forall j :: 0 <= j < k ==> !IsKept(env, frames[j])
    ensures Retain(env, frames) == Err(RaggedPose)
  {
    RetainFailsAtFirstFailingFrame(env, frames);
  }

  /** When no path is truthy, nothing is read, nothing kept and every frame is skipped. */
  lemma {:induction false} AllFalsyPathsSkipAll<D>(env: Environment<D>, frames: seq<Frame>)
    requires forall k :: 0 <= k < |frames| ==> !IsKept(env, frames[k])
    ensures Retain(env, frames) == Ok(Retained([], [], [], |frames|))
    decreases |frames|
  {
    if frames != [] {
      var init := frames[..|frames| - 1];
      assert forall j :: 0 <= j < |init| ==> init[j] == frames[j];
      AllFalsyPathsSkipAll(env, init);
    }
  }

  /** The loop of _generate_dataparser_outputs. */
  method RetainFrames<D>(env: Environment<D>, frames: seq<Frame>) returns (r: Result<Retained<D>>)
    ensures r == Retain(env, frames)
    ensures r.Ok? ==> |r.value.imageFilenames| == |r.value.poses| == |r.value.depths|
    ensures r.Ok? ==> |r.value.imageFilenames| + r.value.numSkipped == |frames|
  {
    var imageFilenames: seq<DataPath> := [];
    var poses: seq<Matrix> := [];
    var depths: seq<D> := [];
    var numSkipped: nat := 0;
    var i := 0;
    while i < |frames|
      invariant 0 <= i <= |frames|
      invariant Retain(env, frames[..i]) == Ok(Retained(imageFilenames, poses, depths, numSkipped))
    {
      var frame := frames[i];
      ghost var acc := Retained(imageFilenames, poses, depths, numSkipped);
      RetainExtend(env, frames, i, acc);
      var fname := Joined(env.data, frame.filePath);
      if !env.truthy(fname) {
        numSkipped := numSkipped + 1;
        assert Step(env, acc, frame) == Ok(Retained(imageFilenames, poses, depths, numSkipped));
      } else {
        imageFilenames := imageFilenames + [fname];
        if !Rectangular(frame.transformMatrix) {
          r := Err(RaggedPose);
          assert Step(env, acc, frame) == r;
          RetainErrorPersists(env, frames, i + 1);
          return;
        }
        poses := poses + [frame.transformMatrix];
        var depthPath := Joined(env.data, DepthFileName(frame.filePath));
        var loaded := env.loadArray(depthPath);
        if loaded.None? {
          r := Err(ReadFailure(depthPath));
          assert Step(env, acc, frame) == r;
          RetainErrorPersists(env, frames, i + 1);
          return;
        }
        var depth := loaded.value;
        if |depth| == 0 || |depth[0]| == 0 {
          r := Err(IndexOutOfRange);
          assert Step(env, acc, frame) == r;
          RetainErrorPersists(env, frames, i + 1);
          return;
        }
        depths := depths + [depth[0][0]];
        if !env.decodes(fname) {
          r := Err(ReadFailure(fname));
          assert Step(env, acc, frame) == r;
          RetainErrorPersists(env, frames, i + 1);
          return;
        }
        assert LoadFrame(env, frame) == Ok(depth[0][0]);
        assert Step(env, acc, frame) == Ok(Retained(imageFilenames, poses, depths, numSkipped));
      }
      i := i + 1;
    }
    assert frames[..i] == frames;
    r := Ok(Retained(imageFilenames, poses, depths, numSkipped));
    RetainShape(env, frames);
  }
}
