/** get_focal_lengths: the focal length of each image axis, read directly or derived from a
    field of view, with a fixed priority among the manifest fields that can give it. */
module FocalLengths {
  import opened ManifestTypes

  /** The floating-point conversions the resolver applies, left uninterpreted:
      deg2rad is np.deg2rad, and fovToFocal(rad, res) is the inner fov_to_focal_length,
      0.5 * res / np.tanh(0.5 * rad) (the hyperbolic tangent, as written). */
  datatype Numerics = Numerics(deg2rad: real -> real, fovToFocal: (real, real) -> real)

  /** The manifest keys one image axis is resolved from, and the resolution that goes with it. */
  datatype Axis = Axis(direct: string, fovDegrees: string, angleRadians: string, resolution: string)

  const X: Axis := Axis("fl_x", "x_fov", "camera_angle_x", "w")
  const Y: Axis := Axis("fl_y", "y_fov", "camera_angle_y", "h")

  /** The value an axis keeps when none of its keys is present. */
  const Unset: real := 0.0

  /** One axis, as the if/elif chain of the source resolves it. Reading the resolution of a
      field-of-view branch raises KeyError when it is missing. */
  function ResolveAxis(meta: map<string, real>, ax: Axis, num: Numerics): (r: Result<real>)
    ensures ax.direct in meta ==> r == Ok(meta[ax.direct])
    ensures r.Err? <==> ax.direct !in meta && (ax.fovDegrees in meta || ax.angleRadians in meta) && ax.resolution !in meta
    ensures r.Err? ==> r.error == MissingField(ax.resolution)
    ensures ax.direct !in meta && ax.fovDegrees !in meta && ax.angleRadians !in meta ==> r == Ok(Unset)
  {
    if ax.direct in meta then Ok(meta[ax.direct])
    else if ax.fovDegrees in meta then
      if ax.resolution in meta then Ok(num.fovToFocal(num.deg2rad(meta[ax.fovDegrees]), meta[ax.resolution]))
      else Err(MissingField(ax.resolution))
    else if ax.angleRadians in meta then
      if ax.resolution in meta then Ok(num.fovToFocal(meta[ax.angleRadians], meta[ax.resolution]))
      else Err(MissingField(ax.resolution))
    else Ok(Unset)
  }

  /** Both axes, x first; then the check that neither stayed at zero. */
  function GetFocalLengths(meta: map<string, real>, num: Numerics): (r: Result<(real, real)>)
    ensures r.Ok? ==> r.value.0 != 0.0 && r.value.1 != 0.0
    ensures r.Ok? ==> ResolveAxis(meta, X, num) == Ok(r.value.0) && ResolveAxis(meta, Y, num) == Ok(r.value.1)
    ensures r == Err(FocalLengthUnavailable) <==>
      ResolveAxis(meta, X, num).Ok? && ResolveAxis(meta, Y, num).Ok? &&
      (ResolveAxis(meta, X, num).value == 0.0 || ResolveAxis(meta, Y, num).value == 0.0)
    ensures ResolveAxis(meta, X, num).Err? ==> r == ResolveAxis(meta, X, num).PropagateFailure()
    ensures ResolveAxis(meta, X, num).Ok? && ResolveAxis(meta, Y, num).Err? ==> r == ResolveAxis(meta, Y, num).PropagateFailure()
    ensures r.Ok? <==>
      ResolveAxis(meta, X, num).Ok? && ResolveAxis(meta, Y, num).Ok? &&
      ResolveAxis(meta, X, num).value != 0.0 && ResolveAxis(meta, Y, num).value != 0.0
  {
    var fx :- ResolveAxis(meta, X, num);
    var fy :- ResolveAxis(meta, Y, num);
    if fx == 0.0 || fy == 0.0 then Err(FocalLengthUnavailable) else Ok((fx, fy))
  }

  // ---------------------------------------------------------------------------------------
  // A reference definition: the fallback as an ordered list of (key, conversion) rules,
  // the first rule whose key is present deciding.

  datatype Conversion = AsIs | FromDegrees | FromRadians

  datatype Rule = Rule(key: string, conversion: Conversion)

  function Rules(ax: Axis): seq<Rule>
  {
    [Rule(ax.direct, AsIs), Rule(ax.fovDegrees, FromDegrees), Rule(ax.angleRadians, FromRadians)]
  }

  function Convert(c: Conversion, v: real, meta: map<string, real>, res: string, num: Numerics): Result<real>
  {
    match c
    case AsIs => Ok(v)
    case FromDegrees => if res in meta then Ok(num.fovToFocal(num.deg2rad(v), meta[res])) else Err(MissingField(res))
    case FromRadians => if res in meta then Ok(num.fovToFocal(v, meta[res])) else Err(MissingField(res))
  }

  function FirstMatch(rules: seq<Rule>, meta: map<string, real>, res: string, num: Numerics): Result<real>
  {
    if rules == [] then Ok(Unset)
    else if rules[0].key in meta then Convert(rules[0].conversion, meta[rules[0].key], meta, res, num)
    else FirstMatch(rules[1..], meta, res, num)
  }

  /** The first rule whose key is present decides, whatever the later rules say. */
  lemma {:induction false} FirstMatchSelectsFirstPresent(rules: seq<Rule>, meta: map<string, real>, res: string, num: Numerics, j: nat)
    requires j < |rules| && rules[j].key in meta
    requires forall k :: 0 <= k < j ==> rules[k].key !in meta
    ensures FirstMatch(rules, meta, res, num) == Convert(rules[j].conversion, meta[rules[j].key], meta, res, num)
  {
    if j > 0 {
      assert rules[0].key !in meta;
      FirstMatchSelectsFirstPresent(rules[1..], meta, res, num, j - 1);
    }
  }

  /** With no rule's key present the sentinel survives. */
  lemma {:induction false} FirstMatchNonePresent(rules: seq<Rule>, meta: map<string, real>, res: string, num: Numerics)
    requires forall k :: 0 <= k < |rules| ==> rules[k].key !in meta
    ensures FirstMatch(rules, meta, res, num) == Ok(Unset)
  {
    if rules != [] {
      assert rules[0].key !in meta;
      FirstMatchNonePresent(rules[1..], meta, res, num);
    }
  }

  /** The if/elif chain is the ordered rule list: direct value, then degrees, then radians. */
  lemma ResolveAxisIsFirstMatch(meta: map<string, real>, ax: Axis, num: Numerics)
    ensures ResolveAxis(meta, ax, num) == FirstMatch(Rules(ax), meta, ax.resolution, num)
  {
    var rules := Rules(ax);
    if ax.direct in meta {
      FirstMatchSelectsFirstPresent(rules, meta, ax.resolution, num, 0);
    } else if ax.fovDegrees in meta {
      FirstMatchSelectsFirstPresent(rules, meta, ax.resolution, num, 1);
    } else if ax.angleRadians in meta {
      FirstMatchSelectsFirstPresent(rules, meta, ax.resolution, num, 2);
    } else {
      FirstMatchNonePresent(rules, meta, ax.resolution, num);
    }
  }

  // ---------------------------------------------------------------------------------------
  // Properties of the resolver.

  /** Two manifests that agree on the given keys (presence and value). */
  ghost predicate AgreeOn(m1: map<string, real>, m2: map<string, real>, keys: set<string>)
  {
    forall k :: k in keys ==> (k in m1 <==> k in m2) && (k in m1 ==> m1[k] == m2[k])
  }

  function Keys(ax: Axis): set<string>
  {
    {ax.direct, ax.fovDegrees, ax.angleRadians, ax.resolution}
  }

  /** An axis depends on its own four keys only. */
  lemma AxisDependsOnItsKeysOnly(m1: map<string, real>, m2: map<string, real>, ax: Axis, num: Numerics)
    requires AgreeOn(m1, m2, Keys(ax))
    ensures ResolveAxis(m1, ax, num) == ResolveAxis(m2, ax, num)
  {
    assert ax.direct in Keys(ax) && ax.fovDegrees in Keys(ax) && ax.angleRadians in Keys(ax) && ax.resolution in Keys(ax);
  }

  /** So the x axis ignores every y field, and the y axis every x field. */
  lemma AxesAreIndependent(meta: map<string, real>, num: Numerics)
    ensures ResolveAxis(meta, X, num) == ResolveAxis(meta - Keys(Y), X, num)
    ensures ResolveAxis(meta, Y, num) == ResolveAxis(meta - Keys(X), Y, num)
  {
    assert Keys(X) !! Keys(Y);
    AxisDependsOnItsKeysOnly(meta, meta - Keys(Y), X, num);
    AxisDependsOnItsKeysOnly(meta, meta - Keys(X), Y, num);
  }

  /** A present fl_x / fl_y is returned exactly, and a present zero raises. */
  lemma DirectFocalLengthsExact(meta: map<string, real>, num: Numerics)
    requires "fl_x" in meta && "fl_y" in meta
    ensures GetFocalLengths(meta, num) ==
      if meta["fl_x"] == 0.0 || meta["fl_y"] == 0.0 then Err(FocalLengthUnavailable)
      else Ok((meta["fl_x"], meta["fl_y"]))
  {
  }

  /** A manifest without any x-axis focal field fails: with the y axis's KeyError if that
      axis raises one, otherwise with the focal-length error. */
  lemma NoFocalFieldsFails(meta: map<string, real>, num: Numerics)
    requires "fl_x" !in meta && "x_fov" !in meta && "camera_angle_x" !in meta
    ensures GetFocalLengths(meta, num).Err?
    ensures ResolveAxis(meta, Y, num).Ok? ==> GetFocalLengths(meta, num) == Err(FocalLengthUnavailable)
  {
    assert ResolveAxis(meta, X, num) == Ok(Unset);
  }

  /** A field of view in degrees is converted to radians first, so it resolves to the same
      focal length as the radians field holding that angle. */
  lemma DegreesAgreeWithRadians(d: real, w: real, num: Numerics)
    ensures ResolveAxis(map["x_fov" := d, "w" := w], X, num) ==
            ResolveAxis(map["camera_angle_x" := num.deg2rad(d), "w" := w], X, num)
  {
  }

  /** The example manifest {fl_x: 50, fl_y: 60}. */
  lemma DirectFocalExample(num: Numerics)
    ensures GetFocalLengths(map["fl_x" := 50.0, "fl_y" := 60.0], num) == Ok((50.0, 60.0))
  {
  }
}
