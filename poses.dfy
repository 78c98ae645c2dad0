/** Pose post-processing: the kept poses are stacked into one array, the translation column of
    the top three rows is scaled in place by scene_scale, and the top three rows of each pose
    become its camera-to-world transform. */
module Poses {
  import opened ManifestTypes

  function Min(a: int, b: int): int
  {
    if a <= b then a else b
  }

  /** The column `poses[:, :3, 3]` addresses. */
  const TranslationColumn: nat := 3

  /** Every pose has `rows` rows of `cols` entries. */
  ghost predicate Uniform(ps: seq<Matrix>, rows: nat, cols: nat)
  {
    forall i :: 0 <= i < |ps| ==> |ps[i]| == rows && forall r :: 0 <= r < rows ==> |ps[i][r]| == cols
  }

  /** The poses stack into a three-dimensional array (n, rows, cols) that `[:, :3, 3]` can
      index: at least one pose, at least one row, at least four columns, all of one shape. */
  ghost predicate Stackable(ps: seq<Matrix>)
  {
    |ps| > 0 && |ps[0]| >= 1 && |ps[0][0]| > TranslationColumn && Uniform(ps, |ps[0]|, |ps[0][0]|)
  }

  /** The camera-to-world transform of one pose: its top three rows, with the translation
      column multiplied by the scale. */
  function ScaledCameraToWorld(m: Matrix, scale: real): (c: Matrix)
    ensures |c| == Min(3, |m|) <= 3
    ensures forall r :: 0 <= r < |c| ==> |c[r]| == |m[r]|
  {
    seq(Min(3, |m|), r requires 0 <= r < Min(3, |m|) =>
      seq(|m[r]|, c requires 0 <= c < |m[r]| => if c == TranslationColumn then m[r][c] * scale else m[r][c]))
  }

  function CameraToWorlds(ps: seq<Matrix>, scale: real): (c: seq<Matrix>)
    ensures |c| == |ps|
    ensures forall i :: 0 <= i < |ps| ==> |c[i]| == Min(3, |ps[i]|)
  {
    seq(|ps|, i requires 0 <= i < |ps| => ScaledCameraToWorld(ps[i], scale))
  }

  /** Only translation entries are scaled, every other entry is kept, and the rows past the
      third (the homogeneous row) are dropped. */
  lemma ScaledCameraToWorldEntries(m: Matrix, scale: real)
    ensures forall r :: 0 <= r < Min(3, |m|) && TranslationColumn < |m[r]| ==>
      ScaledCameraToWorld(m, scale)[r][TranslationColumn] == scale * m[r][TranslationColumn]
    ensures forall r, c :: 0 <= r < Min(3, |m|) && 0 <= c < |m[r]| && c != TranslationColumn ==>
      ScaledCameraToWorld(m, scale)[r][c] == m[r][c]
  {
  }

  /** Translations scale linearly: scaling by s then t is scaling by s * t. */
  lemma ScalingComposes(m: Matrix, s: real, t: real)
    ensures ScaledCameraToWorld(ScaledCameraToWorld(m, s), t) == ScaledCameraToWorld(m, s * t)
  {
    var once := ScaledCameraToWorld(m, s);
    var twice := ScaledCameraToWorld(once, t);
    var direct := ScaledCameraToWorld(m, s * t);
    assert |twice| == |direct|;
    forall r | 0 <= r < |direct| ensures twice[r] == direct[r] {
      assert |twice[r]| == |direct[r]|;
      forall c | 0 <= c < |direct[r]| ensures twice[r][c] == direct[r][c] {
        if c == TranslationColumn {
          assert twice[r][c] == (m[r][c] * s) * t;
        }
      }
    }
  }

  /** With a nonzero scale nothing is lost but the homogeneous row: scaling back by its
      inverse gives the top three rows of the pose. */
  lemma ScalingInvertible(m: Matrix, s: real)
    requires s != 0.0
    ensures ScaledCameraToWorld(ScaledCameraToWorld(m, s), 1.0 / s) == m[..Min(3, |m|)]
  {
    var t := 1.0 / s;
    ScalingComposes(m, s, t);
    var back := ScaledCameraToWorld(m, 1.0);
    var st := s * t;
    assert st == 1.0;
    assert ScaledCameraToWorld(m, st) == back;
    var top := m[..Min(3, |m|)];
    assert |back| == |top|;
    forall r | 0 <= r < |back| ensures back[r] == top[r] {
      assert |back[r]| == |top[r]|;
      forall c | 0 <= c < |back[r]| ensures back[r][c] == top[r][c] {
        assert top[r] == m[r];
      }
    }
  }

  /** np.array(poses): the stacked array, entry for entry. */
  method Stack(ps: seq<Matrix>, rows: nat, cols: nat) returns (a: array3<real>)
    requires Uniform(ps, rows, cols)
    ensures fresh(a) && a.Length0 == |ps| && a.Length1 == rows && a.Length2 == cols
    ensures forall i, r, c :: 0 <= i < |ps| && 0 <= r < rows && 0 <= c < cols ==> a[i, r, c] == ps[i][r][c]
  {
    a := new real[|ps|, rows, cols]((i, r, c) requires 0 <= i < |ps| && 0 <= r < rows && 0 <= c < cols => ps[i][r][c]);
  }

  /** `poses[:, :3, 3] *= scale`, in place: the translation entry of each of the top three
      rows of each pose is multiplied, and nothing else changes. */
  method ScaleTranslations(a: array3<real>, scale: real)
    requires a.Length2 > TranslationColumn
    modifies a
    ensures forall i, r, c :: 0 <= i < a.Length0 && 0 <= r < a.Length1 && 0 <= c < a.Length2 ==>
      a[i, r, c] == if r < 3 && c == TranslationColumn then old(a[i, r, c]) * scale else old(a[i, r, c])
  {
    var i := 0;
    while i < a.Length0
      invariant 0 <= i <= a.Length0
      invariant forall i', r, c :: 0 <= i' < a.Length0 && 0 <= r < a.Length1 && 0 <= c < a.Length2 ==>
        a[i', r, c] == if i' < i && r < 3 && c == TranslationColumn then old(a[i', r, c]) * scale else old(a[i', r, c])
    {
      var r := 0;
      while r < a.Length1 && r < 3
        invariant 0 <= r <= Min(3, a.Length1)
        invariant forall i', r', c :: 0 <= i' < a.Length0 && 0 <= r' < a.Length1 && 0 <= c < a.Length2 ==>
          a[i', r', c] ==
            if (i' < i || (i' == i && r' < r)) && r' < 3 && c == TranslationColumn then old(a[i', r', c]) * scale
            else old(a[i', r', c])
      {
        a[i, r, TranslationColumn] := a[i, r, TranslationColumn] * scale;
        r := r + 1;
      }
      i := i + 1;
    }
  }

  /** `poses[:, :3]`: the top three rows of every pose, as a value. */
  function TopRows(a: array3<real>): (m: seq<Matrix>)
    reads a
    ensures |m| == a.Length0
    ensures forall i :: 0 <= i < |m| ==> |m[i]| == Min(3, a.Length1)
    ensures forall i, r :: 0 <= i < |m| && 0 <= r < Min(3, a.Length1) ==> |m[i][r]| == a.Length2
    ensures forall i, r, c :: 0 <= i < |m| && 0 <= r < Min(3, a.Length1) && 0 <= c < a.Length2 ==> m[i][r][c] == a[i, r, c]
  {
    seq(a.Length0, i requires 0 <= i < a.Length0 reads a =>
      seq(Min(3, a.Length1), r requires 0 <= r < Min(3, a.Length1) reads a =>
        seq(a.Length2, c requires 0 <= c < a.Length2 reads a => a[i, r, c])))
  }

  /** Checks the shape numpy needs, the way stacking and indexing would fail. */
  method CheckStackable(ps: seq<Matrix>) returns (ok: bool)
    ensures ok == Stackable(ps)
  {
    if |ps| == 0 || |ps[0]| == 0 || |ps[0][0]| <= TranslationColumn {
      return false;
    }
    var rows, cols := |ps[0]|, |ps[0][0]|;
    var i := 0;
    while i < |ps|
      invariant 0 <= i <= |ps|
      invariant Uniform(ps[..i], rows, cols)
    {
      if |ps[i]| != rows {
        assert !Uniform(ps, rows, cols) by { assert |ps[i]| != rows; }
        return false;
      }
      var r := 0;
      while r < rows
        invariant 0 <= r <= rows
        invariant forall r' :: 0 <= r' < r ==> |ps[i][r']| == cols
      {
        if |ps[i][r]| != cols {
          assert !Uniform(ps, rows, cols) by { assert |ps[i][r]| != cols; }
          return false;
        }
        r := r + 1;
      }
      assert ps[..i + 1] == ps[..i] + [ps[i]];
      i := i + 1;
    }
    assert ps[..i] == ps;
    return true;
  }

  /** Transforms given entry by entry are the camera-to-world transforms of the poses. */
  lemma CameraToWorldsByEntries(ps: seq<Matrix>, rows: nat, cols: nat, scale: real, m: seq<Matrix>)
    requires Uniform(ps, rows, cols)
    requires |m| == |ps|
    requires forall i :: 0 <= i < |m| ==> |m[i]| == Min(3, rows)
    requires forall i, q :: 0 <= i < |m| && 0 <= q < Min(3, rows) ==> |m[i][q]| == cols
    requires forall i, q, c :: 0 <= i < |ps| && 0 <= q < Min(3, rows) && 0 <= c < cols ==>
      m[i][q][c] == if c == TranslationColumn then ps[i][q][c] * scale else ps[i][q][c]
    ensures m == CameraToWorlds(ps, scale)
  {
    var expected := CameraToWorlds(ps, scale);
    forall i | 0 <= i < |ps| ensures m[i] == expected[i] {
      ScaledCameraToWorldEntries(ps[i], scale);
      assert |m[i]| == |expected[i]|;
      forall q | 0 <= q < |m[i]| ensures m[i][q] == expected[i][q] {
        assert |m[i][q]| == |expected[i][q]|;
        forall c | 0 <= c < |m[i][q]| ensures m[i][q][c] == expected[i][q][c] {
        }
      }
    }
  }

  /** Lines 96-99 together: the camera-to-world transforms of the kept poses, or the error
      numpy raises when they do not stack. */
  method PosePostProcess(ps: seq<Matrix>, scale: real) returns (r: Result<seq<Matrix>>)
    ensures r.Ok? <==> Stackable(ps)
    ensures r.Err? ==> r.error == MalformedPoses
    ensures r.Ok? ==> r.value == CameraToWorlds(ps, scale)
  {
    var ok := CheckStackable(ps);
    if !ok {
      return Err(MalformedPoses);
    }
    var rows, cols := |ps[0]|, |ps[0][0]|;
    var a := Stack(ps, rows, cols);
    ScaleTranslations(a, scale);
    var c2w := TopRows(a);
    assert forall i, q, c :: 0 <= i < |ps| && 0 <= q < Min(3, rows) && 0 <= c < cols ==>
      c2w[i][q][c] == if c == TranslationColumn then ps[i][q][c] * scale else ps[i][q][c];
    CameraToWorldsByEntries(ps, rows, cols, scale, c2w);
    return Ok(c2w);
  }
}
