/** The scene box: an axis-aligned cube around the origin, half-extent aabb_scale. */
module SceneBoxes {

  /** aabb holds two corners in x, y, z order: the minimum, then the maximum. */
  datatype SceneBox = SceneBox(aabb: seq<seq<real>>)

  /** The cube [-s, -s, -s] .. [s, s, s]. No sign check is made on s. */
  function FromAabbScale(s: real): (b: SceneBox)
    ensures WellShaped(b)
  {
    SceneBox([[-s, -s, -s], [s, s, s]])
  }

  predicate WellShaped(b: SceneBox)
  {
    |b.aabb| == 2 && |b.aabb[0]| == 3 && |b.aabb[1]| == 3
  }

  function Center(b: SceneBox): seq<real>
    requires WellShaped(b)
  {
    seq(3, k requires 0 <= k < 3 => (b.aabb[0][k] + b.aabb[1][k]) / 2.0)
  }

  function Extent(b: SceneBox): seq<real>
    requires WellShaped(b)
  {
    seq(3, k requires 0 <= k < 3 => b.aabb[1][k] - b.aabb[0][k])
  }

  predicate Contains(b: SceneBox, p: seq<real>)
    requires WellShaped(b) && |p| == 3
  {
    forall k :: 0 <= k < 3 ==> b.aabb[0][k] <= p[k] <= b.aabb[1][k]
  }

  function Negate(p: seq<real>): (q: seq<real>)
    ensures |q| == |p|
  {
    seq(|p|, k requires 0 <= k < |p| => -p[k])
  }

  /** The box is centred at the origin and is 2s wide along every axis. */
  lemma SceneBoxCentredAtOrigin(s: real)
    ensures Center(FromAabbScale(s)) == [0.0, 0.0, 0.0]
    ensures Extent(FromAabbScale(s)) == [2.0 * s, 2.0 * s, 2.0 * s]
  {
  }

  /** Point symmetry about the origin: p is inside exactly when -p is. */
  lemma SceneBoxPointSymmetric(s: real, p: seq<real>)
    requires |p| == 3
    ensures Contains(FromAabbScale(s), p) <==> Contains(FromAabbScale(s), Negate(p))
  {
  }

  /** The box holds the origin exactly when s is not negative; with a negative s it holds
      no point at all. */
  lemma SceneBoxNonEmptyIff(s: real, p: seq<real>)
    requires |p| == 3
    ensures Contains(FromAabbScale(s), [0.0, 0.0, 0.0]) <==> s >= 0.0
    ensures s < 0.0 ==> !Contains(FromAabbScale(s), p)
  {
    var b := FromAabbScale(s);
    if s >= 0.0 {
      assert forall k :: 0 <= k < 3 ==> b.aabb[0][k] == -s && b.aabb[1][k] == s;
    } else {
      assert !(b.aabb[0][0] <= p[0] <= b.aabb[1][0]);
    }
  }

  /** aabb_scale = 4 gives exactly [-4, -4, -4] .. [4, 4, 4]. */
  lemma SceneBoxForScaleFour()
    ensures FromAabbScale(4.0).aabb == [[-4.0, -4.0, -4.0], [4.0, 4.0, 4.0]]
  {
  }
}
