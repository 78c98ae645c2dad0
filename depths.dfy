/** The depth side of a frame: where its disparity file is looked for, and get_depths, the
    per-sample lookup the parser hands downstream. */
module Depths {
  import opened ManifestTypes

  const DispSuffix: string := "_disp.npy"

  /** Python's s[:-4]: all but the last four characters, or "" for a shorter string. */
  function DropLastFour(s: string): (r: string)
    ensures |r| == if |s| >= 4 then |s| - 4 else 0
    ensures r <= s
  {
    if |s| >= 4 then s[..|s| - 4] else ""
  }

  /** The depth file of an image: its path without the last four characters (normally the
      extension ".png" or ".jpg") followed by "_disp.npy". */
  function DepthFileName(filePath: string): (r: string)
    ensures |r| == (if |filePath| >= 4 then |filePath| - 4 else 0) + 9
    ensures r[..|r| - 9] <= filePath && r[|r| - 9..] == DispSuffix
  {
    DropLastFour(filePath) + DispSuffix
  }

  /** The last four characters of a path: what DepthFileName throws away. */
  function Extension(filePath: string): string
    requires |filePath| >= 4
  {
    filePath[|filePath| - 4..]
  }

  /** The inverse direction: an image path from a depth file name and the dropped extension. */
  function ImagePathFor(depthName: string, ext: string): string
    requires |depthName| >= 9
  {
    depthName[..|depthName| - 9] + ext
  }

  /** Round trip: the image path is recovered from its depth file and its extension. */
  lemma ImagePathRecovered(filePath: string)
    requires |filePath| >= 4
    ensures ImagePathFor(DepthFileName(filePath), Extension(filePath)) == filePath
  {
    var d := DepthFileName(filePath);
    assert d[..|d| - 9] == filePath[..|filePath| - 4];
  }

  /** Hence two images with the same extension never share a depth file. */
  lemma DepthFileNameInjective(p: string, q: string)
    requires |p| >= 4 && |q| >= 4 && Extension(p) == Extension(q)
    requires DepthFileName(p) == DepthFileName(q)
    ensures p == q
  {
    ImagePathRecovered(p);
    ImagePathRecovered(q);
  }

  /** Images that differ only in their extension do share one. */
  lemma SameStemSameDepthFile(p: string, q: string)
    requires |p| >= 4 && |q| >= 4 && p[..|p| - 4] == q[..|q| - 4]
    ensures DepthFileName(p) == DepthFileName(q)
  {
  }

  /** A typical frame path. */
  lemma DepthFileNameExample()
    ensures DepthFileName("images/frame_0001.png") == "images/frame_0001_disp.npy"
  {
  }

  /** Python's s[i]: a negative index counts from the end; anything else raises IndexError. */
  function PyIndex<T>(s: seq<T>, i: int): (r: Result<T>)
    ensures r.Ok? <==> -|s| <= i < |s|
    ensures r.Ok? && 0 <= i ==> r.value == s[i]
    ensures r.Ok? && i < 0 ==> r.value == s[|s| + i]
    ensures r.Err? ==> r.error == IndexOutOfRange
  {
    if 0 <= i < |s| then Ok(s[i])
    else if -|s| <= i < 0 then Ok(s[|s| + i])
    else Err(IndexOutOfRange)
  }

  /** get_depths: the one-entry dictionary {"depth": depths[imageIdx]}. */
  function GetDepths<D>(imageIdx: int, depths: seq<D>): (r: Result<map<string, D>>)
    ensures r.Ok? <==> -|depths| <= imageIdx < |depths|
    ensures r.Ok? ==> r.value.Keys == {"depth"}
    ensures r.Ok? && 0 <= imageIdx ==> r.value["depth"] == depths[imageIdx]
    ensures r.Ok? && imageIdx < 0 ==> r.value["depth"] == depths[|depths| + imageIdx]
    ensures r.Err? ==> r.error == IndexOutOfRange
  {
    var d :- PyIndex(depths, imageIdx);
    Ok(map["depth" := d])
  }

  /** A negative index gives the same entry as its non-negative counterpart. */
  lemma GetDepthsNegativeIndex<D>(depths: seq<D>, k: int)
    requires 1 <= k <= |depths|
    ensures GetDepths(-k, depths) == GetDepths(|depths| - k, depths)
  {
  }
}
