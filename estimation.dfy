/**
 * The part of `calculateDimensions` (src/App.jsx) that the application computes
 * itself: turning the matcher's correspondences into two flat coordinate arrays,
 * and reading room dimensions off the homography matrix.
 *
 * The OpenCV stages (grayscale conversion, ORB keypoints and descriptors, the
 * cross-checked Hamming brute-force matcher, RANSAC `findHomography`) are not
 * part of this model: their results arrive as inputs, and `findHomography` is a
 * function parameter. A homography OpenCV could not estimate is an empty matrix,
 * i.e. the empty sequence here.
 */
module Estimation {
  import opened Wrappers

  /** Pixel location of an ORB keypoint. */
  datatype Keypoint = Keypoint(x: real, y: real)

  /** One correspondence: an index into the image-1 keypoints and one into the image-2 keypoints. */
  datatype Match = Match(queryIdx: nat, trainIdx: nat)

  /** The dimensions record shown to the user and consumed by the lighting calculation. */
  datatype Dimensions = Dimensions(width: real, height: real, depth: real)

  /** Why a dimension estimate was abandoned (the application only alerts and returns). */
  datatype DimensionError = InsufficientMatches | HomographyUnavailable

  /** Fewest correspondences the estimation accepts. */
  const MinMatches: nat := 4

  /** Number of entries of a 3x3 homography, row-major. */
  const HomographyEntries: nat := 9

  /** Fixed calibration constant applied to the homography entries. */
  const ProxyScale: real := 3.0

  predicate NonNegative(d: Dimensions) {
    d.width >= 0.0 && d.height >= 0.0 && d.depth >= 0.0
  }

  function Abs(x: real): (r: real)
    ensures r >= 0.0 && (r == x || r == -x)
  {
    if x < 0.0 then -x else x
  }

  /** The matcher only produces indices of existing keypoints. */
  predicate IndicesInRange(kps1: seq<Keypoint>, kps2: seq<Keypoint>, matches: seq<Match>) {
    forall i :: 0 <= i < |matches| ==> matches[i].queryIdx < |kps1| && matches[i].trainIdx < |kps2|
  }

  function QueryIndices(matches: seq<Match>): (ids: seq<nat>)
    ensures |ids| == |matches|
    ensures forall i :: 0 <= i < |matches| ==> ids[i] == matches[i].queryIdx
  {
    seq(|matches|, i requires 0 <= i < |matches| => matches[i].queryIdx)
  }

  function TrainIndices(matches: seq<Match>): (ids: seq<nat>)
    ensures |ids| == |matches|
    ensures forall i :: 0 <= i < |matches| ==> ids[i] == matches[i].trainIdx
  {
    seq(|matches|, i requires 0 <= i < |matches| => matches[i].trainIdx)
  }

  predicate InRange(kps: seq<Keypoint>, ids: seq<nat>) {
    forall i :: 0 <= i < |ids| ==> ids[i] < |kps|
  }

  /**
   * The flat array `[x0, y0, x1, y1, ...]` of the keypoints selected by `ids`,
   * in the order they are pushed: the last index contributes the last pair.
   */
  function Coordinates(kps: seq<Keypoint>, ids: seq<nat>): (r: seq<real>)
    requires InRange(kps, ids)
    ensures |r| == 2 * |ids|
  {
    if ids == [] then []
    else
      var kp := kps[ids[|ids| - 1]];
      Coordinates(kps, ids[..|ids| - 1]) + [kp.x, kp.y]
  }

  /** Entries 2i and 2i+1 of the flat array are the coordinates of the i-th selected keypoint. */
  lemma {:induction false} CoordinatesAt(kps: seq<Keypoint>, ids: seq<nat>, i: nat)
    requires InRange(kps, ids)
    requires i < |ids|
    ensures 2 * i + 1 < |Coordinates(kps, ids)|
    ensures Coordinates(kps, ids)[2 * i] == kps[ids[i]].x
    ensures Coordinates(kps, ids)[2 * i + 1] == kps[ids[i]].y
  {
    var n := |ids|;
    var front := ids[..n - 1];
    if i < n - 1 {
      CoordinatesAt(kps, front, i);
      assert front[i] == ids[i];
    }
  }

  /**
   * The loop of src/App.jsx:141-148: for every match, push the image-1 keypoint
   * selected by `queryIdx` onto `points1` and the image-2 keypoint selected by
   * `trainIdx` onto `points2`.
   */
  method FlattenMatches(kps1: seq<Keypoint>, kps2: seq<Keypoint>, matches: seq<Match>)
    returns (points1: seq<real>, points2: seq<real>)
    requires IndicesInRange(kps1, kps2, matches)
    ensures points1 == Coordinates(kps1, QueryIndices(matches))
    ensures points2 == Coordinates(kps2, TrainIndices(matches))
    ensures |points1| == 2 * |matches| && |points2| == 2 * |matches|
    ensures forall i :: 0 <= i < |matches| ==>
      points1[2 * i] == kps1[matches[i].queryIdx].x && points1[2 * i + 1] == kps1[matches[i].queryIdx].y
    ensures forall i :: 0 <= i < |matches| ==>
      points2[2 * i] == kps2[matches[i].trainIdx].x && points2[2 * i + 1] == kps2[matches[i].trainIdx].y
  {
    ghost var qs, ts := QueryIndices(matches), TrainIndices(matches);
    points1, points2 := [], [];
    var i := 0;
    while i < |matches|
      invariant 0 <= i <= |matches|
      invariant points1 == Coordinates(kps1, qs[..i])
      invariant points2 == Coordinates(kps2, ts[..i])
    {
      var m := matches[i];
      var kp1 := kps1[m.queryIdx];
      var kp2 := kps2[m.trainIdx];
      points1 := points1 + [kp1.x, kp1.y];
      points2 := points2 + [kp2.x, kp2.y];
      assert qs[..i + 1][..i] == qs[..i];
      assert ts[..i + 1][..i] == ts[..i];
      i := i + 1;
    }
    assert qs[..i] == qs && ts[..i] == ts;
    forall i | 0 <= i < |matches|
      ensures points1[2 * i] == kps1[matches[i].queryIdx].x && points1[2 * i + 1] == kps1[matches[i].queryIdx].y
      ensures points2[2 * i] == kps2[matches[i].trainIdx].x && points2[2 * i + 1] == kps2[matches[i].trainIdx].y
    {
      CoordinatesAt(kps1, qs, i);
      CoordinatesAt(kps2, ts, i);
    }
  }

  /**
   * The homography-proxy reading of src/App.jsx:155-167: a matrix without exactly
   * nine entries yields nothing; otherwise width, height and depth are three times
   * the magnitudes of the diagonal entries H[0], H[4] and H[8].
   */
  function ProxyDimensions(h: seq<real>): (d: Option<Dimensions>)
    ensures d.Some? <==> |h| == HomographyEntries
    ensures d.Some? ==> NonNegative(d.value)
    ensures d.Some? ==> d.value == Dimensions(ProxyScale * Abs(h[0]), ProxyScale * Abs(h[4]), ProxyScale * Abs(h[8]))
  {
    if |h| != HomographyEntries then None
    else Some(Dimensions(Abs(h[0]) * ProxyScale, Abs(h[4]) * ProxyScale, Abs(h[8]) * ProxyScale))
  }

  /**
   * A homography is defined only up to a non-zero factor, but the proxy is not:
   * scaling every entry by `c` scales every dimension by |c|.
   */
  lemma ProxyNotProjectivelyInvariant(h: seq<real>, scaled: seq<real>, c: real)
    requires |h| == HomographyEntries && |scaled| == |h|
    requires forall i :: 0 <= i < |h| ==> scaled[i] == c * h[i]
    ensures ProxyDimensions(scaled).Some?
    ensures ProxyDimensions(scaled).value.width == Abs(c) * ProxyDimensions(h).value.width
    ensures ProxyDimensions(scaled).value.height == Abs(c) * ProxyDimensions(h).value.height
    ensures ProxyDimensions(scaled).value.depth == Abs(c) * ProxyDimensions(h).value.depth
  {
    AbsMul(c, h[0]);
    AbsMul(c, h[4]);
    AbsMul(c, h[8]);
  }

  lemma AbsMul(a: real, b: real)
    ensures Abs(a * b) == Abs(a) * Abs(b)
  {
    if a < 0.0 && b < 0.0 { assert a * b == (-a) * (-b); }
    else if a < 0.0 { assert -(a * b) == (-a) * b; }
    else if b < 0.0 { assert -(a * b) == a * (-b); }
  }

  /**
   * The whole estimation of src/App.jsx:133-167 on the matcher's output: too few
   * matches abort, otherwise the flattened points go to `findHomography` and the
   * proxy reads the dimensions off its result.
   */
  function EstimateDimensions(kps1: seq<Keypoint>, kps2: seq<Keypoint>, matches: seq<Match>,
                              findHomography: (seq<real>, seq<real>) -> seq<real>)
    : (r: Result<Dimensions, DimensionError>)
    requires IndicesInRange(kps1, kps2, matches)
    ensures |matches| < MinMatches ==> r == Failure(InsufficientMatches)
    ensures |matches| >= MinMatches && r.Failure? ==> r.error == HomographyUnavailable
    ensures r.Success? ==> NonNegative(r.value)
    ensures r.Success? ==>
      Some(r.value) == ProxyDimensions(findHomography(Coordinates(kps1, QueryIndices(matches)), Coordinates(kps2, TrainIndices(matches))))
    ensures r.Success? <==>
      |matches| >= MinMatches &&
      |findHomography(Coordinates(kps1, QueryIndices(matches)), Coordinates(kps2, TrainIndices(matches)))| == HomographyEntries
  {
    if |matches| < MinMatches then Failure(InsufficientMatches)
    else
      var h := findHomography(Coordinates(kps1, QueryIndices(matches)), Coordinates(kps2, TrainIndices(matches)));
      match ProxyDimensions(h)
      case None => Failure(HomographyUnavailable)
      case Some(d) => Success(d)
  }
}
