/**
 * The initial-zoom heuristic of main.js (`setInitialZoom` and the tail of
 * `loadCoverage`): the camera backs off to twice the largest distance of any
 * point from the origin. `Math.hypot` is the parameter `hypot`, a
 * non-negative function left otherwise uninterpreted.
 */
module Calibration {

  type NonNeg = r: real | 0.0 <= r

  /** The four time points of a house's BASE and OURS rows. */
  const Times: seq<nat> := [15, 30, 45, 60]

  datatype Method = Base | Ours

  /** Which file `buildPaths` names; the URL template itself is not modelled. */
  datatype CloudPath = CloudPath(house: string, kind: Method, time: nat)

  /** `TIMES.map(t => path(house, method, t))` */
  function BuildPaths(house: string, m: Method): (paths: seq<CloudPath>)
    ensures |paths| == |Times|
  {
    seq(|Times|, i requires 0 <= i < |Times| => CloudPath(house, m, Times[i]))
  }

  /** `Math.floor(paths.length / 2)` */
  function MiddleIndex(len: nat): (i: nat)
    ensures len > 0 ==> i < len
    ensures 2 * i <= len <= 2 * i + 1
  {
    len / 2
  }

  /** The middle path of a house's list is its t = 45 cloud, for either method. */
  lemma MiddlePathIsT45(house: string, m: Method)
    ensures MiddleIndex(|BuildPaths(house, m)|) == 2
    ensures BuildPaths(house, m)[MiddleIndex(|BuildPaths(house, m)|)] == CloudPath(house, m, 45)
  {
  }

  /** The norm of point `k` of a flat XYZ buffer. */
  function PointNorm(ps: seq<real>, hypot: (real, real, real) -> NonNeg, k: nat): NonNeg
    requires 3 * k + 3 <= |ps|
  {
    hypot(ps[3 * k], ps[3 * k + 1], ps[3 * k + 2])
  }

  /** `Math.max(maxR, r)` folded over the first `n` points, from `maxR = 0`. */
  function MaxNorm(ps: seq<real>, hypot: (real, real, real) -> NonNeg, n: nat): real
    requires 3 * n <= |ps|
  {
    if n == 0 then 0.0
    else
      var m := MaxNorm(ps, hypot, n - 1);
      var r := PointNorm(ps, hypot, n - 1);
      if m < r then r else m
  }

  /**
   * The fold is the maximum: it is non-negative, bounds every point's norm,
   * and is either the initial 0 or the norm of one of the points.
   */
  lemma {:induction false} MaxNormIsMaximum(ps: seq<real>, hypot: (real, real, real) -> NonNeg, n: nat)
    requires 3 * n <= |ps|
    ensures MaxNorm(ps, hypot, n) >= 0.0
    ensures forall k :: 0 <= k < n ==> PointNorm(ps, hypot, k) <= MaxNorm(ps, hypot, n)
    ensures MaxNorm(ps, hypot, n) == 0.0 || exists k :: 0 <= k < n && MaxNorm(ps, hypot, n) == PointNorm(ps, hypot, k)
  {
    if n > 0 {
      MaxNormIsMaximum(ps, hypot, n - 1);
      var m := MaxNorm(ps, hypot, n - 1);
      if m != 0.0 && m >= PointNorm(ps, hypot, n - 1) {
        var k :| 0 <= k < n - 1 && m == PointNorm(ps, hypot, k);
        assert 0 <= k < n && MaxNorm(ps, hypot, n) == PointNorm(ps, hypot, k);
      }
    }
  }

  /** The loop `for (i = 0; i < positions.length; i += 3) maxR = Math.max(maxR, hypot(...))`. */
  method MaxRadius(ps: seq<real>, hypot: (real, real, real) -> NonNeg) returns (maxR: real)
    requires |ps| % 3 == 0
    ensures maxR == MaxNorm(ps, hypot, |ps| / 3)
  {
    maxR := 0.0;
    var i := 0;
    while i < |ps|
      invariant i % 3 == 0 && i <= |ps|
      invariant maxR == MaxNorm(ps, hypot, i / 3)
    {
      var r := hypot(ps[i], ps[i + 1], ps[i + 2]);
      assert r == PointNorm(ps, hypot, i / 3);
      if maxR < r {
        maxR := r;
      }
      i := i + 3;
    }
  }

  /** The camera distance the heuristic picks: `-maxR * 2`. */
  function CalibratedZ(ps: seq<real>, hypot: (real, real, real) -> NonNeg): (z: real) {
    -MaxNorm(ps, hypot, |ps| / 3) * 2.0
  }

  /**
   * The calibrated distance is never in front of the origin, and puts every
   * point of the cloud within half of it.
   */
  lemma CalibratedZMeaning(ps: seq<real>, hypot: (real, real, real) -> NonNeg)
    ensures CalibratedZ(ps, hypot) <= 0.0
    ensures forall k :: 0 <= k < |ps| / 3 ==> 2.0 * PointNorm(ps, hypot, k) <= -CalibratedZ(ps, hypot)
  {
    MaxNormIsMaximum(ps, hypot, |ps| / 3);
  }
}
