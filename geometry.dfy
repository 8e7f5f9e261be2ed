/** Planar poses and the small pieces of angle arithmetic the drivebase
    behaviours use. Lengths are metres and headings are degrees, both as
    unbounded reals; floating-point rounding is not modelled. */
module Geometry {

  /** A field pose: position and heading (degrees, not wrapped). */
  datatype Pose = Pose(x: real, y: real, heading: real)

  /** The default-constructed pose: field origin, heading 0. */
  const Origin := Pose(0.0, 0.0, 0.0)

  /** Squared distance of a pose's position from the field origin. */
  function SqNorm(p: Pose): (r: real)
    ensures r >= 0.0
    ensures p.x == 0.0 && p.y == 0.0 ==> r == 0.0
  {
    p.x * p.x + p.y * p.y
  }

  /** Squared planar distance between two poses. This is the squared norm of
      `a.RelativeTo(b)`: the difference of the positions rotated by -b.heading,
      and a rotation keeps the norm. */
  function SqDist(a: Pose, b: Pose): (r: real)
    ensures r >= 0.0
    ensures a.x == b.x && a.y == b.y ==> r == 0.0
  {
    (a.x - b.x) * (a.x - b.x) + (a.y - b.y) * (a.y - b.y)
  }

  lemma SqDistFromOrigin(a: Pose, p: Pose)
    requires a.x == 0.0 && a.y == 0.0
    ensures SqDist(a, p) == SqNorm(p)
  {
    assert (a.x - p.x) * (a.x - p.x) == p.x * p.x;
    assert (a.y - p.y) * (a.y - p.y) == p.y * p.y;
  }

  /** C's truncation toward zero: the integer part of x. */
  function Trunc(x: real): (t: int)
    ensures x >= 0.0 ==> 0.0 <= t as real <= x < t as real + 1.0
    ensures x < 0.0 ==> t as real - 1.0 < x <= t as real <= 0.0
  {
    if x >= 0.0 then x.Floor else -((-x).Floor)
  }

  /** C's `fmod(x, 360)`: the remainder of x by whole turns, with the sign of x. */
  function Fmod360(x: real): (r: real)
    ensures -360.0 < r < 360.0
    ensures x >= 0.0 ==> r >= 0.0
    ensures x < 0.0 ==> r <= 0.0
    ensures (x - r) / 360.0 == Trunc(x / 360.0) as real
  {
    x - 360.0 * Trunc(x / 360.0) as real
  }

  /** Adding one whole turn to a non-negative angle leaves its remainder as it was. */
  lemma Fmod360AddTurn(x: real)
    requires x >= 0.0
    ensures Fmod360(x + 360.0) == Fmod360(x)
  {
    var t, u := Trunc(x / 360.0), Trunc((x + 360.0) / 360.0);
    assert (x + 360.0) / 360.0 == x / 360.0 + 1.0;
    assert u == t + 1;
  }

  /** Within the first turn the remainder is the angle itself. */
  lemma Fmod360FirstTurn(x: real)
    requires 0.0 <= x < 360.0
    ensures Fmod360(x) == x
  {
    assert Trunc(x / 360.0) == 0;
  }
}
