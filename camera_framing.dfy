/**
  The auto-framing arithmetic of `CameraSetup.create_camera`: from the
  bounding range of the object prim, pick the point the camera aims at and
  the point it stands at. Coordinates are reals; the host's bounding-box
  computation and the look-at rotation are not part of this module.
 */
module CameraFraming {
  import opened Wrappers

  datatype Vec3 = Vec3(x: real, y: real, z: real)

  /** An axis-aligned range as the host reports it: its lower and upper corners. */
  datatype Range3 = Range3(lo: Vec3, hi: Vec3)

  /** The aim point and the camera position chosen by create_camera. */
  datatype Framing = Framing(target: Vec3, position: Vec3)

  /** Where the camera is created, before any framing. */
  const InitialPosition: Vec3 := Vec3(0.5, 0.5, 0.5)

  /** The fallback target when the object prim is not valid. */
  const Origin: Vec3 := Vec3(0.0, 0.0, 0.0)

  /** The up direction handed to look-at (Z-up). */
  const Up: Vec3 := Vec3(0.0, 0.0, 1.0)

  /** The camera never stands closer than this. */
  const MinDistance: real := 0.5

  /** The camera stands this many largest-dimensions away. */
  const DistanceMultiplier: real := 3.0

  function Add(a: Vec3, b: Vec3): Vec3 {
    Vec3(a.x + b.x, a.y + b.y, a.z + b.z)
  }

  predicate NonEmpty(r: Range3) {
    r.lo.x <= r.hi.x && r.lo.y <= r.hi.y && r.lo.z <= r.hi.z
  }

  /** `GetRange().GetMidpoint()`: halfway between the corners on every axis. */
  function Midpoint(r: Range3): (m: Vec3)
    ensures m.x - r.lo.x == r.hi.x - m.x
    ensures m.y - r.lo.y == r.hi.y - m.y
    ensures m.z - r.lo.z == r.hi.z - m.z
  {
    Vec3((r.lo.x + r.hi.x) / 2.0, (r.lo.y + r.hi.y) / 2.0, (r.lo.z + r.hi.z) / 2.0)
  }

  /** `GetRange().GetSize()`: the extent of the range on every axis. */
  function Size(r: Range3): (s: Vec3)
    ensures Add(r.lo, s) == r.hi
  {
    Vec3(r.hi.x - r.lo.x, r.hi.y - r.lo.y, r.hi.z - r.lo.z)
  }

  /** `max(size[0], size[1], size[2])`: the least upper bound of the three components. */
  function MaxDim(size: Vec3): (m: real)
    ensures m >= size.x && m >= size.y && m >= size.z
    ensures m == size.x || m == size.y || m == size.z
  {
    if size.x >= size.y && size.x >= size.z then size.x
    else if size.y >= size.z then size.y
    else size.z
  }

  /**
    `max(max_dim * 3, 0.5)`: at least three times the largest dimension and
    at least the minimum distance, and exactly one of the two.
   */
  function CameraDistance(size: Vec3): (d: real)
    ensures d >= MinDistance && d >= DistanceMultiplier * MaxDim(size)
    ensures d == DistanceMultiplier * MaxDim(size) <==> DistanceMultiplier * MaxDim(size) >= MinDistance
    ensures d == MinDistance <==> DistanceMultiplier * MaxDim(size) <= MinDistance
  {
    var scaled := MaxDim(size) * DistanceMultiplier;
    if scaled >= MinDistance then scaled else MinDistance
  }

  /**
    `target + (d, d, d/2)`: the camera stands the framing distance away along
    x and along y, and half of it above, so every coordinate exceeds the target's.
   */
  function FramingPosition(target: Vec3, size: Vec3): (p: Vec3)
    ensures p.x - target.x == CameraDistance(size)
    ensures p.y - target.y == CameraDistance(size)
    ensures p.z - target.z == CameraDistance(size) / 2.0
    ensures p.x > target.x && p.y > target.y && p.z > target.z
  {
    var d := CameraDistance(size);
    Add(target, Vec3(d, d, d / 2.0))
  }

  /**
    The framing create_camera settles on. With a valid object prim (its
    bounding range given) the camera aims at the range's midpoint from the
    framing position; without one it aims at the origin and stays where it
    was created. Either way the camera does not stand on its target, which is
    what look-at needs.
   */
  function Frame(bound: Option<Range3>): (f: Framing)
    ensures bound.Some? ==> f.target == Midpoint(bound.value)
    ensures bound.Some? ==> f.position == FramingPosition(f.target, Size(bound.value))
    ensures bound.None? ==> f.target == Origin && f.position == InitialPosition
    ensures f.position != f.target
    ensures f.position.x != f.target.x || f.position.y != f.target.y
  {
    match bound
    case Some(r) =>
      var target := Midpoint(r);
      Framing(target, FramingPosition(target, Size(r)))
    case None => Framing(Origin, InitialPosition)
  }

  /**
    With a non-empty bounding range the camera stands outside the object's
    box: beyond its upper corner on every axis.
   */
  lemma CameraOutsideBox(r: Range3)
    requires NonEmpty(r)
    ensures var p := Frame(Some(r)).position;
            p.x > r.hi.x && p.y > r.hi.y && p.z > r.hi.z
  {
  }

  /** A unit cube centred on the origin: the camera goes to (3, 3, 1.5). */
  lemma UnitCubeFraming()
    ensures Frame(Some(Range3(Vec3(-0.5, -0.5, -0.5), Vec3(0.5, 0.5, 0.5))))
            == Framing(Origin, Vec3(3.0, 3.0, 1.5))
  {
  }

  /** A point-sized object at (2, 2, 2): the minimum distance applies, camera at (2.5, 2.5, 2.25). */
  lemma DegenerateBoxFraming()
    ensures Frame(Some(Range3(Vec3(2.0, 2.0, 2.0), Vec3(2.0, 2.0, 2.0))))
            == Framing(Vec3(2.0, 2.0, 2.0), Vec3(2.5, 2.5, 2.25))
  {
    var r := Range3(Vec3(2.0, 2.0, 2.0), Vec3(2.0, 2.0, 2.0));
    assert Size(r) == Origin;
    assert CameraDistance(Origin) == MinDistance;
  }
}
