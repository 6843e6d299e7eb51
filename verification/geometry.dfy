/**
 Vectors, sprite transforms and the scalar clamp that every system of the game is
 built from. Coordinates are `real`: single-precision rounding is abstracted away.
 */
module Geometry {

  datatype Vec2 = Vec2(x: real, y: real)

  datatype Vec3 = Vec3(x: real, y: real, z: real)

  /** A sprite's placement: translation and per-axis scale. The game never rotates a
      sprite, so the rotation component is left out. */
  datatype Transform = Transform(translation: Vec3, scale: Vec3)

  /** `Vec3::truncate`: drops the z component. */
  function Truncate(v: Vec3): Vec2
  {
    Vec2(v.x, v.y)
  }

  /** `Vec2::extend`: adds a z component; truncating undoes it. */
  function Extend(v: Vec2, z: real): (r: Vec3)
    ensures Truncate(r) == v
    ensures r.z == z
  {
    Vec3(v.x, v.y, z)
  }

  /** The axis-aligned rectangle a sprite covers, from its lower-left to its upper-right corner. */
  datatype Box = Box(min: Vec2, max: Vec2)

  /** The box of a sprite centred at `center` whose scale is `size`. */
  function BoxOf(center: Vec2, size: Vec2): Box
  {
    Box(Vec2(center.x - size.x / 2.0, center.y - size.y / 2.0),
        Vec2(center.x + size.x / 2.0, center.y + size.y / 2.0))
  }

  function Neg(v: Vec2): Vec2
  {
    Vec2(-v.x, -v.y)
  }

  /** `f32::clamp`: the float version panics unless `lo <= hi`, so that is demanded here. */
  function Clamp(v: real, lo: real, hi: real): (r: real)
    requires lo <= hi
    ensures lo <= r <= hi
    ensures lo <= v <= hi ==> r == v
    ensures v < lo ==> r == lo
    ensures hi < v ==> r == hi
  {
    if v < lo then lo else if v > hi then hi else v
  }

  /** Clamping an already clamped value changes nothing. */
  lemma ClampIdempotent(v: real, lo: real, hi: real)
    requires lo <= hi
    ensures Clamp(Clamp(v, lo, hi), lo, hi) == Clamp(v, lo, hi)
  {
  }

  /** Clamping preserves the order of its arguments. */
  lemma ClampMonotone(u: real, v: real, lo: real, hi: real)
    requires lo <= hi
    requires u <= v
    ensures Clamp(u, lo, hi) <= Clamp(v, lo, hi)
  {
  }

}
