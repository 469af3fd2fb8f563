/**
 * The part of the `glam` linear-algebra library that the camera uses:
 * 4-vectors, column-major 4x4 matrices, their products, and the three
 * constructors `Mat4::from_scale`, `Mat4::from_translation` and
 * `Mat4::orthographic_rh`.
 *
 * glam itself is not part of this model. Its matrices are stored as four
 * columns, and `a * b` is the matrix whose column j is `a` applied to
 * column j of `b`; that is how `Mul` below is defined. `Orthographic` is the
 * standard right-handed orthographic projection onto a 0..1 depth range, as
 * glam documents `orthographic_rh`; it is an ASSUMPTION of this model, since
 * glam's source is outside this model. Arithmetic is on `real`, so f32
 * rounding is not captured.
 */
module Glam {

  datatype Vec2 = Vec2(x: real, y: real)

  datatype Vec4 = Vec4(x: real, y: real, z: real, w: real)

  /** A column-major 4x4 matrix: `c0`..`c3` are its columns. */
  datatype Mat4 = Mat4(c0: Vec4, c1: Vec4, c2: Vec4, c3: Vec4)

  /** `m * v`: the combination of m's columns weighted by v's components. */
  function Apply(m: Mat4, v: Vec4): Vec4 {
    Vec4(v.x * m.c0.x + v.y * m.c1.x + v.z * m.c2.x + v.w * m.c3.x,
         v.x * m.c0.y + v.y * m.c1.y + v.z * m.c2.y + v.w * m.c3.y,
         v.x * m.c0.z + v.y * m.c1.z + v.z * m.c2.z + v.w * m.c3.z,
         v.x * m.c0.w + v.y * m.c1.w + v.z * m.c2.w + v.w * m.c3.w)
  }

  /** The point (x, y, z) in homogeneous coordinates. */
  function Point(x: real, y: real, z: real): Vec4 {
    Vec4(x, y, z, 1.0)
  }

  /** `a * b`, column by column. */
  function Mul(a: Mat4, b: Mat4): Mat4 {
    Mat4(Apply(a, b.c0), Apply(a, b.c1), Apply(a, b.c2), Apply(a, b.c3))
  }

  /** `Mat4::from_scale(Vec3::new(sx, sy, sz))`. */
  function FromScale(sx: real, sy: real, sz: real): Mat4 {
    Mat4(Vec4(sx, 0.0, 0.0, 0.0), Vec4(0.0, sy, 0.0, 0.0), Vec4(0.0, 0.0, sz, 0.0), Vec4(0.0, 0.0, 0.0, 1.0))
  }

  /** The scale matrix multiplies each coordinate of a point by its factor. */
  lemma FromScalePointMap(sx: real, sy: real, sz: real, x: real, y: real, z: real)
    ensures Apply(FromScale(sx, sy, sz), Point(x, y, z)) == Point(sx * x, sy * y, sz * z)
  {
  }

  /** `Mat4::from_translation(Vec3::new(tx, ty, tz))`. */
  function FromTranslation(tx: real, ty: real, tz: real): Mat4 {
    Mat4(Vec4(1.0, 0.0, 0.0, 0.0), Vec4(0.0, 1.0, 0.0, 0.0), Vec4(0.0, 0.0, 1.0, 0.0), Vec4(tx, ty, tz, 1.0))
  }

  /** The translation matrix adds the offset to every point. */
  lemma FromTranslationPointMap(tx: real, ty: real, tz: real, x: real, y: real, z: real)
    ensures Apply(FromTranslation(tx, ty, tz), Point(x, y, z)) == Point(x + tx, y + ty, z + tz)
  {
  }

  /**
   * `Mat4::orthographic_rh(left, right, bottom, top, near, far)`: maps the
   * box [left, right] x [bottom, top] linearly onto [-1, 1] x [-1, 1] and
   * the depth range -near..-far (the camera looks down -z) onto 0..1; the
   * formula is assumed, see the module comment.
   */
  function Orthographic(left: real, right: real, bottom: real, top: real, near: real, far: real): Mat4
    requires left != right && bottom != top && near != far
  {
    var rcpWidth := 1.0 / (right - left);
    var rcpHeight := 1.0 / (top - bottom);
    var r := 1.0 / (near - far);
    Mat4(Vec4(rcpWidth + rcpWidth, 0.0, 0.0, 0.0),
         Vec4(0.0, rcpHeight + rcpHeight, 0.0, 0.0),
         Vec4(0.0, 0.0, r, 0.0),
         Vec4(-(left + right) * rcpWidth, -(top + bottom) * rcpHeight, r * near, 1.0))
  }

  /** The orthographic matrix maps the box linearly onto clip space, as described above. */
  lemma OrthographicPointMap(left: real, right: real, bottom: real, top: real, near: real, far: real,
                             x: real, y: real, z: real)
    requires left != right && bottom != top && near != far
    ensures Apply(Orthographic(left, right, bottom, top, near, far), Point(x, y, z))
            == Point((2.0 * x - (left + right)) / (right - left),
                     (2.0 * y - (top + bottom)) / (top - bottom),
                     (z + near) / (near - far))
  {
  }
}
