/**
  The engine's 4x4 matrix arithmetic, as far as the shadow atlas needs it.
  Floats are modelled as exact reals. A matrix is held by its four rows,
  and a matrix applied to a column vector gives the dot products of its rows.
 */
module Linear {

  /** A Vector4: a row or column of four components. */
  datatype Vector4 = Vector4(x: real, y: real, z: real, w: real)

  /** A Matrix4x4 by rows: row0 is (m00, m01, m02, m03), and so on down to row3. */
  datatype Matrix4x4 = Matrix4x4(row0: Vector4, row1: Vector4, row2: Vector4, row3: Vector4)

  const ZeroVector := Vector4(0.0, 0.0, 0.0, 0.0)
  /** The value a fresh Matrix4x4 holds. */
  const Zero := Matrix4x4(ZeroVector, ZeroVector, ZeroVector, ZeroVector)

  function Dot(a: Vector4, b: Vector4): real {
    a.x * b.x + a.y * b.y + a.z * b.z + a.w * b.w
  }

  function Add(a: Vector4, b: Vector4): Vector4 {
    Vector4(a.x + b.x, a.y + b.y, a.z + b.z, a.w + b.w)
  }

  function Scale(c: real, a: Vector4): Vector4 {
    Vector4(c * a.x, c * a.y, c * a.z, c * a.w)
  }

  function Negate(a: Vector4): Vector4 {
    Vector4(-a.x, -a.y, -a.z, -a.w)
  }

  /** The row vector r times the matrix b: r dotted with each column of b. */
  function RowTimes(r: Vector4, b: Matrix4x4): Vector4 {
    Vector4(
      Dot(r, Vector4(b.row0.x, b.row1.x, b.row2.x, b.row3.x)),
      Dot(r, Vector4(b.row0.y, b.row1.y, b.row2.y, b.row3.y)),
      Dot(r, Vector4(b.row0.z, b.row1.z, b.row2.z, b.row3.z)),
      Dot(r, Vector4(b.row0.w, b.row1.w, b.row2.w, b.row3.w)))
  }

  /** The matrix product a * b (the engine's operator *). */
  function Mul(a: Matrix4x4, b: Matrix4x4): Matrix4x4 {
    Matrix4x4(RowTimes(a.row0, b), RowTimes(a.row1, b), RowTimes(a.row2, b), RowTimes(a.row3, b))
  }

  /** The matrix applied to a homogeneous point: each component is a row dotted with v. */
  function Transform(m: Matrix4x4, v: Vector4): Vector4 {
    Vector4(Dot(m.row0, v), Dot(m.row1, v), Dot(m.row2, v), Dot(m.row3, v))
  }

  lemma DotAdd(a: Vector4, b: Vector4, v: Vector4)
    ensures Dot(Add(a, b), v) == Dot(a, v) + Dot(b, v)
  {
  }

  lemma DotScale(c: real, a: Vector4, v: Vector4)
    ensures Dot(Scale(c, a), v) == c * Dot(a, v)
  {
  }

  lemma DotNegate(a: Vector4, v: Vector4)
    ensures Dot(Negate(a), v) == -Dot(a, v)
  {
  }
}
