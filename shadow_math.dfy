/** Vectors and 4x4 matrices over the reals, and the three matrices the
    shadow passes build: the reversed-Z depth correction, the clip-to-texture
    remap and the cascade tile remap. Floating point is modelled by `real`. */
module ShadowMatrixMath {

  datatype Vec3 = Vec3(x: real, y: real, z: real)

  datatype Vec4 = Vec4(x: real, y: real, z: real, w: real)

  /** A 4x4 matrix stored by rows: Unity's field mRC is component C of row R. */
  datatype Mat4 = Mat4(row0: Vec4, row1: Vec4, row2: Vec4, row3: Vec4)

  const ZeroVector := Vec4(0.0, 0.0, 0.0, 0.0)

  /** The value of a freshly allocated Matrix4x4 (a C# struct default). */
  const ZeroMatrix := Mat4(ZeroVector, ZeroVector, ZeroVector, ZeroVector)

  const Identity := Mat4(Vec4(1.0, 0.0, 0.0, 0.0), Vec4(0.0, 1.0, 0.0, 0.0),
                         Vec4(0.0, 0.0, 1.0, 0.0), Vec4(0.0, 0.0, 0.0, 1.0))

  function Component(v: Vec4, c: nat): real
    requires c < 4
  {
    if c == 0 then v.x else if c == 1 then v.y else if c == 2 then v.z else v.w
  }

  function Row(m: Mat4, r: nat): Vec4
    requires r < 4
  {
    if r == 0 then m.row0 else if r == 1 then m.row1 else if r == 2 then m.row2 else m.row3
  }

  /** Unity's mRC. */
  function Entry(m: Mat4, r: nat, c: nat): real
    requires r < 4 && c < 4
  {
    Component(Row(m, r), c)
  }

  /** Unity's Matrix4x4.GetColumn. */
  function Column(m: Mat4, c: nat): Vec4
    requires c < 4
  {
    Vec4(Component(m.row0, c), Component(m.row1, c), Component(m.row2, c), Component(m.row3, c))
  }

  function Dot(a: Vec4, b: Vec4): real
  {
    a.x * b.x + a.y * b.y + a.z * b.z + a.w * b.w
  }

  function Scale(v: Vec4, k: real): Vec4
  {
    Vec4(k * v.x, k * v.y, k * v.z, k * v.w)
  }

  function Add(a: Vec4, b: Vec4): Vec4
  {
    Vec4(a.x + b.x, a.y + b.y, a.z + b.z, a.w + b.w)
  }

  function RowTimes(v: Vec4, b: Mat4): Vec4
  {
    Vec4(Dot(v, Column(b, 0)), Dot(v, Column(b, 1)), Dot(v, Column(b, 2)), Dot(v, Column(b, 3)))
  }

  /** The matrix product a * b. */
  function Mul(a: Mat4, b: Mat4): Mat4
  {
    Mat4(RowTimes(a.row0, b), RowTimes(a.row1, b), RowTimes(a.row2, b), RowTimes(a.row3, b))
  }

  /** The image m * p of a column vector p. */
  function Transform(m: Mat4, p: Vec4): Vec4
  {
    Vec4(Dot(m.row0, p), Dot(m.row1, p), Dot(m.row2, p), Dot(m.row3, p))
  }

  /** Negates the z row (m20..m23), as a reversed depth buffer requires. */
  function NegateRow2(m: Mat4): (n: Mat4)
    ensures forall r: nat, c: nat :: r < 4 && c < 4 ==>
              Entry(n, r, c) == if r == 2 then -Entry(m, r, c) else Entry(m, r, c)
  {
    m.(row2 := Vec4(-m.row2.x, -m.row2.y, -m.row2.z, -m.row2.w))
  }

  /** The depth correction applied by CalculateWorldToShadowMatrix: the z row
      is negated exactly when the platform uses a reversed depth buffer. */
  function CorrectedProjection(projection: Mat4, reversedZ: bool): Mat4
  {
    if reversedZ then NegateRow2(projection) else projection
  }

  /** The identity with m00 = m11 = m22 = 0.5 and m03 = m13 = m23 = 0.5. */
  function ScaleOffset(): Mat4
  {
    Mat4(Vec4(0.5, 0.0, 0.0, 0.5), Vec4(0.0, 0.5, 0.0, 0.5),
         Vec4(0.0, 0.0, 0.5, 0.5), Vec4(0.0, 0.0, 0.0, 1.0))
  }

  /** scaleOffset * (projection * view), which takes clip coordinates in
      [-w, w] to texture coordinates in [0, w]. */
  function WorldToShadow(view: Mat4, projection: Mat4): Mat4
  {
    Mul(ScaleOffset(), Mul(projection, view))
  }

  /** The cascade tile matrix: the identity with m00 = m11 = 0.5 and the
      translation (m03, m13) = (offsetX, offsetY). */
  function TileMatrix(offsetX: real, offsetY: real): Mat4
  {
    Mat4(Vec4(0.5, 0.0, 0.0, offsetX), Vec4(0.0, 0.5, 0.0, offsetY),
         Vec4(0.0, 0.0, 1.0, 0.0), Vec4(0.0, 0.0, 0.0, 1.0))
  }

  /** The world-to-shadow matrix averages each of the x, y and z rows of
      projection * view with its w row and keeps the w row. */
  lemma WorldToShadowRows(view: Mat4, projection: Mat4)
    ensures var c := Mul(projection, view);
            WorldToShadow(view, projection)
              == Mat4(Add(Scale(c.row0, 0.5), Scale(c.row3, 0.5)),
                      Add(Scale(c.row1, 0.5), Scale(c.row3, 0.5)),
                      Add(Scale(c.row2, 0.5), Scale(c.row3, 0.5)),
                      c.row3)
  {
  }

  /** Applying the depth correction twice gives back the original matrix. */
  lemma CorrectionCancels(projection: Mat4, reversedZ: bool)
    ensures CorrectedProjection(CorrectedProjection(projection, reversedZ), reversedZ) == projection
  {
  }

  /** scaleOffset sends every clip-space point with x, y, z in [-1, 1] to the
      texture-space point with coordinates (c + 1) / 2 in [0, 1]. */
  lemma ScaleOffsetMapsClipToTexture(p: Vec4)
    requires p.w == 1.0
    requires -1.0 <= p.x <= 1.0 && -1.0 <= p.y <= 1.0 && -1.0 <= p.z <= 1.0
    ensures Transform(ScaleOffset(), p) == Vec4((p.x + 1.0) / 2.0, (p.y + 1.0) / 2.0, (p.z + 1.0) / 2.0, 1.0)
    ensures var q := Transform(ScaleOffset(), p);
            0.0 <= q.x <= 1.0 && 0.0 <= q.y <= 1.0 && 0.0 <= q.z <= 1.0
  {
  }

  /** Pre-multiplying by the tile matrix halves the x and y rows and adds the
      tile offset times the w row; rows z and w are untouched. */
  lemma TileMatrixRows(offsetX: real, offsetY: real, m: Mat4)
    ensures Mul(TileMatrix(offsetX, offsetY), m)
         == Mat4(Add(Scale(m.row0, 0.5), Scale(m.row3, offsetX)),
                 Add(Scale(m.row1, 0.5), Scale(m.row3, offsetY)),
                 m.row2, m.row3)
  {
  }

  /** The tile matrix maps the unit square of texture space onto the half-size
      square at (offsetX, offsetY): a point that m sends into [0, 1] x [0, 1]
      (with w = 1) is sent by TileMatrix * m into
      [offsetX, offsetX + 0.5] x [offsetY, offsetY + 0.5], at the same depth. */
  lemma {:induction false} TileRemapPlacesPointInTile(offsetX: real, offsetY: real, m: Mat4, p: Vec4)
    requires Transform(m, p).w == 1.0
    requires 0.0 <= Transform(m, p).x <= 1.0 && 0.0 <= Transform(m, p).y <= 1.0
    ensures var q := Transform(Mul(TileMatrix(offsetX, offsetY), m), p);
            q == Vec4(0.5 * Transform(m, p).x + offsetX, 0.5 * Transform(m, p).y + offsetY,
                      Transform(m, p).z, 1.0)
    ensures var q := Transform(Mul(TileMatrix(offsetX, offsetY), m), p);
            offsetX <= q.x <= offsetX + 0.5 && offsetY <= q.y <= offsetY + 0.5
  {
    TileMatrixRows(offsetX, offsetY, m);
    var t := Mul(TileMatrix(offsetX, offsetY), m);
    DotOfCombination(m.row0, m.row3, 0.5, offsetX, p);
    DotOfCombination(m.row1, m.row3, 0.5, offsetY, p);
    assert Dot(m.row3, p) == 1.0;
    assert Dot(t.row0, p) == 0.5 * Dot(m.row0, p) + offsetX;
    assert Dot(t.row1, p) == 0.5 * Dot(m.row1, p) + offsetY;
  }

  /** The dot product is linear in its first argument. */
  lemma DotOfCombination(u: Vec4, v: Vec4, s: real, k: real, p: Vec4)
    ensures Dot(Add(Scale(u, s), Scale(v, k)), p) == s * Dot(u, p) + k * Dot(v, p)
  {
    assert (s * u.x + k * v.x) * p.x == s * (u.x * p.x) + k * (v.x * p.x);
    assert (s * u.y + k * v.y) * p.y == s * (u.y * p.y) + k * (v.y * p.y);
    assert (s * u.z + k * v.z) * p.z == s * (u.z * p.z) + k * (v.z * p.z);
    assert (s * u.w + k * v.w) * p.w == s * (u.w * p.w) + k * (v.w * p.w);
  }
}
