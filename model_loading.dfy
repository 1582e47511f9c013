/**
 * Loading the bunny model (main.cpp, loadModel and the two rply callbacks).
 *
 * rply parses the file and calls back once per property value: the vertex
 * callback stores a coordinate into modelVertices and tracks the largest
 * absolute coordinate in maxValue; the face callback stores a vertex index into
 * faceIndices. loadModel then packs every triangle into allModelData as three
 * interleaved records (position, face normal), 18 floats per triangle, with the
 * model scaled by 1 / maxValue and shifted down by half a unit, uploads that
 * buffer and remembers how many vertices to draw.
 *
 * The globals are the fields of `ModelLoader`. The rply driver itself is not
 * part of this model: its outcomes (file opened, header read, element counts,
 * whole read succeeded) are parameters, and the callbacks are methods that the
 * driver would call with the values it parsed.
 */
module ModelLoading {
  import opened MathLib
  import opened Vectors

  /** halfUnit = (0, 0.5, 0), subtracted from every scaled position. */
  const HalfUnit := Vec3(0.0, 0.5, 0.0)

  /** Floats per vertex record (position, normal) and per triangle. */
  const RecordSize := 6
  const TriangleSize := 18

  function Abs(a: real): (r: real)
    ensures 0.0 <= r && (r == a || r == -a)
  {
    if a < 0.0 then -a else a
  }

  /** The slot within a vertex's three coordinates chosen by the property name's
      first character: 'y' is 1, 'z' is 2, anything else (normally 'x') is 0. */
  function PropertyOffset(propName: string): (r: int)
    ensures 0 <= r < 3
    ensures |propName| > 0 && propName[0] == 'y' <==> r == 1
    ensures |propName| > 0 && propName[0] == 'z' <==> r == 2
  {
    if |propName| > 0 && propName[0] == 'y' then 1
    else if |propName| > 0 && propName[0] == 'z' then 2
    else 0
  }

  /** The slot within a face's three indices for list entry `valueIndex`; rply
      reports the list length with valueIndex -1, which goes to slot 0 and is
      overwritten by entry 0. */
  function FaceSlot(valueIndex: int): int {
    if valueIndex >= 0 then valueIndex else 0
  }

  /** A quad face e is cut to its first three corners: its fourth entry lands in
      the first slot of face e + 1, where the next face's list length and then
      its entry 0 overwrite it, and face e's own three slots keep corners 0-2. */
  lemma QuadLosesFourthCorner(faces: seq<nat>, e: nat, fourth: nat, nextLength: nat)
    requires 3 * (e + 1) < |faces|
    ensures var after := faces[3 * e + FaceSlot(3) := fourth][3 * (e + 1) + FaceSlot(-1) := nextLength];
      && 3 * e + FaceSlot(3) == 3 * (e + 1) + FaceSlot(0)
      && after[3 * (e + 1)] == nextLength
      && after[3 * e .. 3 * e + 3] == faces[3 * e .. 3 * e + 3]
  {
  }

  /** 1 / maxValue. The source computes it even when maxValue is 0 (giving an
      infinite float that is then never used); the model uses 0 there. */
  function ScaleFactor(maxValue: real): real {
    if maxValue != 0.0 then 1.0 / maxValue else 0.0
  }

  /** Vertex `vi` as stored (coordinates at 3*vi, 3*vi + 1, 3*vi + 2). */
  function StoredVertex(vertices: seq<real>, vi: nat): Vec3
    requires 3 * vi + 2 < |vertices|
  {
    Vec3(vertices[3 * vi], vertices[3 * vi + 1], vertices[3 * vi + 2])
  }

  /** A vertex scaled to the unit cube and shifted down by half a unit. */
  function Placed(v: Vec3, scale: real): Vec3 {
    v.Scale(scale).Subtract(HalfUnit)
  }

  /** A packed triangle: its three placed corners and its face normal. */
  datatype Triangle = Triangle(v1: Vec3, v2: Vec3, v3: Vec3, normal: Vec3)

  /** Face k's three vertex indices are in range of the stored vertices. */
  predicate FaceInRange(vertices: seq<real>, faces: seq<nat>, k: nat) {
    && 3 * k + 2 < |faces|
    && 3 * faces[3 * k] + 2 < |vertices|
    && 3 * faces[3 * k + 1] + 2 < |vertices|
    && 3 * faces[3 * k + 2] + 2 < |vertices|
  }

  /** The three placed corners of face k. */
  function Corners(vertices: seq<real>, faces: seq<nat>, k: nat, scale: real): (Vec3, Vec3, Vec3)
    requires FaceInRange(vertices, faces, k)
  {
    (Placed(StoredVertex(vertices, faces[3 * k]), scale),
     Placed(StoredVertex(vertices, faces[3 * k + 1]), scale),
     Placed(StoredVertex(vertices, faces[3 * k + 2]), scale))
  }

  /** (v2 - v1) x (v3 - v1), the unnormalized face normal. */
  function Edges(c: (Vec3, Vec3, Vec3)): Vec3 {
    c.1.Subtract(c.0).Cross(c.2.Subtract(c.0))
  }

  /** Face k can be packed: its indices are in range and its corners are not
      collinear (normalizing a zero normal divides by zero in the source). */
  predicate FaceOk(vertices: seq<real>, faces: seq<nat>, k: nat, scale: real) {
    FaceInRange(vertices, faces, k) && Edges(Corners(vertices, faces, k, scale)) != Vec3.Zero()
  }

  predicate AllFacesOk(vertices: seq<real>, faces: seq<nat>, n: nat, scale: real) {
    forall k | 0 <= k < n :: FaceOk(vertices, faces, k, scale)
  }

  /** Face k as the packing loop builds it. */
  function FaceTriangle(vertices: seq<real>, faces: seq<nat>, k: nat, scale: real, lib: Libm): (t: Triangle)
    requires lib.Valid() && FaceOk(vertices, faces, k, scale)
    ensures (t.v1, t.v2, t.v3) == Corners(vertices, faces, k, scale)
    ensures t.normal.NormSquared() == 1.0
    ensures t.normal.Dot(t.v2.Subtract(t.v1)) == 0.0 && t.normal.Dot(t.v3.Subtract(t.v1)) == 0.0
    ensures t.normal.Scale(Edges(Corners(vertices, faces, k, scale)).Norm(lib)) == Edges(Corners(vertices, faces, k, scale))
    ensures 0.0 < t.normal.Dot(t.v2.Subtract(t.v1).Cross(t.v3.Subtract(t.v1)))
  {
    var c := Corners(vertices, faces, k, scale);
    var n := Edges(c).Normalized(lib);
    NormalIsOrthogonal(c, lib);
    NormalFollowsWinding(c, lib);
    Triangle(c.0, c.1, c.2, n)
  }

  /** The normal points along (v2 - v1) x (v3 - v1), not against it, so the
      corners' winding decides which side of the face is lit. */
  lemma NormalFollowsWinding(c: (Vec3, Vec3, Vec3), lib: Libm)
    requires lib.Valid() && Edges(c) != Vec3.Zero()
    ensures 0.0 < Edges(c).Normalized(lib).Dot(Edges(c))
  {
    var n, len := Edges(c).Normalized(lib), Edges(c).Norm(lib);
    DotScale(n, len, n);
    assert n.Dot(Edges(c)) == len * n.NormSquared();
  }

  /** The normalized cross product of the two edges is orthogonal to both. */
  lemma NormalIsOrthogonal(c: (Vec3, Vec3, Vec3), lib: Libm)
    requires lib.Valid() && Edges(c) != Vec3.Zero()
    ensures Edges(c).Normalized(lib).Dot(c.1.Subtract(c.0)) == 0.0
    ensures Edges(c).Normalized(lib).Dot(c.2.Subtract(c.0)) == 0.0
  {
    var a, b := c.1.Subtract(c.0), c.2.Subtract(c.0);
    CrossLaws(a, b);
    DotSymmetric(a, a.Cross(b));
    DotSymmetric(b, a.Cross(b));
    NormalizedKeepsOrthogonality(a.Cross(b), a, lib);
    NormalizedKeepsOrthogonality(a.Cross(b), b, lib);
  }

  /** The 18 floats of a triangle: each corner followed by the face normal. */
  function Record(t: Triangle): (s: seq<real>)
    ensures |s| == TriangleSize
    ensures s[0..3] == [t.v1.x, t.v1.y, t.v1.z] && s[6..9] == [t.v2.x, t.v2.y, t.v2.z] && s[12..15] == [t.v3.x, t.v3.y, t.v3.z]
    ensures s[3..6] == s[9..12] == s[15..18] == [t.normal.x, t.normal.y, t.normal.z]
  {
    [t.v1.x, t.v1.y, t.v1.z, t.normal.x, t.normal.y, t.normal.z,
     t.v2.x, t.v2.y, t.v2.z, t.normal.x, t.normal.y, t.normal.z,
     t.v3.x, t.v3.y, t.v3.z, t.normal.x, t.normal.y, t.normal.z]
  }

  /** The first n faces as the packing loop builds them. */
  function Triangles(vertices: seq<real>, faces: seq<nat>, n: nat, scale: real, lib: Libm): (ts: seq<Triangle>)
    requires lib.Valid() && AllFacesOk(vertices, faces, n, scale)
    ensures |ts| == n
    ensures forall k | 0 <= k < n :: ts[k] == FaceTriangle(vertices, faces, k, scale, lib)
  {
    seq(n, k requires 0 <= k < n => FaceTriangle(vertices, faces, k, scale, lib))
  }

  /** The records of the triangles, one after the other. */
  function Interleaved(ts: seq<Triangle>): (s: seq<real>)
    ensures |s| == TriangleSize * |ts|
  {
    if ts == [] then []
    else Interleaved(ts[..|ts| - 1]) + Record(ts[|ts| - 1])
  }

  /** The packed buffer holds triangle k's record at offset 18 * k: at offset
      18 * k + 6 * c lies corner c + 1 of triangle k, followed by its normal. */
  lemma {:induction false} InterleavedLayout(ts: seq<Triangle>, k: nat)
    requires k < |ts|
    ensures Interleaved(ts)[TriangleSize * k .. TriangleSize * (k + 1)] == Record(ts[k])
  {
    var prefix := Interleaved(ts[..|ts| - 1]);
    var s := Interleaved(ts);
    assert s == prefix + Record(ts[|ts| - 1]);
    if k < |ts| - 1 {
      InterleavedLayout(ts[..|ts| - 1], k);
      assert s[TriangleSize * k .. TriangleSize * (k + 1)] == prefix[TriangleSize * k .. TriangleSize * (k + 1)];
    } else {
      assert s[TriangleSize * k .. TriangleSize * (k + 1)] == s[|prefix|..];
    }
  }

  /** Appending a triangle appends its record. */
  lemma InterleavedSnoc(ts: seq<Triangle>, n: nat)
    requires n < |ts|
    ensures Interleaved(ts[..n + 1]) == Interleaved(ts[..n]) + Record(ts[n])
  {
    assert ts[..n + 1][..n] == ts[..n];
  }

  /** A buffer whose first f records are those of ts[..f] and whose next 18
      floats are the record of ts[f] holds the records of ts[..f + 1]. */
  lemma PackedPrefixGrows(data: seq<real>, ts: seq<Triangle>, f: nat)
    requires f < |ts| && TriangleSize * (f + 1) <= |data|
    requires data[..TriangleSize * f] == Interleaved(ts[..f])
    requires data[TriangleSize * f .. TriangleSize * (f + 1)] == Record(ts[f])
    ensures data[..TriangleSize * (f + 1)] == Interleaved(ts[..f + 1])
  {
    assert data[..TriangleSize * (f + 1)]
        == data[..TriangleSize * f] + data[TriangleSize * f .. TriangleSize * (f + 1)];
    InterleavedSnoc(ts, f);
  }

  /** With every stored coordinate at most maxValue > 0 in absolute value, the
      placed corners lie in [-1, 1] x [-1.5, 0.5] x [-1, 1]: the model is scaled
      into the unit cube and shifted down by half a unit (x and z are not
      re-centred). */
  lemma PlacedBounds(v: Vec3, maxValue: real)
    requires 0.0 < maxValue && Abs(v.x) <= maxValue && Abs(v.y) <= maxValue && Abs(v.z) <= maxValue
    ensures var p := Placed(v, ScaleFactor(maxValue));
      && -1.0 <= p.x <= 1.0
      && -1.5 <= p.y <= 0.5
      && -1.0 <= p.z <= 1.0
  {
    PlacedCoordinates(v, ScaleFactor(maxValue));
    UnitQuotient(v.x, maxValue);
    ShiftedUnitQuotient(v.y, maxValue);
    UnitQuotient(v.z, maxValue);
  }

  lemma PlacedCoordinates(v: Vec3, s: real)
    ensures Placed(v, s) == Vec3(v.x * s, v.y * s - 0.5, v.z * s)
  {
  }

  /** The bound is reached: for a model whose largest coordinate is 1, the corner
      (1, 1, 1) is placed at (1, 0.5, 1), so emitted coordinates are not confined
      to [-0.5, 0.5]. */
  lemma CubeCornerPlacement()
    ensures Placed(Vec3(1.0, 1.0, 1.0), ScaleFactor(1.0)) == Vec3(1.0, 0.5, 1.0)
    ensures Placed(Vec3(-1.0, -1.0, -1.0), ScaleFactor(1.0)) == Vec3(-1.0, -1.5, -1.0)
  {
  }

  lemma UnitQuotient(a: real, m: real)
    requires 0.0 < m && Abs(a) <= m
    ensures -1.0 <= a * ScaleFactor(m) <= 1.0
  {
    assert a * (1.0 / m) == a / m;
  }

  lemma ShiftedUnitQuotient(a: real, m: real)
    requires 0.0 < m && Abs(a) <= m
    ensures -1.5 <= a * ScaleFactor(m) - 0.5 <= 0.5
  {
    UnitQuotient(a, m);
  }

  /** The loader's globals: the two vectors the callbacks fill, the packed data,
      the running maximum, and what reaches the renderer (the vertex buffer's
      contents and the number of vertices to draw). */
  class ModelLoader {
    var modelVertices: seq<real>
    var faceIndices: seq<nat>
    var allModelData: array<real>
    var maxValue: real
    var vertexBuffer: seq<real>
    var faceIndexCount: int

    /** maxValue bounds every stored coordinate; allModelData has room for the
        18 floats of each of the |faceIndices| / 3 triangles. */
    ghost predicate Valid()
      reads this
    {
      && 0.0 <= maxValue
      && (forall i | 0 <= i < |modelVertices| :: Abs(modelVertices[i]) <= maxValue)
      && |faceIndices| % 3 == 0
      && allModelData.Length == RecordSize * |faceIndices|
    }

    /** The globals before loadModel runs: empty vectors, maxValue 0, nothing uploaded. */
    constructor ()
      ensures Valid()
      ensures modelVertices == [] && faceIndices == [] && allModelData.Length == 0
      ensures maxValue == 0.0 && vertexBuffer == [] && faceIndexCount == 0
    {
      modelVertices := [];
      faceIndices := [];
      allModelData := new real[0];
      maxValue := 0.0;
      vertexBuffer := [];
      faceIndexCount := 0;
    }

    /** The start of loadModel: if the file opens and its header reads, size the
        vectors for `vertexCount` vertices and `triCount` triangles (zero-filled);
        otherwise return at once, changing nothing. */
    method Prepare(fileOpened: bool, headerRead: bool, vertexCount: nat, triCount: nat) returns (proceed: bool)
      requires Valid()
      modifies this
      ensures Valid()
      ensures proceed == (fileOpened && headerRead)
      ensures proceed ==>
                && modelVertices == seq(3 * vertexCount, _ => 0.0)
                && faceIndices == seq(3 * triCount, _ => 0)
                && allModelData.Length == TriangleSize * triCount && fresh(allModelData)
      ensures !proceed ==>
                && modelVertices == old(modelVertices) && faceIndices == old(faceIndices)
                && allModelData == old(allModelData)
      ensures maxValue == old(maxValue) && vertexBuffer == old(vertexBuffer) && faceIndexCount == old(faceIndexCount)
    {
      if !fileOpened {
        return false;
      }
      if !headerRead {
        return false;
      }
      modelVertices := seq(3 * vertexCount, _ => 0.0);
      faceIndices := seq(3 * triCount, _ => 0);
      allModelData := new real[TriangleSize * triCount](_ => 0.0);
      proceed := true;
    }

    /** load_read_vertex_cb: stores coordinate `propName` of vertex `element` and
        raises maxValue to its absolute value if that is larger. */
    method ReadVertex(element: nat, propName: string, value: real)
      requires Valid() && 3 * element + PropertyOffset(propName) < |modelVertices|
      modifies this
      ensures Valid()
      ensures modelVertices == old(modelVertices)[3 * element + PropertyOffset(propName) := value]
      ensures maxValue == (if Abs(value) > Abs(old(maxValue)) then Abs(value) else old(maxValue))
      ensures faceIndices == old(faceIndices) && allModelData == old(allModelData)
      ensures vertexBuffer == old(vertexBuffer) && faceIndexCount == old(faceIndexCount)
    {
      var offset := 3 * element;
      if |propName| > 0 && propName[0] == 'y' {
        offset := offset + 1;
      } else if |propName| > 0 && propName[0] == 'z' {
        offset := offset + 2;
      }
      modelVertices := modelVertices[offset := value];
      if Abs(modelVertices[offset]) > Abs(maxValue) {
        maxValue := Abs(modelVertices[offset]);
      }
    }

    /** load_read_face_cb: stores list entry `valueIndex` of face `element`
        (the list length, reported with valueIndex -1, lands in slot 0). Nothing
        bounds valueIndex by 3: entry 3 of a quad lands in slot 0 of the next face,
        and past the end of the vector for the last face, which the requires
        excludes. */
    method ReadFace(element: nat, valueIndex: int, value: nat)
      requires Valid() && 3 * element + FaceSlot(valueIndex) < |faceIndices|
      modifies this
      ensures Valid()
      ensures faceIndices == old(faceIndices)[3 * element + FaceSlot(valueIndex) := value]
      ensures modelVertices == old(modelVertices) && maxValue == old(maxValue) && allModelData == old(allModelData)
      ensures vertexBuffer == old(vertexBuffer) && faceIndexCount == old(faceIndexCount)
    {
      var offset := 3 * element;
      if valueIndex >= 0 {
        offset := offset + valueIndex;
      }
      faceIndices := faceIndices[offset := value];
    }

    /** The rest of loadModel, once ply_read has returned `readOk`: on failure
        the vectors are cleared; then each triangle is packed, the packed data is
        uploaded to the vertex buffer, the vertex count is recorded, and the
        vectors are cleared. */
    method Finish(readOk: bool, lib: Libm)
      requires Valid() && lib.Valid()
      requires readOk ==> AllFacesOk(modelVertices, faceIndices, |faceIndices| / 3, ScaleFactor(maxValue))
      modifies this, allModelData
      ensures Valid()
      ensures readOk ==> vertexBuffer == Interleaved(Triangles(old(modelVertices), old(faceIndices), old(|faceIndices|) / 3, ScaleFactor(old(maxValue)), lib))
      ensures !readOk ==> vertexBuffer == []
      ensures faceIndexCount == (if readOk then old(|faceIndices|) else 0)
      ensures |vertexBuffer| == RecordSize * faceIndexCount
      ensures modelVertices == [] && faceIndices == [] && allModelData.Length == 0
      ensures maxValue == old(maxValue)
    {
      if !readOk {
        modelVertices := [];
        faceIndices := [];
        allModelData := new real[0];
      }
      var scaleFactor := ScaleFactor(maxValue);
      PackedLength(|faceIndices|);
      PackTriangles(modelVertices, faceIndices, scaleFactor, allModelData, lib);
      vertexBuffer := allModelData[..];
      faceIndexCount := |faceIndices|;
      modelVertices := [];
      faceIndices := [];
      allModelData := new real[0];
    }
  }

  /** n indices in threes make n / 3 triangles of 18 floats, 6 floats per index. */
  lemma PackedLength(count: nat)
    requires count % 3 == 0
    ensures TriangleSize * (count / 3) == RecordSize * count
  {
  }

  /** The packing loop of loadModel: for each face, read its three vertices,
      scale them into the unit cube, shift them down by half a unit, compute the
      normalized face normal and store the triangle's 18 floats. */
  method PackTriangles(vertices: seq<real>, faces: seq<nat>, scaleFactor: real, data: array<real>, lib: Libm)
    requires lib.Valid() && AllFacesOk(vertices, faces, |faces| / 3, scaleFactor)
    requires data.Length == TriangleSize * (|faces| / 3)
    modifies data
    ensures data[..] == Interleaved(Triangles(vertices, faces, |faces| / 3, scaleFactor, lib))
  {
    var n := |faces| / 3;
    ghost var tris := Triangles(vertices, faces, n, scaleFactor, lib);
    for faceIndex := 0 to n
      invariant data[..TriangleSize * faceIndex] == Interleaved(tris[..faceIndex])
    {
      assert FaceOk(vertices, faces, faceIndex, scaleFactor);
      var t := BuildTriangle(vertices, faces, faceIndex, scaleFactor, lib);
      assert t == tris[faceIndex];
      StoreTriangle(data, faceIndex, t);
      PackedPrefixGrows(data[..], tris, faceIndex);
    }
    assert tris[..n] == tris;
    assert data[..] == data[..TriangleSize * n];
  }

  /** One iteration of the packing loop up to the stores: face faceIndex's
      corners and normal. */
  method BuildTriangle(vertices: seq<real>, faces: seq<nat>, faceIndex: nat, scaleFactor: real, lib: Libm) returns (t: Triangle)
    requires lib.Valid() && FaceOk(vertices, faces, faceIndex, scaleFactor)
    ensures t == FaceTriangle(vertices, faces, faceIndex, scaleFactor, lib)
  {
    var vi1, vi2, vi3 := faces[faceIndex * 3], faces[faceIndex * 3 + 1], faces[faceIndex * 3 + 2];
    var v1 := Vec3(vertices[vi1 * 3], vertices[vi1 * 3 + 1], vertices[vi1 * 3 + 2]);
    var v2 := Vec3(vertices[vi2 * 3], vertices[vi2 * 3 + 1], vertices[vi2 * 3 + 2]);
    var v3 := Vec3(vertices[vi3 * 3], vertices[vi3 * 3 + 1], vertices[vi3 * 3 + 2]);
    v1 := v1.Scale(scaleFactor);
    v2 := v2.Scale(scaleFactor);
    v3 := v3.Scale(scaleFactor);
    v1 := v1.Subtract(HalfUnit);
    v2 := v2.Subtract(HalfUnit);
    v3 := v3.Subtract(HalfUnit);
    var normal := v2.Subtract(v1).Cross(v3.Subtract(v1));
    normal := Normalize(normal, lib);
    t := Triangle(v1, v2, v3, normal);
  }

  /** The eighteen stores of one loop iteration: triangle t's record at 18 * faceIndex,
      the records before it untouched. */
  method StoreTriangle(data: array<real>, faceIndex: nat, t: Triangle)
    requires TriangleSize * (faceIndex + 1) <= data.Length
    modifies data
    ensures data[TriangleSize * faceIndex .. TriangleSize * (faceIndex + 1)] == Record(t)
    ensures data[..TriangleSize * faceIndex] == old(data[..TriangleSize * faceIndex])
    ensures data[TriangleSize * (faceIndex + 1)..] == old(data[TriangleSize * (faceIndex + 1)..])
  {
    var b := faceIndex * 18;
    StoreVertex(data, b, t.v1, t.normal);
    StoreVertex(data, b + 6, t.v2, t.normal);
    StoreVertex(data, b + 12, t.v3, t.normal);
    forall j | 0 <= j < TriangleSize ensures data[b..b + 18][j] == Record(t)[j] {
      if j < 6 { } else if j < 12 { } else { }
    }
  }

  /** Six of those stores: a corner's position followed by the face normal. */
  method StoreVertex(data: array<real>, at: nat, p: Vec3, normal: Vec3)
    requires at + RecordSize <= data.Length
    modifies data
    ensures data[at] == p.x && data[at + 1] == p.y && data[at + 2] == p.z
    ensures data[at + 3] == normal.x && data[at + 4] == normal.y && data[at + 5] == normal.z
    ensures forall i | 0 <= i < data.Length && !(at <= i < at + RecordSize) :: data[i] == old(data[i])
  {
    data[at] := p.x;
    data[at + 1] := p.y;
    data[at + 2] := p.z;
    data[at + 3] := normal.x;
    data[at + 4] := normal.y;
    data[at + 5] := normal.z;
  }
}
