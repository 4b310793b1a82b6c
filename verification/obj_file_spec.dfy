/**
 * The whole of OBJFileLoader.loadOBJ (src/OBJConverter/OBJFileLoader.java) as a
 * function of the classified lines of a file, and what it guarantees about the
 * model data it returns.
 *
 * The lines before the first face line build the root vertices and the texture
 * and normal lists; the run of face lines that follows resolves three corners per
 * face against the vertex table; the cleanup pass sets every unused vertex; and
 * the flattening pass lays the table out in three float arrays.
 */
module ObjFileSpec {
  import opened Wrappers
  import opened Vectors
  import opened ObjLines
  import opened ObjVertex
  import opened VertexTable

  /** The loader's result: flat per-vertex arrays, the index buffer and the largest vertex length. */
  datatype ModelData = ModelData(
    vertices: seq<real>,
    textureCoordinates: seq<real>,
    normals: seq<real>,
    indices: seq<int>,
    furthestPoint: real)
  {
    /** The number of vertices laid out in the arrays. */
    function VertexCount(): nat
    {
      |vertices| / 3
    }

    /** Vertex i of the arrays has position p, texture coordinate uv with v flipped, and normal n. */
    predicate HasVertex(i: int, p: Vector3, uv: Vector2, n: Vector3)
    {
      && 0 <= i < VertexCount()
      && |vertices| == 3 * VertexCount() && |textureCoordinates| == 2 * VertexCount() && |normals| == 3 * VertexCount()
      && vertices[3 * i] == p.x && vertices[3 * i + 1] == p.y && vertices[3 * i + 2] == p.z
      && textureCoordinates[2 * i] == uv.x && textureCoordinates[2 * i + 1] == 1.0 - uv.y
      && normals[3 * i] == n.x && normals[3 * i + 1] == n.y && normals[3 * i + 2] == n.z
    }
  }

  // ---------------------------------------------------------------------------
  // Face lines as corners

  /** A face descriptor "p/t/n" with its 1-based indices made 0-based. */
  function DescriptorCorner(d: seq<int>): Corner
    requires |d| >= 3
  {
    Corner(d[0] - 1, d[1] - 1, d[2] - 1)
  }

  /** Every face has at least three descriptors, and each of its first three has at least three fields. */
  predicate WellFormedFaces(faces: seq<ObjLine>)
  {
    forall i :: 0 <= i < |faces| ==>
      && faces[i].FaceLine?
      && |faces[i].descriptors| >= 3
      && (forall j :: 0 <= j < 3 ==> |faces[i].descriptors[j]| >= 3)
  }

  /** The corners the face run resolves, three per face, in file order. */
  function Corners(faces: seq<ObjLine>): (cs: seq<Corner>)
    requires WellFormedFaces(faces)
    ensures |cs| == 3 * |faces|
  {
    if faces == [] then []
    else
      var ds := faces[|faces| - 1].descriptors;
      Corners(faces[..|faces| - 1]) + [DescriptorCorner(ds[0])] + [DescriptorCorner(ds[1])] + [DescriptorCorner(ds[2])]
  }

  /** Corner k is descriptor k % 3 of face k / 3. */
  lemma {:induction false} CornerOfFace(faces: seq<ObjLine>, k: nat)
    requires WellFormedFaces(faces) && k < 3 * |faces|
    ensures Corners(faces)[k] == DescriptorCorner(faces[k / 3].descriptors[k % 3])
  {
    var init := faces[..|faces| - 1];
    if k < 3 * |init| {
      CornerOfFace(init, k);
    }
  }

  /** Every face position index names one of the first `n` table entries. */
  predicate PositionsWithin(faces: seq<ObjLine>, n: nat)
    requires WellFormedFaces(faces)
  {
    forall i, j :: 0 <= i < |faces| && 0 <= j < 3 ==> 1 <= faces[i].descriptors[j][0] <= n
  }

  /**
   * A face run whose position indices all name existing entries never fails, and
   * processing it is resolving its corners in order.
   */
  lemma {:induction false} FacesAsCorners(t: Table, faces: seq<ObjLine>)
    requires WellLinked(t) && WellFormedFaces(faces) && PositionsWithin(faces, |t|)
    ensures AllFaces(faces)
    ensures forall k :: 0 <= k < |Corners(faces)| ==> 0 <= Corners(faces)[k].position < |t|
    ensures ProcessFaces(Progress(t, []), faces) == Ok(ResolveAll(t, Corners(faces)))
  {
    CornersWithin(faces, |t|);
    if faces != [] {
      var init := faces[..|faces| - 1];
      var face := faces[|faces| - 1];
      FacesAsCorners(t, init);
      var s := ResolveAll(t, Corners(init));
      assert forall j :: 0 <= j < 3 ==> |face.descriptors[j]| >= 3 && 1 <= face.descriptors[j][0] <= |t|;
      ProcessFaceAsCorners(t, Corners(init), face);
      assert ProcessFaces(Progress(t, []), faces) == ProcessFace(s, face);
    }
  }

  /** The corners of faces whose position indices name existing entries name existing entries. */
  lemma {:induction false} CornersWithin(faces: seq<ObjLine>, n: nat)
    requires WellFormedFaces(faces) && PositionsWithin(faces, n)
    ensures forall k :: 0 <= k < |Corners(faces)| ==> 0 <= Corners(faces)[k].position < n
  {
    forall k | 0 <= k < |Corners(faces)|
      ensures 0 <= Corners(faces)[k].position < n
    {
      CornerOfFace(faces, k);
    }
  }

  /** One face line after resolved corners: its three corners are resolved next. */
  lemma {:induction false} ProcessFaceAsCorners(t: Table, corners: seq<Corner>, face: ObjLine)
    requires WellLinked(t) && forall k :: 0 <= k < |corners| ==> 0 <= corners[k].position < |t|
    requires face.FaceLine? && |face.descriptors| >= 3
    requires forall j :: 0 <= j < 3 ==> |face.descriptors[j]| >= 3 && 1 <= face.descriptors[j][0] <= |t|
    ensures var ds := face.descriptors;
      var a, b, c := DescriptorCorner(ds[0]), DescriptorCorner(ds[1]), DescriptorCorner(ds[2]);
      && Sound(ResolveAll(t, corners))
      && ProcessFace(ResolveAll(t, corners), face) == Ok(ResolveAll(t, corners + [a] + [b] + [c]))
  {
    var ds := face.descriptors;
    var a, b := DescriptorCorner(ds[0]), DescriptorCorner(ds[1]);
    var d3 := ds[..3];
    ResolveAllSound(t, corners);
    FirstTwoCorners(t, corners, d3);
    ProcessVertexAsCorner(t, corners + [a] + [b], ds[2]);
    assert d3[..3] == d3;
    ProcessCornersStep(ResolveAll(t, corners), d3, 2);
  }

  /** The first two descriptors of a face after resolved corners: their corners are resolved next. */
  lemma {:induction false} FirstTwoCorners(t: Table, corners: seq<Corner>, ds: seq<seq<int>>)
    requires WellLinked(t) && forall k :: 0 <= k < |corners| ==> 0 <= corners[k].position < |t|
    requires |ds| >= 2 && forall j :: 0 <= j < 2 ==> |ds[j]| >= 3 && 1 <= ds[j][0] <= |t|
    ensures forall k :: 0 <= k < |corners + [DescriptorCorner(ds[0])] + [DescriptorCorner(ds[1])]| ==>
      0 <= (corners + [DescriptorCorner(ds[0])] + [DescriptorCorner(ds[1])])[k].position < |t|
    ensures ProcessCorners(ResolveAll(t, corners), ds[..2])
         == Ok(ResolveAll(t, corners + [DescriptorCorner(ds[0])] + [DescriptorCorner(ds[1])]))
  {
    var s0, a := ResolveAll(t, corners), DescriptorCorner(ds[0]);
    ProcessVertexAsCorner(t, corners, ds[0]);
    ProcessVertexAsCorner(t, corners + [a], ds[1]);
    assert ds[..0] == [];
    ProcessCornersStep(s0, ds, 0);
    ProcessCornersStep(s0, ds, 1);
  }

  /** One descriptor after resolved corners: its corner is resolved next. */
  lemma {:induction false} ProcessVertexAsCorner(t: Table, corners: seq<Corner>, d: seq<int>)
    requires WellLinked(t) && forall k :: 0 <= k < |corners| ==> 0 <= corners[k].position < |t|
    requires |d| >= 3 && 1 <= d[0] <= |t|
    ensures forall k :: 0 <= k < |corners + [DescriptorCorner(d)]| ==> 0 <= (corners + [DescriptorCorner(d)])[k].position < |t|
    ensures ProcessVertex(ResolveAll(t, corners), d) == Ok(ResolveAll(t, corners + [DescriptorCorner(d)]))
  {
    ResolveAllSnoc(t, corners, DescriptorCorner(d));
  }

  /** Resolving one more corner is one more step on the resolved state. */
  lemma {:induction false} ResolveAllSnoc(t: Table, corners: seq<Corner>, c: Corner)
    requires WellLinked(t) && 0 <= c.position < |t|
    requires forall k :: 0 <= k < |corners| ==> 0 <= corners[k].position < |t|
    ensures var s := ResolveAll(t, corners);
      ResolveAll(t, corners + [c]) == Emit(s, Resolve(s.table, c))
  {
    assert (corners + [c])[..|corners|] == corners;
  }

  // ---------------------------------------------------------------------------
  // Lengths

  /** Every entry's length is the norm of its position. */
  predicate Normed(t: Table, norm: Vector3 -> real)
  {
    forall i :: 0 <= i < |t| ==> t[i].length == norm(t[i].position)
  }

  lemma {:induction false} WalkNormed(t: Table, cur: nat, texture: int, normal: int, norm: Vector3 -> real)
    requires cur < |t| && Normed(t, norm)
    ensures Normed(Walk(t, cur, texture, normal).0, norm)
    decreases |t| - cur
  {
    if !t[cur].HasSameTextureAndNormal(texture, normal) && t[cur].duplicate.Some? && cur < t[cur].duplicate.value < |t| {
      WalkNormed(t, t[cur].duplicate.value, texture, normal, norm);
    }
  }

  /** A split vertex takes its length from the vertex it splits, so lengths stay the norms of positions. */
  lemma {:induction false} ResolveAllNormed(t: Table, corners: seq<Corner>, norm: Vector3 -> real)
    requires Normed(t, norm)
    requires forall k :: 0 <= k < |corners| ==> 0 <= corners[k].position < |t|
    ensures Normed(ResolveAll(t, corners).table, norm)
  {
    if corners != [] {
      var init := corners[..|corners| - 1];
      ResolveAllNormed(t, init, norm);
      var s := ResolveAll(t, init);
      var c := corners[|corners| - 1];
      if !s.table[c.position].IsNotSet() {
        WalkNormed(s.table, c.position, c.texture, c.normal, norm);
      }
    }
  }

  /** Every entry's position is one of the given positions. */
  predicate PositionsIn(t: Table, P: seq<Vector3>)
  {
    forall i :: 0 <= i < |t| ==> t[i].position in P
  }

  lemma {:induction false} WalkPositionsIn(t: Table, cur: nat, texture: int, normal: int, P: seq<Vector3>)
    requires cur < |t| && PositionsIn(t, P)
    ensures PositionsIn(Walk(t, cur, texture, normal).0, P)
    decreases |t| - cur
  {
    if !t[cur].HasSameTextureAndNormal(texture, normal) && t[cur].duplicate.Some? && cur < t[cur].duplicate.value < |t| {
      WalkPositionsIn(t, t[cur].duplicate.value, texture, normal, P);
    }
  }

  /** A split vertex takes the position of the vertex it splits, so no new position ever appears. */
  lemma {:induction false} ResolveAllPositionsIn(t: Table, corners: seq<Corner>, P: seq<Vector3>)
    requires PositionsIn(t, P)
    requires forall k :: 0 <= k < |corners| ==> 0 <= corners[k].position < |t|
    ensures PositionsIn(ResolveAll(t, corners).table, P)
  {
    if corners != [] {
      var init := corners[..|corners| - 1];
      ResolveAllPositionsIn(t, init, P);
      var s := ResolveAll(t, init);
      var c := corners[|corners| - 1];
      if !s.table[c.position].IsNotSet() {
        WalkPositionsIn(s.table, c.position, c.texture, c.normal, P);
      }
    }
  }

  // ---------------------------------------------------------------------------
  // Flattening

  /** Every vertex's attribute indices name entries of the texture and normal lists. */
  predicate AttributesInRange(t: Table, textures: nat, normals: nat)
  {
    forall i :: 0 <= i < |t| ==> 0 <= t[i].textureIndex < textures && 0 <= t[i].normalIndex < normals
  }

  /** The positions, three floats per vertex. */
  function PositionArray(t: Table): (a: seq<real>)
    ensures |a| == 3 * |t|
  {
    seq(3 * |t|, j requires 0 <= j < 3 * |t| => Coordinate(t[j / 3].position, j % 3))
  }

  /** The texture coordinates, two floats per vertex, with v flipped to 1 - v. */
  function TextureArray(t: Table, textures: seq<Vector2>): (a: seq<real>)
    requires forall i :: 0 <= i < |t| ==> 0 <= t[i].textureIndex < |textures|
    ensures |a| == 2 * |t|
  {
    seq(2 * |t|, j requires 0 <= j < 2 * |t| =>
      var uv := textures[t[j / 2].textureIndex];
      if j % 2 == 0 then uv.x else 1.0 - uv.y)
  }

  /** The normals, three floats per vertex. */
  function NormalArray(t: Table, normals: seq<Vector3>): (a: seq<real>)
    requires forall i :: 0 <= i < |t| ==> 0 <= t[i].normalIndex < |normals|
    ensures |a| == 3 * |t|
  {
    seq(3 * |t|, j requires 0 <= j < 3 * |t| => Coordinate(normals[t[j / 3].normalIndex], j % 3))
  }

  /** Slots 3i, 3i + 1 and 3i + 2 of the position array hold vertex i's position. */
  lemma {:induction false} PositionSlots(t: Table, i: nat)
    requires i < |t|
    ensures var a := PositionArray(t);
      a[3 * i] == t[i].position.x && a[3 * i + 1] == t[i].position.y && a[3 * i + 2] == t[i].position.z
  {
    Stride3(i, 0);
    Stride3(i, 1);
    Stride3(i, 2);
  }

  /** Slots 2i and 2i + 1 of the texture array hold vertex i's texture coordinate, with v flipped. */
  lemma {:induction false} TextureSlots(t: Table, textures: seq<Vector2>, i: nat)
    requires forall i :: 0 <= i < |t| ==> 0 <= t[i].textureIndex < |textures|
    requires i < |t|
    ensures var a := TextureArray(t, textures);
      var uv := textures[t[i].textureIndex];
      a[2 * i] == uv.x && a[2 * i + 1] == 1.0 - uv.y
  {
    Stride2(i, 0);
    Stride2(i, 1);
  }

  /** Slots 3i, 3i + 1 and 3i + 2 of the normal array hold vertex i's normal. */
  lemma {:induction false} NormalSlots(t: Table, normals: seq<Vector3>, i: nat)
    requires forall i :: 0 <= i < |t| ==> 0 <= t[i].normalIndex < |normals|
    requires i < |t|
    ensures var a := NormalArray(t, normals);
      var n := normals[t[i].normalIndex];
      a[3 * i] == n.x && a[3 * i + 1] == n.y && a[3 * i + 2] == n.z
  {
    Stride3(i, 0);
    Stride3(i, 1);
    Stride3(i, 2);
  }

  /** Flattening lays vertex i of the table out as vertex i of the arrays. */
  lemma {:induction false} MaterializedVertex(t: Table, textures: seq<Vector2>, normals: seq<Vector3>, indices: seq<int>, i: nat)
    requires AttributesInRange(t, |textures|, |normals|) && i < |t|
    ensures Materialize(t, textures, normals, indices).value.HasVertex(
      i, t[i].position, textures[t[i].textureIndex], normals[t[i].normalIndex])
  {
    PositionSlots(t, i);
    TextureSlots(t, textures, i);
    NormalSlots(t, normals, i);
  }

  /** Flattening one more vertex appends its three position floats. */
  lemma {:induction false} PositionArraySnoc(t: Table, i: nat)
    requires i < |t|
    ensures PositionArray(t[..i + 1]) == PositionArray(t[..i]) + [t[i].position.x, t[i].position.y, t[i].position.z]
  {
    var a := PositionArray(t[..i + 1]);
    var b := PositionArray(t[..i]) + [t[i].position.x, t[i].position.y, t[i].position.z];
    forall j | 0 <= j < 3 * (i + 1)
      ensures a[j] == b[j]
    {
      var v := j / 3;
      assert j == 3 * v + j % 3;
      PositionSlots(t[..i + 1], v);
      if v < i {
        PositionSlots(t[..i], v);
      }
    }
  }

  /** Flattening one more vertex appends its texture coordinate, with v flipped. */
  lemma {:induction false} TextureArraySnoc(t: Table, textures: seq<Vector2>, i: nat)
    requires i < |t|
    requires forall k :: 0 <= k <= i ==> 0 <= t[k].textureIndex < |textures|
    ensures var uv := textures[t[i].textureIndex];
      TextureArray(t[..i + 1], textures) == TextureArray(t[..i], textures) + [uv.x, 1.0 - uv.y]
  {
    var uv := textures[t[i].textureIndex];
    var a := TextureArray(t[..i + 1], textures);
    var b := TextureArray(t[..i], textures) + [uv.x, 1.0 - uv.y];
    forall j | 0 <= j < 2 * (i + 1)
      ensures a[j] == b[j]
    {
      var v := j / 2;
      assert j == 2 * v + j % 2;
      TextureSlots(t[..i + 1], textures, v);
      if v < i {
        TextureSlots(t[..i], textures, v);
      }
    }
  }

  /** Flattening one more vertex appends its three normal floats. */
  lemma {:induction false} NormalArraySnoc(t: Table, normals: seq<Vector3>, i: nat)
    requires i < |t|
    requires forall k :: 0 <= k <= i ==> 0 <= t[k].normalIndex < |normals|
    ensures var n := normals[t[i].normalIndex];
      NormalArray(t[..i + 1], normals) == NormalArray(t[..i], normals) + [n.x, n.y, n.z]
  {
    var n := normals[t[i].normalIndex];
    var a := NormalArray(t[..i + 1], normals);
    var b := NormalArray(t[..i], normals) + [n.x, n.y, n.z];
    forall j | 0 <= j < 3 * (i + 1)
      ensures a[j] == b[j]
    {
      var v := j / 3;
      assert j == 3 * v + j % 3;
      NormalSlots(t[..i + 1], normals, v);
      if v < i {
        NormalSlots(t[..i], normals, v);
      }
    }
  }

  /** The running maximum of the vertex lengths, starting from 0. */
  function Furthest(t: Table): (m: real)
    ensures m >= 0.0
  {
    if t == [] then 0.0
    else
      var m := Furthest(t[..|t| - 1]);
      if t[|t| - 1].length > m then t[|t| - 1].length else m
  }

  /** The running maximum bounds every length and is one of them, unless it stayed at 0. */
  lemma {:induction false} FurthestIsMaximum(t: Table)
    ensures forall i :: 0 <= i < |t| ==> t[i].length <= Furthest(t)
    ensures Furthest(t) == 0.0 || exists i :: 0 <= i < |t| && t[i].length == Furthest(t)
  {
    if t != [] {
      var front := t[..|t| - 1];
      FurthestIsMaximum(front);
      forall i | 0 <= i < |t|
        ensures t[i].length <= Furthest(t)
      {
        if i < |t| - 1 {
          assert t[i] == front[i];
        }
      }
      if Furthest(t) != 0.0 && Furthest(t) == Furthest(front) {
        var j :| 0 <= j < |front| && front[j].length == Furthest(front);
        assert t[j] == front[j];
      }
    }
  }

  /** Extending the table by one vertex is one step of the running maximum. */
  lemma {:induction false} FurthestStep(t: Table, i: nat)
    requires i < |t|
    ensures Furthest(t[..i + 1]) == if t[i].length > Furthest(t[..i]) then t[i].length else Furthest(t[..i])
  {
    assert t[..i + 1][..i] == t[..i];
  }

  /** The flattening pass: it fails when a vertex's attribute index lies outside its list. */
  function Materialize(t: Table, textures: seq<Vector2>, normals: seq<Vector3>, indices: seq<int>): (r: Result<ModelData, LoadError>)
    ensures r.Ok? <==> AttributesInRange(t, |textures|, |normals|)
    ensures r.Ok? ==> r.value.VertexCount() == |t| && r.value.indices == indices
  {
    if !AttributesInRange(t, |textures|, |normals|) then Err(AttributeIndexOutOfRange)
    else Ok(ModelData(PositionArray(t), TextureArray(t, textures), NormalArray(t, normals), indices, Furthest(t)))
  }

  // ---------------------------------------------------------------------------
  // The loader

  /** The run of face lines the face loop consumes: from the first face line up to the first line that is not one. */
  function FaceRun(lines: seq<ObjLine>): seq<ObjLine>
    requires FirstFace(lines) < |lines|
  {
    lines[FirstFace(lines)..FaceRunEnd(lines, FirstFace(lines))]
  }

  /**
   * loadOBJ on the classified lines of a file, with `norm` standing for the vector
   * length routine.
   */
  function LoadObj(lines: seq<ObjLine>, norm: Vector3 -> real): (r: Result<ModelData, LoadError>)
    ensures FirstFace(lines) == |lines| ==> r == Err(NoFaceLine)
  {
    var f := FirstFace(lines);
    if f == |lines| then Err(NoFaceLine)
    else
      var header := lines[..f];
      var s :- ProcessFaces(Progress(Roots(Positions(header), norm), []), FaceRun(lines));
      Materialize(RemoveUnused(s.table), Textures(header), Normals(header), s.indices)
  }

  /**
   * The shape of a loaded model: three floats of position, two of texture coordinate
   * and three of normal per vertex, at least one vertex per "v " line before the
   * faces, three indices per face line, every index naming a vertex, and a
   * non-negative radius.
   */
  lemma {:induction false} LoadObjShape(lines: seq<ObjLine>, norm: Vector3 -> real)
    requires LoadObj(lines, norm).Ok?
    ensures var m := LoadObj(lines, norm).value;
      && FirstFace(lines) < |lines|
      && |m.vertices| == 3 * m.VertexCount()
      && |m.textureCoordinates| == 2 * m.VertexCount()
      && |m.normals| == 3 * m.VertexCount()
      && m.VertexCount() >= |Positions(lines[..FirstFace(lines)])|
      && |m.indices| == 3 * |FaceRun(lines)|
      && (forall k :: 0 <= k < |m.indices| ==> 0 <= m.indices[k] < m.VertexCount())
      && m.furthestPoint >= 0.0
  {
    var header := lines[..FirstFace(lines)];
    ProcessFacesSound(Progress(Roots(Positions(header), norm), []), FaceRun(lines));
  }

  /** Cutting the lines after the first face line leaves that line the first face line. */
  lemma {:induction false} FirstFaceOfPrefix(lines: seq<ObjLine>, e: nat)
    requires FirstFace(lines) < e <= |lines|
    ensures FirstFace(lines[..e]) == FirstFace(lines)
  {
    if !lines[0].FaceLine? {
      assert lines[..e][1..] == lines[1..][..e - 1];
      FirstFaceOfPrefix(lines[1..], e - 1);
    }
  }

  /** Cutting the lines at the end of a face run leaves that run as it was. */
  lemma {:induction false} FaceRunEndOfPrefix(lines: seq<ObjLine>, f: nat)
    requires f <= |lines|
    ensures var e := FaceRunEnd(lines, f); FaceRunEnd(lines[..e], f) == e
  {
    var e := FaceRunEnd(lines, f);
    assert forall i :: f <= i < e ==> lines[..e][i] == lines[i];
  }

  /** Lines after the run of face lines are never read into the model. */
  lemma {:induction false} TrailingLinesIgnored(lines: seq<ObjLine>, norm: Vector3 -> real)
    requires FirstFace(lines) < |lines|
    ensures var e := FaceRunEnd(lines, FirstFace(lines));
      LoadObj(lines[..e], norm) == LoadObj(lines, norm)
  {
    var f := FirstFace(lines);
    var e := FaceRunEnd(lines, f);
    var short := lines[..e];
    FirstFaceOfPrefix(lines, e);
    FaceRunEndOfPrefix(lines, f);
    assert short[..f] == lines[..f];
    assert FaceRun(short) == FaceRun(lines);
  }

  // ---------------------------------------------------------------------------
  // What a well-formed file loads to

  /** Every face index of the first three descriptors names a "v ", "vt " or "vn " line before the faces. */
  predicate FacesWithin(faces: seq<ObjLine>, positions: nat, textures: nat, normals: nat)
    requires WellFormedFaces(faces)
  {
    forall i, j :: 0 <= i < |faces| && 0 <= j < 3 ==>
      var d := faces[i].descriptors[j];
      1 <= d[0] <= positions && 1 <= d[1] <= textures && 1 <= d[2] <= normals
  }

  /** The corners of faces within the lists are valid and their attribute indices name list entries. */
  lemma {:induction false} CornersOfFacesWithin(faces: seq<ObjLine>, positions: nat, textures: nat, normals: nat)
    requires WellFormedFaces(faces) && FacesWithin(faces, positions, textures, normals)
    ensures PositionsWithin(faces, positions)
    ensures ValidCorners(Corners(faces), positions)
    ensures forall k :: 0 <= k < |Corners(faces)| ==>
      Corners(faces)[k].texture < textures && Corners(faces)[k].normal < normals
  {
    var cs := Corners(faces);
    forall k | 0 <= k < |cs|
      ensures 0 <= cs[k].position < positions && 0 <= cs[k].texture < textures && 0 <= cs[k].normal < normals
    {
      CornerOfFace(faces, k);
    }
  }

  /** After the cleanup pass every vertex's attribute indices name list entries. */
  lemma {:induction false} CleanAttributes(roots: Table, corners: seq<Corner>, textures: nat, normals: nat)
    requires FreshRoots(roots) && WellLinked(roots)
    requires ValidCorners(corners, |roots|) && |corners| > 0
    requires forall k :: 0 <= k < |corners| ==> corners[k].texture < textures && corners[k].normal < normals
    ensures AttributesInRange(RemoveUnused(ResolveAll(roots, corners).table), textures, normals)
  {
    var s := ResolveAll(roots, corners);
    var t := RemoveUnused(s.table);
    ResolveAllPlacesCorners(roots, corners);
    ResolveAllCovers(roots, corners);
    assert 0 <= corners[0].texture < textures && 0 <= corners[0].normal < normals;
    forall i | 0 <= i < |t|
      ensures 0 <= t[i].textureIndex < textures && 0 <= t[i].normalIndex < normals
    {
      if !s.table[i].IsNotSet() {
        var k :| 0 <= k < |s.indices| && s.indices[k] == i;
      }
    }
  }

  /** After the cleanup pass every vertex has a "v " line's position and its norm as length, and root i keeps position i. */
  lemma {:induction false} CleanPositions(P: seq<Vector3>, corners: seq<Corner>, norm: Vector3 -> real)
    requires ValidCorners(corners, |P|)
    ensures var t := RemoveUnused(ResolveAll(Roots(P, norm), corners).table);
      && |P| <= |t|
      && Normed(t, norm)
      && (forall i :: 0 <= i < |P| ==> t[i].position == P[i])
      && PositionsIn(t, P)
  {
    var roots := Roots(P, norm);
    assert PositionsIn(roots, P) by {
      forall i | 0 <= i < |roots|
        ensures roots[i].position in P
      {
        assert roots[i].position == P[i];
      }
    }
    ResolveAllSound(roots, corners);
    ResolveAllPositionsIn(roots, corners, P);
    ResolveAllNormed(roots, corners, norm);
  }

  /** The running maximum over a table whose vertices all have "v " line positions is the largest norm of one, or 0. */
  lemma {:induction false} FurthestOverPositions(P: seq<Vector3>, t: Table, norm: Vector3 -> real)
    requires |P| <= |t| && Normed(t, norm)
    requires forall i :: 0 <= i < |P| ==> t[i].position == P[i]
    requires PositionsIn(t, P)
    ensures forall i :: 0 <= i < |P| ==> norm(P[i]) <= Furthest(t)
    ensures Furthest(t) == 0.0 || exists i :: 0 <= i < |P| && Furthest(t) == norm(P[i])
  {
    FurthestIsMaximum(t);
    forall i | 0 <= i < |P|
      ensures norm(P[i]) <= Furthest(t)
    {
      assert t[i].length == norm(P[i]);
    }
    if Furthest(t) != 0.0 {
      var j :| 0 <= j < |t| && t[j].length == Furthest(t);
      var q :| 0 <= q < |P| && t[j].position == P[q];
      assert Furthest(t) == norm(P[q]);
    }
  }

  /** With the face run resolved as corners, loading is flattening the cleaned table. */
  lemma {:induction false} LoadObjAsCorners(lines: seq<ObjLine>, norm: Vector3 -> real)
    requires FirstFace(lines) < |lines|
    requires var header := lines[..FirstFace(lines)];
      WellFormedFaces(FaceRun(lines)) && PositionsWithin(FaceRun(lines), |Positions(header)|)
    ensures forall k :: 0 <= k < |Corners(FaceRun(lines))| ==>
      0 <= Corners(FaceRun(lines))[k].position < |Positions(lines[..FirstFace(lines)])|
    ensures var header := lines[..FirstFace(lines)];
      var s := ResolveAll(Roots(Positions(header), norm), Corners(FaceRun(lines)));
      LoadObj(lines, norm) == Materialize(RemoveUnused(s.table), Textures(header), Normals(header), s.indices)
  {
    var header := lines[..FirstFace(lines)];
    FacesAsCorners(Roots(Positions(header), norm), FaceRun(lines));
  }

  /**
   * Flattening the cleaned table built from valid corners succeeds, and index k
   * names a vertex carrying corner k's root position and attributes.
   */
  lemma {:induction false} MeshRendersCorners(P: seq<Vector3>, cs: seq<Corner>, T: seq<Vector2>, N: seq<Vector3>, norm: Vector3 -> real)
    requires ValidCorners(cs, |P|) && |cs| > 0
    requires forall k :: 0 <= k < |cs| ==> cs[k].texture < |T| && cs[k].normal < |N|
    ensures var s := ResolveAll(Roots(P, norm), cs);
      Materialize(RemoveUnused(s.table), T, N, s.indices).Ok?
    ensures var s := ResolveAll(Roots(P, norm), cs);
      var m := Materialize(RemoveUnused(s.table), T, N, s.indices).value;
      && |m.indices| == |cs|
      && (forall k :: 0 <= k < |cs| ==>
            m.HasVertex(m.indices[k], P[cs[k].position], T[cs[k].texture], N[cs[k].normal]))
  {
    var roots := Roots(P, norm);
    var s := ResolveAll(roots, cs);
    var t := RemoveUnused(s.table);
    CleanAttributes(roots, cs, |T|, |N|);
    MeshVertices(roots, cs, T, N);
    var m := Materialize(t, T, N, s.indices).value;
    forall k | 0 <= k < |cs|
      ensures m.HasVertex(m.indices[k], P[cs[k].position], T[cs[k].texture], N[cs[k].normal])
    {
      assert roots[cs[k].position].position == P[cs[k].position];
    }
  }

  /**
   * In the flattened table built from valid corners indices coincide exactly for
   * equal corners, and every vertex is an unreferenced root or the target of an index.
   */
  lemma {:induction false} MeshDeduplicates(P: seq<Vector3>, cs: seq<Corner>, T: seq<Vector2>, N: seq<Vector3>, norm: Vector3 -> real)
    requires ValidCorners(cs, |P|) && |cs| > 0
    requires forall k :: 0 <= k < |cs| ==> cs[k].texture < |T| && cs[k].normal < |N|
    ensures var s := ResolveAll(Roots(P, norm), cs);
      Materialize(RemoveUnused(s.table), T, N, s.indices).Ok?
    ensures var s := ResolveAll(Roots(P, norm), cs);
      var m := Materialize(RemoveUnused(s.table), T, N, s.indices).value;
      && |m.indices| == |cs|
      && (forall k1, k2 :: 0 <= k1 < |cs| && 0 <= k2 < |cs| ==>
            (m.indices[k1] == m.indices[k2] <==> cs[k1] == cs[k2]))
      && (forall i :: 0 <= i < m.VertexCount() ==>
            (i < |P| && Unreferenced(cs, i)) || i in m.indices)
  {
    var roots := Roots(P, norm);
    CleanAttributes(roots, cs, |T|, |N|);
    ResolveAllDeduplicates(roots, cs);
    ResolveAllCovers(roots, cs);
  }

  /** Index k of the flattened table names a vertex carrying corner k's root position and attributes. */
  lemma {:induction false} MeshVertices(roots: Table, cs: seq<Corner>, T: seq<Vector2>, N: seq<Vector3>)
    requires FreshRoots(roots) && WellLinked(roots) && ValidCorners(cs, |roots|)
    requires AttributesInRange(RemoveUnused(ResolveAll(roots, cs).table), |T|, |N|)
    requires forall k :: 0 <= k < |cs| ==> cs[k].texture < |T| && cs[k].normal < |N|
    ensures var s := ResolveAll(roots, cs);
      var m := Materialize(RemoveUnused(s.table), T, N, s.indices).value;
      forall k :: 0 <= k < |cs| ==>
        m.HasVertex(m.indices[k], roots[cs[k].position].position, T[cs[k].texture], N[cs[k].normal])
  {
    var s := ResolveAll(roots, cs);
    var t := RemoveUnused(s.table);
    ResolveAllPlacesCorners(roots, cs);
    forall k | 0 <= k < |cs|
      ensures Materialize(t, T, N, s.indices).value.HasVertex(
        s.indices[k], roots[cs[k].position].position, T[cs[k].texture], N[cs[k].normal])
    {
      MaterializedVertex(t, T, N, s.indices, s.indices[k]);
    }
  }

  /** The radius of the flattened table is the largest length of a root, or 0. */
  lemma {:induction false} MeshRadius(P: seq<Vector3>, cs: seq<Corner>, T: seq<Vector2>, N: seq<Vector3>, norm: Vector3 -> real)
    requires ValidCorners(cs, |P|) && |cs| > 0
    requires forall k :: 0 <= k < |cs| ==> cs[k].texture < |T| && cs[k].normal < |N|
    ensures var s := ResolveAll(Roots(P, norm), cs);
      Materialize(RemoveUnused(s.table), T, N, s.indices).Ok?
    ensures var s := ResolveAll(Roots(P, norm), cs);
      var m := Materialize(RemoveUnused(s.table), T, N, s.indices).value;
      && (forall i :: 0 <= i < |P| ==> norm(P[i]) <= m.furthestPoint)
      && (m.furthestPoint == 0.0 || exists i :: 0 <= i < |P| && m.furthestPoint == norm(P[i]))
  {
    var roots := Roots(P, norm);
    var s := ResolveAll(roots, cs);
    var t := RemoveUnused(s.table);
    CleanAttributes(roots, cs, |T|, |N|);
    CleanPositions(P, cs, norm);
    FurthestOverPositions(P, t, norm);
  }

  /** The face run of a file whose indices name lines before the faces has valid, in-range corners. */
  lemma {:induction false} FaceRunCorners(lines: seq<ObjLine>)
    requires FirstFace(lines) < |lines|
    requires WellFormedFaces(FaceRun(lines))
    requires var header := lines[..FirstFace(lines)];
      FacesWithin(FaceRun(lines), |Positions(header)|, |Textures(header)|, |Normals(header)|)
    ensures var header := lines[..FirstFace(lines)];
      var cs := Corners(FaceRun(lines));
      && |cs| > 0
      && PositionsWithin(FaceRun(lines), |Positions(header)|)
      && ValidCorners(cs, |Positions(header)|)
      && forall k :: 0 <= k < |cs| ==> cs[k].texture < |Textures(header)| && cs[k].normal < |Normals(header)|
  {
    var f := FirstFace(lines);
    var header := lines[..f];
    assert FaceRun(lines)[0] == lines[f];
    CornersOfFacesWithin(FaceRun(lines), |Positions(header)|, |Textures(header)|, |Normals(header)|);
  }

  /**
   * A file whose face indices all name lines before the faces loads without error,
   * and index k of the index buffer stands for corner k of the faces: the vertex it
   * names carries exactly that corner's position, texture coordinate (with v
   * flipped) and normal.
   */
  lemma {:induction false} LoadObjRendersFaces(lines: seq<ObjLine>, norm: Vector3 -> real)
    requires FirstFace(lines) < |lines|
    requires WellFormedFaces(FaceRun(lines))
    requires var header := lines[..FirstFace(lines)];
      FacesWithin(FaceRun(lines), |Positions(header)|, |Textures(header)|, |Normals(header)|)
    ensures LoadObj(lines, norm).Ok?
    ensures |LoadObj(lines, norm).value.indices| == |Corners(FaceRun(lines))|
    ensures var header := lines[..FirstFace(lines)];
      var P, T, N := Positions(header), Textures(header), Normals(header);
      var cs := Corners(FaceRun(lines));
      var m := LoadObj(lines, norm).value;
      forall k :: 0 <= k < |cs| ==>
        && 0 <= cs[k].position < |P| && 0 <= cs[k].texture < |T| && 0 <= cs[k].normal < |N|
        && m.HasVertex(m.indices[k], P[cs[k].position], T[cs[k].texture], N[cs[k].normal])
  {
    var header := lines[..FirstFace(lines)];
    FaceRunCorners(lines);
    LoadObjAsCorners(lines, norm);
    MeshRendersCorners(Positions(header), Corners(FaceRun(lines)), Textures(header), Normals(header), norm);
  }

  /**
   * In the mesh of a well-formed file two corners share an index exactly when they
   * are the same triple, and every vertex is either the root of a position no face
   * uses or the target of some index.
   */
  lemma {:induction false} LoadObjDeduplicates(lines: seq<ObjLine>, norm: Vector3 -> real)
    requires FirstFace(lines) < |lines|
    requires WellFormedFaces(FaceRun(lines))
    requires var header := lines[..FirstFace(lines)];
      FacesWithin(FaceRun(lines), |Positions(header)|, |Textures(header)|, |Normals(header)|)
    ensures LoadObj(lines, norm).Ok?
    ensures |LoadObj(lines, norm).value.indices| == |Corners(FaceRun(lines))|
    ensures var cs := Corners(FaceRun(lines));
      var m := LoadObj(lines, norm).value;
      forall k1, k2 :: 0 <= k1 < |cs| && 0 <= k2 < |cs| ==>
        (m.indices[k1] == m.indices[k2] <==> cs[k1] == cs[k2])
    ensures var P := Positions(lines[..FirstFace(lines)]);
      var cs := Corners(FaceRun(lines));
      var m := LoadObj(lines, norm).value;
      forall i :: 0 <= i < m.VertexCount() ==>
        (i < |P| && Unreferenced(cs, i)) || i in m.indices
  {
    var header := lines[..FirstFace(lines)];
    FaceRunCorners(lines);
    LoadObjAsCorners(lines, norm);
    MeshDeduplicates(Positions(header), Corners(FaceRun(lines)), Textures(header), Normals(header), norm);
  }

  /** The radius of a well-formed file is the largest length of a position before the faces, or 0. */
  lemma {:induction false} LoadObjRadius(lines: seq<ObjLine>, norm: Vector3 -> real)
    requires FirstFace(lines) < |lines|
    requires WellFormedFaces(FaceRun(lines))
    requires var header := lines[..FirstFace(lines)];
      FacesWithin(FaceRun(lines), |Positions(header)|, |Textures(header)|, |Normals(header)|)
    ensures LoadObj(lines, norm).Ok?
    ensures var P := Positions(lines[..FirstFace(lines)]);
      var m := LoadObj(lines, norm).value;
      && (forall i :: 0 <= i < |P| ==> norm(P[i]) <= m.furthestPoint)
      && (m.furthestPoint == 0.0 || exists i :: 0 <= i < |P| && m.furthestPoint == norm(P[i]))
  {
    var header := lines[..FirstFace(lines)];
    var P := Positions(header);
    FaceRunCorners(lines);
    LoadObjAsCorners(lines, norm);
    MeshRadius(P, Corners(FaceRun(lines)), Textures(header), Normals(header), norm);
  }
}
