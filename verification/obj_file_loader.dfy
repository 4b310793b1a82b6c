/**
 * The OBJ converter's loader as it runs (src/OBJConverter/OBJFileLoader.java):
 * lists that grow in place, `Vertex` objects updated through their setters, a
 * chain walk over duplicate references, and index loops that fill the output
 * arrays. Each method is proved against the value-level definitions of
 * VertexTable and ObjFileSpec, so everything proved there holds of what these
 * methods compute.
 *
 * The Java lists are `seq` variables that a call receives and hands back
 * extended; the `Vertex` objects themselves live on the heap and are shared
 * between the list and the duplicate references.
 */
module ObjFileLoader {
  import opened Wrappers
  import opened Vectors
  import opened ObjLines
  import opened ObjVertex
  import opened VertexTable
  import opened ObjFileSpec

  /** The value view of the vertex list: entry i is the record of vertex i. */
  ghost function Snapshot(vertices: seq<Vertex>): Table
    reads vertices
  {
    seq(|vertices|, i requires 0 <= i < |vertices| reads vertices => vertices[i].Record())
  }

  /**
   * The vertex list is well formed: vertex i carries index i and the norm of its
   * position as length, every duplicate reference points at a vertex of the list,
   * and the links form proper chains.
   */
  ghost predicate Valid(vertices: seq<Vertex>, norm: Vector3 -> real)
    reads vertices
  {
    && (forall i :: 0 <= i < |vertices| ==>
          vertices[i].index == i && vertices[i].length == norm(vertices[i].position))
    && (forall i :: 0 <= i < |vertices| && vertices[i].duplicateVertex != null ==>
          vertices[i].duplicateVertex.index < |vertices|
          && vertices[vertices[i].duplicateVertex.index] == vertices[i].duplicateVertex)
    && WellLinked(Snapshot(vertices))
  }

  /** `after` is `before` followed by vertices allocated by the current call. */
  twostate predicate Extends(before: seq<Vertex>, new after: seq<Vertex>)
  {
    && |before| <= |after| && after[..|before|] == before
    && forall i :: |before| <= i < |after| ==> fresh(after[i])
  }

  /**
   * manageProcessedVertex: walk the duplicate chain from `previous` for a vertex
   * with the requested pair and emit it; at the end of the chain, append a new
   * vertex with that pair and link it from the last one. The recursion of the
   * source is a loop here.
   */
  method ManageProcessedVertex(previous: Vertex, texture: int, normal: int, indices: seq<int>,
                               vertices: seq<Vertex>, norm: Vector3 -> real)
    returns (indices': seq<int>, vertices': seq<Vertex>)
    requires Valid(vertices, norm)
    requires previous.index < |vertices| && vertices[previous.index] == previous
    modifies vertices
    ensures Valid(vertices', norm) && Extends(vertices, vertices')
    ensures var res := Walk(old(Snapshot(vertices)), previous.index, texture, normal);
      Snapshot(vertices') == res.0 && indices' == indices + [res.1]
  {
    ghost var table := Snapshot(vertices);
    var current: Vertex := previous;
    while !current.HasSameTextureAndNormal(texture, normal) && current.duplicateVertex != null
      invariant current.index < |vertices| && vertices[current.index] == current
      invariant Walk(table, previous.index, texture, normal) == Walk(table, current.index, texture, normal)
      decreases |vertices| - current.index
    {
      assert table[current.index].duplicate == Some(current.duplicateVertex.index);
      assert LinkOk(table, current.index);
      current := current.duplicateVertex;
    }
    if current.HasSameTextureAndNormal(texture, normal) {
      indices' := indices + [current.index];
      vertices' := vertices;
    } else {
      var duplicate := new Vertex(|vertices|, current.position, norm);
      duplicate.SetTextureIndex(texture);
      duplicate.SetNormalIndex(normal);
      current.SetDuplicateVertex(duplicate);
      vertices' := vertices + [duplicate];
      indices' := indices + [duplicate.index];
      forall i | 0 <= i < |vertices| && i != current.index
        ensures vertices[i].Record() == table[i]
        ensures vertices[i].duplicateVertex == old(vertices[i].duplicateVertex)
      {
        assert vertices[i] != current;
      }
      SplitKeepsValid(table, vertices, current, duplicate, texture, normal, norm);
    }
  }

  /**
   * Appending a new vertex with the requested pair and linking it from the tail
   * `current` of a chain keeps the list valid and is the value-level split.
   */
  lemma SplitKeepsValid(table: Table, vertices: seq<Vertex>, current: Vertex, duplicate: Vertex,
                        texture: int, normal: int, norm: Vector3 -> real)
    requires WellLinked(table) && |table| == |vertices|
    requires forall i :: 0 <= i < |vertices| ==>
      vertices[i].index == i && vertices[i].length == norm(vertices[i].position)
    requires current.index < |vertices| && vertices[current.index] == current
    requires table[current.index].duplicate.None?
    requires forall i :: 0 <= i < |vertices| && i != current.index ==> vertices[i].Record() == table[i]
    requires forall i :: 0 <= i < |vertices| && i != current.index && vertices[i].duplicateVertex != null ==>
      vertices[i].duplicateVertex.index < |vertices| && vertices[vertices[i].duplicateVertex.index] == vertices[i].duplicateVertex
    requires current.duplicateVertex == duplicate
    requires current.Record() == table[current.index].(duplicate := Some(|vertices|))
    requires duplicate.Record() == VertexRecord(|vertices|, current.position, norm(current.position), texture, normal, None)
    ensures Valid(vertices + [duplicate], norm)
    ensures Snapshot(vertices + [duplicate]) == Split(table, current.index, texture, normal).0
  {
    var last := current.index;
    var vertices' := vertices + [duplicate];
    forall i | 0 <= i < |table| && i != last
      ensures vertices'[i].Record() == table[i]
    {
      assert vertices'[i] == vertices[i];
    }
    SplitSnapshot(table, vertices, vertices', last, texture, normal);
    SplitSound(table, last, texture, normal);
    forall i | 0 <= i < |vertices'| && vertices'[i].duplicateVertex != null
      ensures vertices'[i].duplicateVertex.index < |vertices'|
      ensures vertices'[vertices'[i].duplicateVertex.index] == vertices'[i].duplicateVertex
    {
      if i < |vertices| && i != last {
        assert vertices'[i] == vertices[i];
      }
    }
  }

  /** The list after a split is the value-level split of the list before it. */
  lemma SplitSnapshot(table: Table, vertices: seq<Vertex>, vertices': seq<Vertex>, last: nat, texture: int, normal: int)
    requires WellLinked(table) && last < |table| && table[last].duplicate.None?
    requires |vertices'| == |table| + 1 && |vertices| == |table| && vertices'[..|table|] == vertices
    requires forall i :: 0 <= i < |table| && i != last ==> vertices'[i].Record() == table[i]
    requires vertices'[last].Record() == table[last].(duplicate := Some(|table|))
    requires vertices'[|table|].Record()
          == VertexRecord(|table|, table[last].position, table[last].length, texture, normal, None)
    ensures Snapshot(vertices') == Split(table, last, texture, normal).0
  {
  }

  /** The loader's working state is well formed: a valid vertex list and indices that name its vertices. */
  ghost predicate Working(vertices: seq<Vertex>, indices: seq<int>, norm: Vector3 -> real)
    reads vertices
  {
    Valid(vertices, norm) && Sound(Progress(Snapshot(vertices), indices))
  }

  /**
   * processVertex: one face descriptor with 1-based indices. The position index
   * is looked up first; an unset vertex takes the pair and emits its own index,
   * a set one goes to the chain walk.
   */
  method ProcessVertex(vertex: seq<int>, vertices: seq<Vertex>, indices: seq<int>, norm: Vector3 -> real, ghost s: Progress)
    returns (r: Result<(seq<Vertex>, seq<int>), LoadError>)
    requires Working(vertices, indices, norm) && s == Progress(Snapshot(vertices), indices)
    modifies vertices
    ensures var spec := VertexTable.ProcessVertex(s, vertex);
      && (r.Ok? <==> spec.Ok?)
      && (r.Err? ==> r.error == spec.error)
      && (r.Ok? ==> Working(r.value.0, r.value.1, norm) && Progress(Snapshot(r.value.0), r.value.1) == spec.value)
    ensures r.Ok? ==> Extends(vertices, r.value.0)
  {
    ghost var table := Snapshot(vertices);
    VertexTable.ProcessVertexSound(s, vertex);
    if |vertex| == 0 {
      return Err(MalformedFace);
    }
    var index := vertex[0] - 1;
    if !(0 <= index < |vertices|) {
      return Err(VertexIndexOutOfRange);
    }
    var currentVertex := vertices[index];
    if |vertex| < 3 {
      return Err(MalformedFace);
    }
    var textureIndex := vertex[1] - 1;
    var normalIndex := vertex[2] - 1;
    if currentVertex.IsNotSet() {
      currentVertex.SetTextureIndex(textureIndex);
      currentVertex.SetNormalIndex(normalIndex);
      forall i | 0 <= i < |vertices| && i != index
        ensures vertices[i].Record() == table[i]
        ensures vertices[i].duplicateVertex == old(vertices[i].duplicateVertex)
      {
        assert vertices[i] != currentVertex;
      }
      assert Snapshot(vertices) == Resolve(table, Corner(index, textureIndex, normalIndex)).0;
      r := Ok((vertices, indices + [index]));
    } else {
      var indices', vertices' := ManageProcessedVertex(currentVertex, textureIndex, normalIndex, indices, vertices, norm);
      r := Ok((vertices', indices'));
    }
  }

  /** removeUnusedVertices: every vertex still unset gets the pair (0, 0). */
  method RemoveUnusedVertices(vertices: seq<Vertex>, ghost norm: Vector3 -> real)
    requires Valid(vertices, norm)
    modifies vertices
    ensures Valid(vertices, norm)
    ensures Snapshot(vertices) == RemoveUnused(old(Snapshot(vertices)))
  {
    ghost var table := Snapshot(vertices);
    for k := 0 to |vertices|
      invariant forall i :: 0 <= i < k ==> vertices[i].Record() == RemoveUnused(table)[i]
      invariant forall i :: k <= i < |vertices| ==> vertices[i].Record() == table[i]
      invariant forall i :: 0 <= i < |vertices| ==> vertices[i].duplicateVertex == old(vertices[i].duplicateVertex)
    {
      var vertex := vertices[k];
      if vertex.IsNotSet() {
        vertex.SetTextureIndex(0);
        vertex.SetNormalIndex(0);
      }
    }
    assert Snapshot(vertices) == RemoveUnused(table);
    RemoveUnusedKeepsLinks(table);
  }

  /** convertIndicesListToArray: the index list copied into a new array, in order. */
  method ConvertIndicesListToArray(indices: seq<int>) returns (indicesArray: array<int>)
    ensures fresh(indicesArray)
    ensures indicesArray[..] == indices
  {
    indicesArray := new int[|indices|];
    for i := 0 to indicesArray.Length
      invariant indicesArray[..i] == indices[..i]
    {
      indicesArray[i] := indices[i];
    }
  }

  /**
   * convertDataToArrays: one pass over the vertices that keeps the running
   * maximum of their lengths and writes each vertex's position, texture
   * coordinate (v flipped) and normal into the three arrays. A texture or normal
   * index outside its list stops the pass with an error, as the list lookup throws.
   */
  method ConvertDataToArrays(vertices: seq<Vertex>, textureCoordinates: seq<Vector2>, normals: seq<Vector3>,
                             verticesArray: array<real>, textureCoordinatesArray: array<real>, normalsArray: array<real>)
    returns (r: Result<real, LoadError>)
    requires verticesArray.Length == 3 * |vertices|
    requires textureCoordinatesArray.Length == 2 * |vertices|
    requires normalsArray.Length == 3 * |vertices|
    requires verticesArray != textureCoordinatesArray && verticesArray != normalsArray
    requires textureCoordinatesArray != normalsArray
    modifies verticesArray, textureCoordinatesArray, normalsArray
    ensures var table := Snapshot(vertices);
      r.Ok? <==> AttributesInRange(table, |textureCoordinates|, |normals|)
    ensures r.Err? ==> r.error == AttributeIndexOutOfRange
    ensures var table := Snapshot(vertices);
      r.Ok? ==>
        && AttributesInRange(table, |textureCoordinates|, |normals|)
        && r.value == Furthest(table)
        && verticesArray[..] == PositionArray(table)
        && textureCoordinatesArray[..] == TextureArray(table, textureCoordinates)
        && normalsArray[..] == NormalArray(table, normals)
  {
    ghost var table := Snapshot(vertices);
    var furthestPoint := 0.0;
    for i := 0 to |vertices|
      invariant furthestPoint == Furthest(table[..i])
      invariant Converted(table, textureCoordinates, normals, i,
                          verticesArray[..], textureCoordinatesArray[..], normalsArray[..])
    {
      var currentVertex := vertices[i];
      assert currentVertex.Record() == table[i];
      FurthestStep(table, i);
      if currentVertex.length > furthestPoint {
        furthestPoint := currentVertex.length;
      }
      var position := currentVertex.position;
      if !(0 <= currentVertex.textureIndex < |textureCoordinates|) || !(0 <= currentVertex.normalIndex < |normals|) {
        return Err(AttributeIndexOutOfRange);
      }
      var textureCoordinate := textureCoordinates[currentVertex.textureIndex];
      var normalVector := normals[currentVertex.normalIndex];
      ghost var positionsBefore := verticesArray[..];
      ghost var texturesBefore := textureCoordinatesArray[..];
      ghost var normalsBefore := normalsArray[..];
      WriteVertexSlots(i, position, textureCoordinate, normalVector, verticesArray, textureCoordinatesArray, normalsArray);
      ConvertedStep(table, textureCoordinates, normals, i, positionsBefore, texturesBefore, normalsBefore,
                    verticesArray[..], textureCoordinatesArray[..], normalsArray[..]);
    }
    assert table[..|vertices|] == table;
    assert verticesArray[..] == verticesArray[..3 * |vertices|];
    assert textureCoordinatesArray[..] == textureCoordinatesArray[..2 * |vertices|];
    assert normalsArray[..] == normalsArray[..3 * |vertices|];
    r := Ok(furthestPoint);
  }

  /** The eight stores of one iteration of convertDataToArrays: vertex i's slots in the three arrays. */
  method WriteVertexSlots(i: nat, position: Vector3, textureCoordinate: Vector2, normalVector: Vector3,
                          verticesArray: array<real>, textureCoordinatesArray: array<real>, normalsArray: array<real>)
    requires 3 * i + 2 < verticesArray.Length && 2 * i + 1 < textureCoordinatesArray.Length
    requires 3 * i + 2 < normalsArray.Length
    requires verticesArray != textureCoordinatesArray && verticesArray != normalsArray
    requires textureCoordinatesArray != normalsArray
    modifies verticesArray, textureCoordinatesArray, normalsArray
    ensures verticesArray[..] == old(verticesArray[..])[3 * i := position.x][3 * i + 1 := position.y][3 * i + 2 := position.z]
    ensures textureCoordinatesArray[..]
         == old(textureCoordinatesArray[..])[2 * i := textureCoordinate.x][2 * i + 1 := 1.0 - textureCoordinate.y]
    ensures normalsArray[..] == old(normalsArray[..])[3 * i := normalVector.x][3 * i + 1 := normalVector.y][3 * i + 2 := normalVector.z]
  {
    verticesArray[i * 3] := position.x;
    verticesArray[i * 3 + 1] := position.y;
    verticesArray[i * 3 + 2] := position.z;
    textureCoordinatesArray[i * 2] := textureCoordinate.x;
    textureCoordinatesArray[i * 2 + 1] := 1.0 - textureCoordinate.y;
    normalsArray[i * 3] := normalVector.x;
    normalsArray[i * 3 + 1] := normalVector.y;
    normalsArray[i * 3 + 2] := normalVector.z;
  }

  /**
   * After i vertices the pass has seen only in-range attribute indices and the
   * leading slots of the three arrays hold the first i vertices flattened.
   */
  ghost predicate Converted(table: Table, textures: seq<Vector2>, normals: seq<Vector3>, i: nat,
                            positionSlots: seq<real>, textureSlots: seq<real>, normalSlots: seq<real>)
  {
    && i <= |table|
    && |positionSlots| == 3 * |table| && |textureSlots| == 2 * |table| && |normalSlots| == 3 * |table|
    && AttributesInRange(table[..i], |textures|, |normals|)
    && positionSlots[..3 * i] == PositionArray(table[..i])
    && textureSlots[..2 * i] == TextureArray(table[..i], textures)
    && normalSlots[..3 * i] == NormalArray(table[..i], normals)
  }

  /** Writing vertex i's components into its slots extends the converted prefix by one vertex. */
  lemma {:induction false} ConvertedStep(table: Table, textures: seq<Vector2>, normals: seq<Vector3>, i: nat,
                                         positionSlots: seq<real>, textureSlots: seq<real>, normalSlots: seq<real>,
                                         positionSlots': seq<real>, textureSlots': seq<real>, normalSlots': seq<real>)
    requires Converted(table, textures, normals, i, positionSlots, textureSlots, normalSlots)
    requires i < |table|
    requires 0 <= table[i].textureIndex < |textures| && 0 <= table[i].normalIndex < |normals|
    requires var p := table[i].position;
      positionSlots' == positionSlots[3 * i := p.x][3 * i + 1 := p.y][3 * i + 2 := p.z]
    requires var uv := textures[table[i].textureIndex];
      textureSlots' == textureSlots[2 * i := uv.x][2 * i + 1 := 1.0 - uv.y]
    requires var n := normals[table[i].normalIndex];
      normalSlots' == normalSlots[3 * i := n.x][3 * i + 1 := n.y][3 * i + 2 := n.z]
    ensures Converted(table, textures, normals, i + 1, positionSlots', textureSlots', normalSlots')
  {
    assert table[..i + 1][..i] == table[..i];
    PositionArraySnoc(table, i);
    TextureArraySnoc(table, textures, i);
    NormalArraySnoc(table, normals, i);
    var p := table[i].position;
    assert positionSlots'[..3 * (i + 1)] == positionSlots[..3 * i] + [p.x, p.y, p.z];
    var uv := textures[table[i].textureIndex];
    assert textureSlots'[..2 * (i + 1)] == textureSlots[..2 * i] + [uv.x, 1.0 - uv.y];
    var n := normals[table[i].normalIndex];
    assert normalSlots'[..3 * (i + 1)] == normalSlots[..3 * i] + [n.x, n.y, n.z];
  }

  /**
   * The header loop of loadOBJ: "v ", "vt " and "vn " lines fill the vertex,
   * texture and normal lists, other lines are skipped, and the loop stops at the
   * first face line, whose position it returns.
   */
  method ReadHeader(lines: seq<ObjLine>, norm: Vector3 -> real)
    returns (vertices: seq<Vertex>, textureCoordinates: seq<Vector2>, normals: seq<Vector3>, first: nat)
    ensures first == FirstFace(lines)
    ensures Valid(vertices, norm) && forall k :: 0 <= k < |vertices| ==> fresh(vertices[k])
    ensures Snapshot(vertices) == Roots(Positions(lines[..first]), norm)
    ensures textureCoordinates == Textures(lines[..first]) && normals == Normals(lines[..first])
  {
    vertices, textureCoordinates, normals := [], [], [];
    first := 0;
    while first < |lines| && !lines[first].FaceLine?
      invariant first <= |lines|
      invariant forall k :: 0 <= k < first ==> !lines[k].FaceLine?
      invariant forall v :: v in vertices ==> fresh(v)
      invariant Snapshot(vertices) == Roots(Positions(lines[..first]), norm)
      invariant textureCoordinates == Textures(lines[..first]) && normals == Normals(lines[..first])
    {
      vertices, textureCoordinates, normals := ReadHeaderLine(lines, first, vertices, textureCoordinates, normals, norm);
      first := first + 1;
    }
    FirstFaceAt(lines, first);
    assert Valid(vertices, norm) by {
      RootsAreValid(vertices, Positions(lines[..first]), norm);
    }
    forall k | 0 <= k < |vertices|
      ensures fresh(vertices[k])
    {
      assert vertices[k] in vertices;
    }
  }

  /** One iteration of the header loop: a "v ", "vt " or "vn " line appends to its list; any other line is skipped. */
  method ReadHeaderLine(lines: seq<ObjLine>, first: nat, vertices: seq<Vertex>, textureCoordinates: seq<Vector2>,
                        normals: seq<Vector3>, norm: Vector3 -> real)
    returns (vertices': seq<Vertex>, textureCoordinates': seq<Vector2>, normals': seq<Vector3>)
    requires first < |lines| && !lines[first].FaceLine?
    requires Snapshot(vertices) == Roots(Positions(lines[..first]), norm)
    requires textureCoordinates == Textures(lines[..first]) && normals == Normals(lines[..first])
    ensures Extends(vertices, vertices')
    ensures forall v :: v in vertices' ==> v in vertices || fresh(v)
    ensures Snapshot(vertices') == Roots(Positions(lines[..first + 1]), norm)
    ensures textureCoordinates' == Textures(lines[..first + 1]) && normals' == Normals(lines[..first + 1])
  {
    HeaderStep(lines, first);
    vertices', textureCoordinates', normals' := vertices, textureCoordinates, normals;
    match lines[first] {
      case PositionLine(position) =>
        var newVertex := new Vertex(|vertices|, position, norm);
        RootsSnoc(Positions(lines[..first]), position, norm);
        vertices' := vertices + [newVertex];
        assert Snapshot(vertices') == Roots(Positions(lines[..first + 1]), norm);
      case TextureLine(coordinate) =>
        textureCoordinates' := textureCoordinates + [coordinate];
      case NormalLine(normal) =>
        normals' := normals + [normal];
      case _ =>
    }
  }

  /** A prefix of a prefix of a list is a prefix of that list. */
  lemma PrefixOfPrefix<T>(a: seq<T>, b: seq<T>, c: seq<T>)
    requires |a| <= |b| <= |c| && b[..|a|] == a && c[..|b|] == b
    ensures c[..|a|] == a
  {
    assert c[..|a|] == c[..|b|][..|a|];
  }

  /** A list whose records are fresh roots is valid: it has no duplicate references yet. */
  lemma RootsAreValid(vertices: seq<Vertex>, positions: seq<Vector3>, norm: Vector3 -> real)
    requires Snapshot(vertices) == Roots(positions, norm)
    ensures Valid(vertices, norm)
  {
    forall i | 0 <= i < |vertices|
      ensures vertices[i].index == i && vertices[i].length == norm(vertices[i].position)
      ensures vertices[i].duplicateVertex == null
    {
      assert vertices[i].Record() == Snapshot(vertices)[i];
    }
  }

  /**
   * One iteration of the face loop of loadOBJ: the line is split into its first
   * three descriptors (fewer than three fail), which are then processed in order.
   */
  method ProcessFaceLine(face: ObjLine, vertices: seq<Vertex>, indices: seq<int>, norm: Vector3 -> real, ghost s: Progress)
    returns (r: Result<(seq<Vertex>, seq<int>), LoadError>)
    requires face.FaceLine? && Working(vertices, indices, norm) && s == Progress(Snapshot(vertices), indices)
    modifies vertices
    ensures var spec := VertexTable.ProcessFace(s, face);
      && (r.Ok? <==> spec.Ok?)
      && (r.Err? ==> r.error == spec.error)
      && (r.Ok? ==> Valid(r.value.0, norm) && Progress(Snapshot(r.value.0), r.value.1) == spec.value)
    ensures r.Ok? ==> Extends(vertices, r.value.0)
  {
    var descriptors := face.descriptors;
    if |descriptors| < 3 {
      return Err(MalformedFace);
    }
    ghost var d3 := descriptors[..3];
    assert d3[..0] == [] && d3[..3] == d3;
    var current, emitted := vertices, indices;
    ghost var p := s;
    for k := 0 to 3
      invariant Working(current, emitted, norm) && p == Progress(Snapshot(current), emitted)
      invariant ProcessCorners(s, d3[..k]) == Ok(p)
      invariant |vertices| <= |current| && current[..|vertices|] == vertices
      invariant forall i :: |vertices| <= i < |current| ==> fresh(current[i])
    {
      forall i | 0 <= i < |current|
        ensures current[i] in vertices || fresh(current[i])
      {
        if i < |vertices| {
          assert current[i] == current[..|vertices|][i];
        }
      }
      ProcessCornersStep(s, d3, k);
      assert d3[k] == descriptors[k];
      var step := ProcessVertex(descriptors[k], current, emitted, norm, p);
      if step.Err? {
        CornersFailAt(s, d3, k, p);
        return Err(step.error);
      }
      ghost var next := step.value.0;
      PrefixOfPrefix(vertices, current, next);
      forall i | |vertices| <= i < |next|
        ensures fresh(next[i])
      {
        if i < |current| {
          assert next[i] == current[i];
        }
      }
      current, emitted := step.value.0, step.value.1;
      p := Progress(Snapshot(current), emitted);
    }
    r := Ok((current, emitted));
  }

  /**
   * The face loop of loadOBJ: the consecutive face lines from `first` on are
   * processed in order, and the loop ends at the first line that is not one.
   */
  method ReadFaces(lines: seq<ObjLine>, first: nat, vertices: seq<Vertex>, norm: Vector3 -> real)
    returns (r: Result<(seq<Vertex>, seq<int>), LoadError>)
    requires first <= |lines| && Valid(vertices, norm)
    modifies vertices
    ensures var spec := ProcessFaces(Progress(old(Snapshot(vertices)), []), lines[first..FaceRunEnd(lines, first)]);
      && (r.Ok? <==> spec.Ok?)
      && (r.Err? ==> r.error == spec.error)
      && (r.Ok? ==> Valid(r.value.0, norm) && Progress(Snapshot(r.value.0), r.value.1) == spec.value)
    ensures r.Ok? ==> Extends(vertices, r.value.0)
  {
    ghost var start := Progress(Snapshot(vertices), []);
    ghost var end := FaceRunEnd(lines, first);
    ghost var run := lines[first..end];
    assert Sound(start) && AllFaces(run);
    var current, indices, i := vertices, [], first;
    while i < |lines| && lines[i].FaceLine?
      invariant first <= i <= end
      invariant Valid(current, norm) && ProcessFaces(start, run[..i - first]) == Ok(Progress(Snapshot(current), indices))
      invariant |vertices| <= |current| && current[..|vertices|] == vertices
      invariant forall k :: |vertices| <= k < |current| ==> fresh(current[k])
    {
      forall k | 0 <= k < |current|
        ensures current[k] in vertices || fresh(current[k])
      {
        if k < |vertices| {
          assert current[k] == vertices[k];
        }
      }
      FaceRunContinues(lines, first, i);
      assert run[i - first] == lines[i];
      var result := ReadFaceLine(lines[i], current, indices, norm, start, run, i - first);
      if result.Err? {
        return Err(result.error);
      }
      var next := result.value.0;
      PrefixOfPrefix(vertices, current, next);
      forall k | |vertices| <= k < |next|
        ensures fresh(next[k])
      {
        if k < |current| {
          assert next[k] == current[k];
        }
      }
      current, indices := next, result.value.1;
      i := i + 1;
    }
    FaceRunStops(lines, first, i);
    assert run[..i - first] == run;
    r := Ok((current, indices));
  }

  /**
   * One iteration of the face loop, as a step of the run it belongs to: the face
   * `n` of `run`, processed after the faces before it.
   */
  method ReadFaceLine(face: ObjLine, vertices: seq<Vertex>, indices: seq<int>, norm: Vector3 -> real,
                      ghost start: Progress, ghost run: seq<ObjLine>, ghost n: nat)
    returns (r: Result<(seq<Vertex>, seq<int>), LoadError>)
    requires Sound(start) && AllFaces(run) && n < |run| && run[n] == face
    requires Valid(vertices, norm) && ProcessFaces(start, run[..n]) == Ok(Progress(Snapshot(vertices), indices))
    modifies vertices
    ensures r.Err? ==> ProcessFaces(start, run) == Err(r.error)
    ensures r.Ok? ==> Valid(r.value.0, norm)
    ensures r.Ok? ==> ProcessFaces(start, run[..n + 1]) == Ok(Progress(Snapshot(r.value.0), r.value.1))
    ensures r.Ok? ==> Extends(vertices, r.value.0)
  {
    ghost var p := Progress(Snapshot(vertices), indices);
    assert AllFaces(run[..n]);
    ProcessFacesSound(start, run[..n]);
    r := ProcessFaceLine(face, vertices, indices, norm, p);
    if r.Err? {
      FacesFailAt(start, run, n, p);
    } else {
      FacesAdvance(start, run, n, p, Progress(Snapshot(r.value.0), r.value.1));
    }
  }

  /**
   * loadOBJ on the classified lines of a file: the header loop, the face loop,
   * then the cleanup pass and the two conversions that produce the model data.
   */
  method LoadObj(lines: seq<ObjLine>, norm: Vector3 -> real) returns (r: Result<ModelData, LoadError>)
    ensures r == ObjFileSpec.LoadObj(lines, norm)
  {
    var vertices, textureCoordinates, normals, first := ReadHeader(lines, norm);
    if first == |lines| {
      return Err(NoFaceLine);
    }
    ghost var header := lines[..first];
    var faces := ReadFaces(lines, first, vertices, norm);
    if faces.Err? {
      return Err(faces.error);
    }
    var all, indices := faces.value.0, faces.value.1;
    forall k | 0 <= k < |all|
      ensures fresh(all[k])
    {
      if k < |vertices| {
        assert all[k] == all[..|vertices|][k];
      }
    }
    r := BuildModelData(all, indices, textureCoordinates, normals, norm);
  }

  /**
   * The end of loadOBJ: the cleanup pass, the three attribute arrays sized from
   * the vertex count, the index array, and the conversion pass.
   */
  method BuildModelData(vertices: seq<Vertex>, indices: seq<int>, textureCoordinates: seq<Vector2>,
                        normals: seq<Vector3>, ghost norm: Vector3 -> real)
    returns (r: Result<ModelData, LoadError>)
    requires Valid(vertices, norm)
    modifies vertices
    ensures r == Materialize(RemoveUnused(old(Snapshot(vertices))), textureCoordinates, normals, indices)
  {
    RemoveUnusedVertices(vertices, norm);
    var verticesArray := new real[|vertices| * 3];
    var textureCoordinatesArray := new real[|vertices| * 2];
    var normalsArray := new real[|vertices| * 3];
    var indicesArray := ConvertIndicesListToArray(indices);
    var furthest := ConvertDataToArrays(vertices, textureCoordinates, normals, verticesArray, textureCoordinatesArray, normalsArray);
    if furthest.Err? {
      return Err(furthest.error);
    }
    r := Ok(ModelData(verticesArray[..], textureCoordinatesArray[..], normalsArray[..], indicesArray[..], furthest.value));
  }
}
