/**
 * A terrain tile (src/terrains/Terrain.java): a flat square grid of
 * VERTEX_COUNT x VERTEX_COUNT vertices, SIZE units on a side, and the index
 * buffer that covers every grid cell with two triangles.
 *
 * The grid is filled row by row: vertex (i, j) -- row i, column j -- goes to slot
 * i * VERTEX_COUNT + j of the vertex, texture-coordinate and normal arrays. Float
 * division is modelled on reals.
 */
module Terrain {
  import opened Vectors

  const SIZE: real := 800.0
  const VERTEX_COUNT: nat := 128

  /** The number of grid vertices. */
  const COUNT: nat := VERTEX_COUNT * VERTEX_COUNT

  /** The number of grid cells along one side. */
  const CELLS: nat := VERTEX_COUNT - 1

  /** The generated mesh, as the four arrays handed to the GPU upload. */
  datatype TerrainMesh = TerrainMesh(vertices: seq<real>, textureCoordinates: seq<real>, normals: seq<real>, indices: seq<int>)

  /** A terrain tile: its world offset and its mesh; the texture is not part of this model. */
  datatype Terrain = Terrain(x: real, z: real, mesh: TerrainMesh)

  // ---------------------------------------------------------------------------
  // The vertex grid

  /** The position of grid vertex (i, j): x and z go from 0 to -SIZE, y is 0. */
  function GridPosition(i: nat, j: nat): Vector3
  {
    Vector3(-(j as real) / (CELLS as real) * SIZE, 0.0, -(i as real) / (CELLS as real) * SIZE)
  }

  /** The texture coordinate of grid vertex (i, j): from 0 to 1 along each side. */
  function GridTexture(i: nat, j: nat): Vector2
  {
    Vector2((j as real) / (CELLS as real), (i as real) / (CELLS as real))
  }

  /** The row and column of grid slot p. */
  function Row(p: nat): nat { p / VERTEX_COUNT }

  function Column(p: nat): nat { p % VERTEX_COUNT }

  /** Slot i * VERTEX_COUNT + j is grid vertex (i, j). */
  lemma {:induction false} GridSlot(i: nat, j: nat)
    requires j < VERTEX_COUNT
    ensures Row(i * VERTEX_COUNT + j) == i && Column(i * VERTEX_COUNT + j) == j
  {
  }

  /** Value k of the vertex array: component k % 3 of the position of the vertex in slot k / 3. */
  function VertexValue(k: nat): real
  {
    Coordinate(GridPosition(Row(k / 3), Column(k / 3)), k % 3)
  }

  /** Value k of the texture-coordinate array. */
  function TextureValue(k: nat): real
  {
    var uv := GridTexture(Row(k / 2), Column(k / 2));
    if k % 2 == 0 then uv.x else uv.y
  }

  /**
   * The vertex array the fill loop leaves: each position holds the position of
   * its grid vertex, and every height (the y slot) is 0.
   */
  lemma {:induction false} VertexSlots(i: nat, j: nat)
    requires i < VERTEX_COUNT && j < VERTEX_COUNT
    ensures var p := i * VERTEX_COUNT + j;
      && p < COUNT
      && VertexValue(3 * p) == GridPosition(i, j).x
      && VertexValue(3 * p + 1) == 0.0
      && VertexValue(3 * p + 2) == GridPosition(i, j).z
      && TextureValue(2 * p) == GridTexture(i, j).x
      && TextureValue(2 * p + 1) == GridTexture(i, j).y
  {
    var p := i * VERTEX_COUNT + j;
    GridSlot(i, j);
    Stride3(p, 0);
    Stride3(p, 1);
    Stride3(p, 2);
    Stride2(p, 0);
    Stride2(p, 1);
  }

  /**
   * The vertex loop of generateTerrain: rows, then columns, one vertex per slot,
   * with vertexPointer counting the slots written. The normal stores write 0 to
   * slot 3p, 1 and then 0 to slot 3p + 1, and leave slot 3p + 2 as allocated.
   */
  method FillGrid(vertices: array<real>, textureCoordinates: array<real>, normals: array<real>)
    returns (vertexPointer: nat)
    requires vertices.Length == 3 * COUNT && textureCoordinates.Length == 2 * COUNT && normals.Length == 3 * COUNT
    requires vertices != textureCoordinates && vertices != normals && textureCoordinates != normals
    modifies vertices, textureCoordinates, normals
    ensures vertexPointer == COUNT
    ensures forall k :: 0 <= k < 3 * COUNT ==> vertices[k] == VertexValue(k)
    ensures forall k :: 0 <= k < 2 * COUNT ==> textureCoordinates[k] == TextureValue(k)
    ensures forall p :: 0 <= p < COUNT ==> normals[3 * p] == 0.0 && normals[3 * p + 1] == 0.0
    ensures forall p :: 0 <= p < COUNT ==> normals[3 * p + 2] == old(normals[3 * p + 2])
  {
    vertexPointer := 0;
    for i := 0 to VERTEX_COUNT
      invariant vertexPointer == i * VERTEX_COUNT
      invariant Filled(vertices, textureCoordinates, normals, vertexPointer)
      invariant forall p :: 0 <= p < COUNT ==> normals[3 * p + 2] == old(normals[3 * p + 2])
    {
      for j := 0 to VERTEX_COUNT
        invariant vertexPointer == i * VERTEX_COUNT + j
        invariant Filled(vertices, textureCoordinates, normals, vertexPointer)
        invariant forall p :: 0 <= p < COUNT ==> normals[3 * p + 2] == old(normals[3 * p + 2])
      {
        WriteGridVertex(vertices, textureCoordinates, normals, vertexPointer, i, j);
        vertexPointer := vertexPointer + 1;
      }
    }
  }

  /** The first `n` grid slots of the three arrays are written. */
  ghost predicate Filled(vertices: array<real>, textureCoordinates: array<real>, normals: array<real>, n: nat)
    reads vertices, textureCoordinates, normals
  {
    && n <= COUNT
    && vertices.Length == 3 * COUNT && textureCoordinates.Length == 2 * COUNT && normals.Length == 3 * COUNT
    && PositionsFilled(vertices, n) && TexturesFilled(textureCoordinates, n) && NormalsFilled(normals, n)
  }

  ghost predicate PositionsFilled(vertices: array<real>, n: nat)
    reads vertices
  {
    forall k :: 0 <= k < 3 * n && k < vertices.Length ==> vertices[k] == VertexValue(k)
  }

  ghost predicate TexturesFilled(textureCoordinates: array<real>, n: nat)
    reads textureCoordinates
  {
    forall k :: 0 <= k < 2 * n && k < textureCoordinates.Length ==> textureCoordinates[k] == TextureValue(k)
  }

  ghost predicate NormalsFilled(normals: array<real>, n: nat)
    reads normals
  {
    forall p :: 0 <= p < n && 3 * p + 1 < normals.Length ==> normals[3 * p] == 0.0 && normals[3 * p + 1] == 0.0
  }

  /**
   * The body of the vertex loop for grid vertex (i, j) in slot p: the three
   * position stores, the two texture stores and the three normal stores.
   */
  method WriteGridVertex(vertices: array<real>, textureCoordinates: array<real>, normals: array<real>,
                         p: nat, i: nat, j: nat)
    requires p == i * VERTEX_COUNT + j && i < VERTEX_COUNT && j < VERTEX_COUNT
    requires vertices != textureCoordinates && vertices != normals && textureCoordinates != normals
    requires Filled(vertices, textureCoordinates, normals, p)
    modifies vertices, textureCoordinates, normals
    ensures Filled(vertices, textureCoordinates, normals, p + 1)
    ensures forall q :: 0 <= q < COUNT ==> normals[3 * q + 2] == old(normals[3 * q + 2])
  {
    VertexSlots(i, j);
    WritePosition(vertices, p, i, j);
    WriteTexture(textureCoordinates, p, i, j);
    WriteNormal(normals, p);
  }

  method WritePosition(vertices: array<real>, p: nat, i: nat, j: nat)
    requires p == i * VERTEX_COUNT + j && i < VERTEX_COUNT && j < VERTEX_COUNT
    requires vertices.Length == 3 * COUNT && PositionsFilled(vertices, p)
    requires VertexValue(3 * p) == GridPosition(i, j).x && VertexValue(3 * p + 1) == 0.0
    requires VertexValue(3 * p + 2) == GridPosition(i, j).z
    modifies vertices
    ensures PositionsFilled(vertices, p + 1)
  {
    vertices[p * 3] := -(j as real) / (CELLS as real) * SIZE;
    vertices[p * 3 + 1] := 0.0;
    vertices[p * 3 + 2] := -(i as real) / (CELLS as real) * SIZE;
  }

  method WriteTexture(textureCoordinates: array<real>, p: nat, i: nat, j: nat)
    requires p == i * VERTEX_COUNT + j && i < VERTEX_COUNT && j < VERTEX_COUNT
    requires textureCoordinates.Length == 2 * COUNT && TexturesFilled(textureCoordinates, p)
    requires TextureValue(2 * p) == GridTexture(i, j).x && TextureValue(2 * p + 1) == GridTexture(i, j).y
    modifies textureCoordinates
    ensures TexturesFilled(textureCoordinates, p + 1)
  {
    textureCoordinates[p * 2] := (j as real) / (CELLS as real);
    textureCoordinates[p * 2 + 1] := (i as real) / (CELLS as real);
  }

  /** The normal stores: 0 to slot 3p, then 1 and 0 to slot 3p + 1; slot 3p + 2 is not written. */
  method WriteNormal(normals: array<real>, p: nat)
    requires p < COUNT && normals.Length == 3 * COUNT && NormalsFilled(normals, p)
    modifies normals
    ensures NormalsFilled(normals, p + 1)
    ensures normals[..] == old(normals[..])[3 * p := 0.0][3 * p + 1 := 0.0]
  {
    normals[p * 3] := 0.0;
    normals[p * 3 + 1] := 1.0;
    normals[p * 3 + 1] := 0.0;
  }

  /**
   * As written, the normal stores leave every normal float at 0: the second store
   * to slot 3p + 1 overwrites the 1, so no grid normal is the up vector.
   */
  lemma {:induction false} FlatNormalsAreNotUp(normals: seq<real>)
    requires |normals| == 3 * COUNT
    requires forall k :: 0 <= k < 3 * COUNT ==> normals[k] == 0.0
    ensures forall p :: 0 <= p < COUNT ==> normals[3 * p + 1] != UpNormalValue(3 * p + 1)
  {
    forall p | 0 <= p < COUNT
      ensures normals[3 * p + 1] != UpNormalValue(3 * p + 1)
    {
      Stride3(p, 1);
    }
  }

  // ---------------------------------------------------------------------------
  // The vertex loop with the normal store it evidently intends (0, 1, 0)

  /** Value k of the intended normal array: every grid normal is the up vector (0, 1, 0). */
  function UpNormalValue(k: nat): real
  {
    if k % 3 == 1 then 1.0 else 0.0
  }

  ghost predicate UpNormalsFilled(normals: array<real>, n: nat)
    reads normals
  {
    forall k :: 0 <= k < 3 * n && k < normals.Length ==> normals[k] == UpNormalValue(k)
  }

  /** The corrected normal stores: 0, 1 and 0 into slots 3p, 3p + 1 and 3p + 2. */
  method WriteUpNormal(normals: array<real>, p: nat)
    requires p < COUNT && normals.Length == 3 * COUNT && UpNormalsFilled(normals, p)
    modifies normals
    ensures UpNormalsFilled(normals, p + 1)
    ensures normals[..] == old(normals[..])[3 * p := 0.0][3 * p + 1 := 1.0][3 * p + 2 := 0.0]
  {
    normals[p * 3] := 0.0;
    normals[p * 3 + 1] := 1.0;
    normals[p * 3 + 2] := 0.0;
    Stride3(p, 0);
    Stride3(p, 1);
    Stride3(p, 2);
  }

  /** The loop body with the corrected normal stores. */
  method WriteGridVertexUp(vertices: array<real>, textureCoordinates: array<real>, normals: array<real>,
                           p: nat, i: nat, j: nat)
    requires p == i * VERTEX_COUNT + j && i < VERTEX_COUNT && j < VERTEX_COUNT
    requires vertices != textureCoordinates && vertices != normals && textureCoordinates != normals
    requires vertices.Length == 3 * COUNT && textureCoordinates.Length == 2 * COUNT && normals.Length == 3 * COUNT
    requires PositionsFilled(vertices, p) && TexturesFilled(textureCoordinates, p) && UpNormalsFilled(normals, p)
    modifies vertices, textureCoordinates, normals
    ensures PositionsFilled(vertices, p + 1) && TexturesFilled(textureCoordinates, p + 1)
    ensures UpNormalsFilled(normals, p + 1)
  {
    VertexSlots(i, j);
    WritePosition(vertices, p, i, j);
    WriteTexture(textureCoordinates, p, i, j);
    WriteUpNormal(normals, p);
  }

  /** The vertex loop with the corrected normal stores: every grid normal is (0, 1, 0). */
  method FillGridUp(vertices: array<real>, textureCoordinates: array<real>, normals: array<real>)
    returns (vertexPointer: nat)
    requires vertices.Length == 3 * COUNT && textureCoordinates.Length == 2 * COUNT && normals.Length == 3 * COUNT
    requires vertices != textureCoordinates && vertices != normals && textureCoordinates != normals
    modifies vertices, textureCoordinates, normals
    ensures vertexPointer == COUNT
    ensures forall k :: 0 <= k < 3 * COUNT ==> vertices[k] == VertexValue(k)
    ensures forall k :: 0 <= k < 2 * COUNT ==> textureCoordinates[k] == TextureValue(k)
    ensures forall k :: 0 <= k < 3 * COUNT ==> normals[k] == UpNormalValue(k)
  {
    vertexPointer := 0;
    for i := 0 to VERTEX_COUNT
      invariant vertexPointer == i * VERTEX_COUNT
      invariant PositionsFilled(vertices, vertexPointer) && TexturesFilled(textureCoordinates, vertexPointer)
      invariant UpNormalsFilled(normals, vertexPointer)
    {
      for j := 0 to VERTEX_COUNT
        invariant vertexPointer == i * VERTEX_COUNT + j
        invariant PositionsFilled(vertices, vertexPointer) && TexturesFilled(textureCoordinates, vertexPointer)
        invariant UpNormalsFilled(normals, vertexPointer)
      {
        WriteGridVertexUp(vertices, textureCoordinates, normals, vertexPointer, i, j);
        vertexPointer := vertexPointer + 1;
      }
    }
  }

  // ---------------------------------------------------------------------------
  // The index buffer

  /**
   * The six indices of grid cell (groundZ, groundX): the triangles (top left,
   * bottom left, top right) and (top right, bottom left, bottom right).
   */
  function CellIndices(groundZ: nat, groundX: nat): (cell: seq<int>)
    ensures |cell| == 6
  {
    var topLeft := groundZ * VERTEX_COUNT + groundX;
    var topRight := topLeft + 1;
    var bottomLeft := (groundZ + 1) * VERTEX_COUNT + groundX;
    var bottomRight := bottomLeft + 1;
    [topLeft, bottomLeft, topRight, topRight, bottomLeft, bottomRight]
  }

  /**
   * The corners of a cell: top right is right of top left, the bottom row is one
   * grid row further, and every index names a grid vertex.
   */
  lemma {:induction false} CellCorners(groundZ: nat, groundX: nat)
    requires groundZ < CELLS && groundX < CELLS
    ensures var cell := CellIndices(groundZ, groundX);
      && cell[0] == groundZ * VERTEX_COUNT + groundX
      && cell[2] == cell[0] + 1 && cell[1] == cell[0] + VERTEX_COUNT && cell[5] == cell[1] + 1
      && cell[3] == cell[2] && cell[4] == cell[1]
      && forall c :: 0 <= c < 6 ==> 0 <= cell[c] < COUNT
  {
    assert (groundZ + 1) * VERTEX_COUNT + groundX + 1 <= CELLS * VERTEX_COUNT + CELLS;
  }

  /** Value k of the index array: corner k % 6 of cell k / 6, cells row by row. */
  function IndexValue(k: nat): int
  {
    var cell := k / 6;
    CellIndices(cell / CELLS, cell % CELLS)[k % 6]
  }

  /** Slots 6q .. 6q + 5 of the index array, with q = groundZ * CELLS + groundX, hold cell (groundZ, groundX). */
  lemma {:induction false} IndexSlots(groundZ: nat, groundX: nat, c: nat)
    requires groundX < CELLS && c < 6
    ensures IndexValue(6 * (groundZ * CELLS + groundX) + c) == CellIndices(groundZ, groundX)[c]
  {
    var q := groundZ * CELLS + groundX;
    assert (6 * q + c) / 6 == q && (6 * q + c) % 6 == c;
    assert q / CELLS == groundZ && q % CELLS == groundX;
  }

  /**
   * The index loop of generateTerrain: cells row by row, six indices each, with
   * `pointer` counting the indices written; it ends at the array's length.
   */
  method FillIndices(indices: array<int>) returns (pointer: nat)
    requires indices.Length == CELLS * CELLS * 6
    modifies indices
    ensures pointer == indices.Length
    ensures forall k :: 0 <= k < indices.Length ==> indices[k] == IndexValue(k)
  {
    pointer := 0;
    for groundZ := 0 to CELLS
      invariant pointer == 6 * (groundZ * CELLS)
      invariant forall k :: 0 <= k < pointer ==> indices[k] == IndexValue(k)
    {
      for groundX := 0 to CELLS
        invariant pointer == 6 * (groundZ * CELLS + groundX)
        invariant forall k :: 0 <= k < pointer ==> indices[k] == IndexValue(k)
      {
        assert pointer + 6 <= indices.Length by {
          assert groundZ * CELLS + groundX + 1 <= CELLS * CELLS;
        }
        WriteCell(indices, pointer, groundZ, groundX);
        forall k | 0 <= k < pointer
          ensures indices[k] == IndexValue(k)
        {
          assert indices[k] == indices[..pointer][k];
        }
        IndicesStep(indices[..], pointer, groundZ, groundX);
        pointer := pointer + 6;
      }
    }
  }

  /** The body of the index loop: the six stores of cell (groundZ, groundX) from slot `pointer` on. */
  method WriteCell(indices: array<int>, pointer: nat, groundZ: nat, groundX: nat)
    requires pointer + 6 <= indices.Length
    modifies indices
    ensures indices[..pointer] == old(indices[..pointer])
    ensures indices[pointer..pointer + 6] == CellIndices(groundZ, groundX)
  {
    var topLeft := (groundZ * VERTEX_COUNT) + groundX;
    var topRight := topLeft + 1;
    var bottomLeft := ((groundZ + 1) * VERTEX_COUNT) + groundX;
    var bottomRight := bottomLeft + 1;
    var p := pointer;
    indices[p] := topLeft;
    p := p + 1;
    indices[p] := bottomLeft;
    p := p + 1;
    indices[p] := topRight;
    p := p + 1;
    indices[p] := topRight;
    p := p + 1;
    indices[p] := bottomLeft;
    p := p + 1;
    indices[p] := bottomRight;
  }

  /** Appending cell (groundZ, groundX) after the cells before it extends the index array's prefix. */
  lemma {:induction false} IndicesStep(written: seq<int>, pointer: nat, groundZ: nat, groundX: nat)
    requires groundX < CELLS && pointer == 6 * (groundZ * CELLS + groundX) && pointer + 6 <= |written|
    requires forall k :: 0 <= k < pointer ==> written[k] == IndexValue(k)
    requires written[pointer..pointer + 6] == CellIndices(groundZ, groundX)
    ensures forall k :: 0 <= k < pointer + 6 ==> written[k] == IndexValue(k)
  {
    forall k | pointer <= k < pointer + 6
      ensures written[k] == IndexValue(k)
    {
      IndexSlots(groundZ, groundX, k - pointer);
      assert written[k] == written[pointer..pointer + 6][k - pointer];
    }
  }

  // ---------------------------------------------------------------------------
  // The whole tile

  /**
   * generateTerrain without the upload: the arrays are allocated zero-filled and
   * sized for the grid, then filled by the vertex loop and the index loop.
   */
  method GenerateTerrain() returns (mesh: TerrainMesh)
    ensures |mesh.vertices| == 3 * COUNT && |mesh.textureCoordinates| == 2 * COUNT
    ensures |mesh.normals| == 3 * COUNT && |mesh.indices| == CELLS * CELLS * 6
    ensures forall k :: 0 <= k < 3 * COUNT ==> mesh.vertices[k] == VertexValue(k)
    ensures forall k :: 0 <= k < 2 * COUNT ==> mesh.textureCoordinates[k] == TextureValue(k)
    ensures forall k :: 0 <= k < 3 * COUNT ==> mesh.normals[k] == 0.0
    ensures forall p :: 0 <= p < COUNT ==> mesh.normals[3 * p + 1] != UpNormalValue(3 * p + 1)
    ensures forall k :: 0 <= k < |mesh.indices| ==> mesh.indices[k] == IndexValue(k)
  {
    var count := VERTEX_COUNT * VERTEX_COUNT;
    var vertices := new real[count * 3](_ => 0.0);
    var textureCoordinates := new real[count * 2](_ => 0.0);
    var normals := new real[count * 3](_ => 0.0);
    var indices := new int[(VERTEX_COUNT - 1) * (VERTEX_COUNT - 1) * 6];
    var vertexPointer := FillGrid(vertices, textureCoordinates, normals);
    var pointer := FillIndices(indices);
    forall k | 0 <= k < 3 * COUNT
      ensures normals[k] == 0.0
    {
      Stride3(k / 3, k % 3);
    }
    mesh := TerrainMesh(vertices[..], textureCoordinates[..], normals[..], indices[..]);
    FlatNormalsAreNotUp(mesh.normals);
  }

  /**
   * generateTerrain with the corrected normal store: the same mesh as
   * GenerateTerrain except that every grid normal is the up vector (0, 1, 0).
   */
  method GenerateUpTerrain() returns (mesh: TerrainMesh)
    ensures |mesh.vertices| == 3 * COUNT && |mesh.textureCoordinates| == 2 * COUNT
    ensures |mesh.normals| == 3 * COUNT && |mesh.indices| == CELLS * CELLS * 6
    ensures forall k :: 0 <= k < 3 * COUNT ==> mesh.vertices[k] == VertexValue(k)
    ensures forall k :: 0 <= k < 2 * COUNT ==> mesh.textureCoordinates[k] == TextureValue(k)
    ensures forall p :: 0 <= p < COUNT ==>
      mesh.normals[3 * p] == 0.0 && mesh.normals[3 * p + 1] == 1.0 && mesh.normals[3 * p + 2] == 0.0
    ensures forall k :: 0 <= k < |mesh.indices| ==> mesh.indices[k] == IndexValue(k)
  {
    var count := VERTEX_COUNT * VERTEX_COUNT;
    var vertices := new real[count * 3](_ => 0.0);
    var textureCoordinates := new real[count * 2](_ => 0.0);
    var normals := new real[count * 3](_ => 0.0);
    var indices := new int[(VERTEX_COUNT - 1) * (VERTEX_COUNT - 1) * 6];
    var vertexPointer := FillGridUp(vertices, textureCoordinates, normals);
    var pointer := FillIndices(indices);
    forall p | 0 <= p < COUNT
      ensures normals[3 * p] == 0.0 && normals[3 * p + 1] == 1.0 && normals[3 * p + 2] == 0.0
    {
      Stride3(p, 0);
      Stride3(p, 1);
      Stride3(p, 2);
    }
    mesh := TerrainMesh(vertices[..], textureCoordinates[..], normals[..], indices[..]);
  }

  /**
   * The Terrain constructor: the tile's offset is its grid coordinates times SIZE,
   * and its mesh is the generated grid, with the normals as generateTerrain
   * writes them (all 0).
   */
  method NewTerrain(gridX: int, gridZ: int) returns (t: Terrain)
    ensures t.x == gridX as real * SIZE && t.z == gridZ as real * SIZE
    ensures |t.mesh.vertices| == 3 * COUNT && |t.mesh.textureCoordinates| == 2 * COUNT
    ensures |t.mesh.normals| == 3 * COUNT && |t.mesh.indices| == CELLS * CELLS * 6
    ensures forall k :: 0 <= k < 3 * COUNT ==> t.mesh.vertices[k] == VertexValue(k)
    ensures forall k :: 0 <= k < 2 * COUNT ==> t.mesh.textureCoordinates[k] == TextureValue(k)
    ensures forall k :: 0 <= k < 3 * COUNT ==> t.mesh.normals[k] == 0.0
    ensures forall k :: 0 <= k < |t.mesh.indices| ==> t.mesh.indices[k] == IndexValue(k)
  {
    var mesh := GenerateTerrain();
    t := Terrain(gridX as real * SIZE, gridZ as real * SIZE, mesh);
  }

  /** Every index of the buffer names a grid vertex. */
  lemma {:induction false} IndicesInGrid(k: nat)
    requires k < CELLS * CELLS * 6
    ensures 0 <= IndexValue(k) < COUNT
  {
    var cell := k / 6;
    assert cell < CELLS * CELLS;
    CellCorners(cell / CELLS, cell % CELLS);
  }
}
