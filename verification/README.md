# Maple engine core in Dafny

A Dafny model of the geometry core of the Maple game engine (Java, LWJGL):

- **the indexed OBJ loader** (`OBJConverter/OBJFileLoader.java` with `Vertex.java`). Each `v ` line
  becomes a root vertex. Every `f ` corner `p/t/n` is resolved against the vertex list: an unset
  vertex takes the (texture, normal) pair, a set vertex with the same pair is reused, and otherwise
  the loader walks the vertex's duplicate chain. At the end of that chain it appends a new vertex
  that shares the position. Afterwards unused vertices get the pair (0, 0), and everything is
  flattened into float arrays together with the largest vertex length;
- **the simple OBJ loader** (`renderEngine/OBJLoader.java`). It does no splitting: every corner
  emits its position index, and its texture coordinate (v flipped to 1 - v) and normal are written
  into the slots of that position, so the last corner to name a position wins;
- **terrain generation** (`terrains/Terrain.java`). A flat 128 x 128 grid of vertices over an
  800-unit square, with two triangles per grid cell (as written, every normal is zero; see Findings);
- **render batching** (`renderEngine/MasterRenderer.java`). Entities are grouped per textured model,
  terrains are queued, and both queues are emptied once a frame is rendered.

The imperative code is modelled imperatively. `Vertex` is a class whose setters change its fields
(`vertex.dfy`). The loaders' loops are methods over `seq` lists and `array` buffers, and every such
method is proved against a value-level specification:

- `vertex_table.dfy` models the vertex list as a table of records linked by duplicate indices;
- `obj_file_spec.dfy` and `obj_loader.dfy` hold the whole-file functions.

The properties of the loaders are lemmas about those specifications. They cover:

- error behaviour;
- index placement;
- deduplication (two corners share an index exactly when they are the same triple);
- chain invariants;
- the last write winning;
- independence from lines after the faces.

The terrain loops are proved against per-slot functions. The renderer's batch map is proved to be
the grouping of the entities submitted since the last frame.

A file is given as a sequence of already classified lines (`ObjLine`: a position, a texture
coordinate, a normal, a face with its integer descriptors, or any other line). A Java exception
that ends a load becomes an `Err(LoadError)` result:

- a missing face line;
- a descriptor with too few fields;
- a position index outside the vertex list;
- an attribute index outside its list.

`OBJFileLoader` also accepts two kinds of malformed corner without an error:

- a position index above the number of "v " lines that names a split vertex;
- a texture or normal index 0, which becomes the NO_INDEX sentinel.

The loader functions reproduce both cases. The whole-file theorems require every index to name a
line before the faces, so they do not cover them.

Where the two OBJ loaders differ, the model follows each one's own code:

- The face loop of `OBJFileLoader` stops at the first line that is not a face line. The lines
  after that line are never read (`ObjFileSpec.TrailingLinesIgnored`).
- `OBJLoader` skips such lines and keeps reading faces.

## Model

| member | source | states |
|---|---|---|
| ObjVertex.Vertex.constructor | src/OBJConverter/Vertex.java:9-29 | index, position and length are set from the arguments; length is the norm of the position; both indices start at NO_INDEX (-1) and the duplicate link is null, so the vertex is unset |
| ObjVertex.AssignedPairIsSet | src/OBJConverter/Vertex.java:36-38 | after both indices are assigned, the vertex is set if and only if neither value is the sentinel -1 |
| ObjVertex.Vertex.IsNotSet | src/OBJConverter/Vertex.java:36-38 | holds exactly when the texture index or the normal index still holds NO_INDEX (-1) |
| ObjVertex.Vertex.HasSameTextureAndNormal | src/OBJConverter/Vertex.java:47-49 | holds exactly when the stored texture index equals the queried texture index and the stored normal index equals the queried normal index |
| ObjVertex.AssignedPairMatches | src/OBJConverter/Vertex.java:47-49 | once a pair is assigned, the vertex matches a (texture, normal) query exactly when the query is that pair |
| ObjVertex.Vertex.SetTextureIndex | src/OBJConverter/Vertex.java:67-69 | the vertex's record changes in its texture index only |
| ObjVertex.Vertex.SetNormalIndex | src/OBJConverter/Vertex.java:75-77 | the vertex's record changes in its normal index only |
| ObjVertex.Vertex.SetDuplicateVertex | src/OBJConverter/Vertex.java:83-85 | only the duplicate link changes, and it now names the given vertex |
| VertexTable.Roots | src/OBJConverter/OBJFileLoader.java:49-59 | the "v " lines give one unset, unlinked vertex per position, numbered in file order, with the norm as length |
| VertexTable.RootsSnoc | src/OBJConverter/OBJFileLoader.java:58-59 | one more "v " line appends one root whose index is the table length before the append |
| VertexTable.Split | src/OBJConverter/OBJFileLoader.java:240-246 | the table grows by one entry, and the emitted index is the old table length |
| VertexTable.SplitSound | src/OBJConverter/OBJFileLoader.java:240-246 | splitting at the tail of a chain keeps the links well formed, changes no existing entry's identity, and the new entry has the requested pair |
| VertexTable.SplitChains | src/OBJConverter/OBJFileLoader.java:244-245 | after a split, the chain through the old tail gains exactly the new entry; every other chain is unchanged |
| VertexTable.Walk | src/OBJConverter/OBJFileLoader.java:224-249 | the chain walk never shrinks the table |
| VertexTable.WalkSound | src/OBJConverter/OBJFileLoader.java:224-249 | the emitted entry carries the requested pair; the table is either unchanged or grows by exactly one entry, whose index is emitted |
| VertexTable.WalkFinds | src/OBJConverter/OBJFileLoader.java:228-237 | if an entry on the chain has the pair, the walk changes nothing and emits an entry of that chain |
| VertexTable.WalkSplits | src/OBJConverter/OBJFileLoader.java:232-247 | if no entry on the chain has the pair, the walk splits at the chain's tail |
| VertexTable.ChainSharesPosition | src/OBJConverter/OBJFileLoader.java:240 | every entry on a chain has the position of the entry the chain starts from |
| VertexTable.Resolve | src/OBJConverter/OBJFileLoader.java:150-157 | resolving a corner never shrinks the table |
| VertexTable.ResolveSound | src/OBJConverter/OBJFileLoader.java:150-157 | resolving keeps the table well linked; the emitted entry has the corner's pair; the table grows by at most one entry |
| VertexTable.ProcessVertex | src/OBJConverter/OBJFileLoader.java:143-159 | a descriptor succeeds exactly when it has three fields and its position names an existing vertex; otherwise it fails with VertexIndexOutOfRange (bad position) or MalformedFace (missing field) |
| VertexTable.ProcessVertexSound | src/OBJConverter/OBJFileLoader.java:143-159 | a successful descriptor appends exactly one index and only grows the table |
| VertexTable.ProcessCornersSound | src/OBJConverter/OBJFileLoader.java:95-97 | the descriptors of a face, processed in order, append one index each after the earlier ones |
| VertexTable.ProcessFace | src/OBJConverter/OBJFileLoader.java:89-97 | a face line succeeds only if it has at least three descriptors |
| VertexTable.ProcessFaceSound | src/OBJConverter/OBJFileLoader.java:89-97 | a successful face line appends exactly three indices |
| VertexTable.ProcessFacesSound | src/OBJConverter/OBJFileLoader.java:88-100 | a successful run of face lines appends 3 x faces indices, keeps the earlier ones, and only grows the table |
| VertexTable.ProcessFacesStopsAtFailure | src/OBJConverter/OBJFileLoader.java:88-100 | the first failing face decides the result of the whole run |
| VertexTable.ProcessCornersStopsAtFailure | src/OBJConverter/OBJFileLoader.java:95-97 | within a face, the first failing descriptor decides the result; later descriptors are never processed |
| VertexTable.ExtraDescriptorsIgnored | src/OBJConverter/OBJFileLoader.java:91-97 | a face line with more than three descriptors is processed as its first three |
| VertexTable.RemoveUnused | src/OBJConverter/OBJFileLoader.java:256-263 | same length and order; every unset entry becomes pair (0, 0); set entries are unchanged; no entry is left unset |
| VertexTable.RemoveUnusedKeepsLinks | src/OBJConverter/OBJFileLoader.java:256-263 | the cleanup pass keeps the table well linked |
| VertexTable.ResolveAll | src/OBJConverter/OBJFileLoader.java:95-97 | resolving a corner stream emits one index per corner and never shrinks the table |
| VertexTable.ResolveAllSound | src/OBJConverter/OBJFileLoader.java:95-97 | resolving a corner stream keeps the state sound: the table is well linked and every emitted index names an entry |
| VertexTable.ConsistentInitially | src/OBJConverter/OBJFileLoader.java:40-59 | the fresh roots with no corners satisfy the table invariant |
| VertexTable.StepUnset | src/OBJConverter/OBJFileLoader.java:150-154 | an unset root takes the pair and emits its own index; the table invariant is kept |
| VertexTable.StepFound | src/OBJConverter/OBJFileLoader.java:228-229 | if the pair is already on the chain, only the index list changes; the invariant is kept |
| VertexTable.StepSplit | src/OBJConverter/OBJFileLoader.java:239-247 | if the pair is not on the chain, the chain grows by one entry; the invariant is kept |
| VertexTable.SplitKeepsPairsDistinct | src/OBJConverter/OBJFileLoader.java:232-247 | no chain ever holds the same (texture, normal) pair twice |
| VertexTable.SplitKeepsDisjoint | src/OBJConverter/OBJFileLoader.java:240-245 | the chains of two different roots never meet |
| VertexTable.SplitKeepsPositions | src/OBJConverter/OBJFileLoader.java:240 | after a split, every entry on a root's chain still has that root's position |
| VertexTable.TailIsSet | src/OBJConverter/OBJFileLoader.java:232-239 | the walk reaches the end of a chain only through set vertices, so the tail it splits at is set |
| VertexTable.ResolveStep | src/OBJConverter/OBJFileLoader.java:143-159 | resolving a valid corner keeps the table invariant |
| VertexTable.ResolveAllConsistent | src/OBJConverter/OBJFileLoader.java:143-249 | resolving any stream of valid corners keeps the table invariant |
| VertexTable.ResolveAllPlacesCorners | src/OBJConverter/OBJFileLoader.java:143-249 | each emitted index names an existing entry that has the corner's root position and the corner's pair |
| VertexTable.ResolveAllDeduplicates | src/OBJConverter/OBJFileLoader.java:224-249 | two corners get the same index exactly when they are the same (position, texture, normal) triple |
| VertexTable.ResolveAllCovers | src/OBJConverter/OBJFileLoader.java:143-249 | the unset entries are exactly the roots no corner refers to; every set entry was emitted for some corner |
| VertexTable.RevisitReuses | src/OBJConverter/OBJFileLoader.java:228-229 | resolving an already resolved triple again changes nothing and emits the same index |
| ObjLines.FirstFace | src/OBJConverter/OBJFileLoader.java:46-86 | the header loop stops at the first face line: no earlier line is a face line |
| ObjLines.FirstFaceAt | src/OBJConverter/OBJFileLoader.java:85 | the line at which the header loop exits is the first face line |
| ObjLines.FaceRunEnd | src/OBJConverter/OBJFileLoader.java:88-100 | the face loop consumes consecutive face lines and stops at the first line that is not one |
| ObjLines.HeaderStep | src/OBJConverter/OBJFileLoader.java:49-83 | one more header line adds its own field, if any, to its own list only |
| ObjLines.FaceLines | src/renderEngine/OBJLoader.java:89-105 | the face lines among the lines, in order |
| ObjFileSpec.Corners | src/OBJConverter/OBJFileLoader.java:91-97 | a face run yields three corners per face |
| ObjFileSpec.CornerOfFace | src/OBJConverter/OBJFileLoader.java:91-97 | corner k is descriptor k mod 3 of face k / 3, made 0-based |
| ObjFileSpec.FacesAsCorners | src/OBJConverter/OBJFileLoader.java:88-100 | if every position index names a vertex, the face run never fails, and processing it is resolving its corners in order |
| ObjFileSpec.CornersOfFacesWithin | src/OBJConverter/OBJFileLoader.java:143-148 | the 1-based file indices become 0-based corners within the lists |
| ObjFileSpec.ResolveAllNormed | src/OBJConverter/OBJFileLoader.java:240 | a split vertex copies the position it splits, so every length stays the norm of its position |
| ObjFileSpec.ResolveAllPositionsIn | src/OBJConverter/OBJFileLoader.java:240 | no split introduces a new position |
| ObjFileSpec.PositionArray | src/OBJConverter/OBJFileLoader.java:111 | three position floats per vertex |
| ObjFileSpec.TextureArray | src/OBJConverter/OBJFileLoader.java:112 | two texture floats per vertex |
| ObjFileSpec.NormalArray | src/OBJConverter/OBJFileLoader.java:113 | three normal floats per vertex |
| ObjFileSpec.PositionSlots | src/OBJConverter/OBJFileLoader.java:200-202 | slots 3i..3i+2 hold vertex i's position |
| ObjFileSpec.TextureSlots | src/OBJConverter/OBJFileLoader.java:204-205 | slots 2i and 2i+1 hold vertex i's texture coordinate u and 1 - v |
| ObjFileSpec.NormalSlots | src/OBJConverter/OBJFileLoader.java:207-209 | slots 3i..3i+2 hold vertex i's normal |
| ObjFileSpec.MaterializedVertex | src/OBJConverter/OBJFileLoader.java:191-210 | vertex i of the table is laid out as vertex i of the arrays |
| ObjFileSpec.Furthest | src/OBJConverter/OBJFileLoader.java:189-194 | the running maximum starts at 0 and is never negative |
| ObjFileSpec.FurthestIsMaximum | src/OBJConverter/OBJFileLoader.java:189-194 | the result bounds every vertex length, and it is one of them unless it stayed 0 |
| ObjFileSpec.FurthestStep | src/OBJConverter/OBJFileLoader.java:194 | each vertex replaces the maximum only when its length is strictly larger |
| ObjFileSpec.Materialize | src/OBJConverter/OBJFileLoader.java:109-121 | flattening succeeds exactly when every attribute index is in range; the arrays then hold as many vertices as the table, and the index array is the index list |
| ObjFileSpec.LoadObj | src/OBJConverter/OBJFileLoader.java:24-122 | a file with no face line fails with NoFaceLine |
| ObjFileSpec.LoadObjShape | src/OBJConverter/OBJFileLoader.java:109-121 | array lengths are 3V, 2V and 3V; there is at least one vertex per "v " line; there are three indices per face line; every index names a vertex; the radius is at least 0 |
| ObjFileSpec.TrailingLinesIgnored | src/OBJConverter/OBJFileLoader.java:88-100 | lines after the run of face lines do not affect the result |
| ObjFileSpec.CleanAttributes | src/OBJConverter/OBJFileLoader.java:256-263 | after cleanup, every attribute index of a file whose faces are in range names a list entry |
| ObjFileSpec.CleanPositions | src/OBJConverter/OBJFileLoader.java:240 | after cleanup, root i keeps position i; every vertex has a "v " position and its norm as length |
| ObjFileSpec.FurthestOverPositions | src/OBJConverter/OBJFileLoader.java:189-194 | the radius is the largest norm of a "v " position, or 0 |
| ObjFileSpec.LoadObjAsCorners | src/OBJConverter/OBJFileLoader.java:24-122 | loading is resolving the face corners against the roots, then cleanup and flattening |
| ObjFileSpec.MeshRendersCorners | src/OBJConverter/OBJFileLoader.java:109-121 | index k names a vertex that carries corner k's position, texture coordinate and normal |
| ObjFileSpec.MeshVertices | src/OBJConverter/OBJFileLoader.java:191-210 | the vertex that index k names holds corner k's root position, texture coordinate and normal |
| ObjFileSpec.MeshDeduplicates | src/OBJConverter/OBJFileLoader.java:224-249 | in the flattened mesh, indices are equal exactly for equal corners; every vertex is used or is an unreferenced root |
| ObjFileSpec.MeshRadius | src/OBJConverter/OBJFileLoader.java:189-194 | the mesh radius is the largest root norm, or 0 |
| ObjFileSpec.FaceRunCorners | src/OBJConverter/OBJFileLoader.java:88-100 | a face run whose indices name header lines yields valid corners within the lists |
| ObjFileSpec.LoadObjRendersFaces | src/OBJConverter/OBJFileLoader.java:24-122 | a well-formed file loads without error, and index k draws corner k's position, texture coordinate (v flipped) and normal |
| ObjFileSpec.LoadObjDeduplicates | src/OBJConverter/OBJFileLoader.java:24-122 | in a loaded file, two corners share an index exactly when they are the same triple, and no vertex is wasted |
| ObjFileSpec.LoadObjRadius | src/OBJConverter/OBJFileLoader.java:24-122 | the returned radius is the largest norm of a position before the faces, or 0 |
| ObjFileLoader.ReadHeader | src/OBJConverter/OBJFileLoader.java:46-86 | the header loop stops at the first face line; the vertices are the fresh roots of the "v " lines; the texture and normal lists are the "vt " and "vn " lines, in order |
| ObjFileLoader.ReadHeaderLine | src/OBJConverter/OBJFileLoader.java:47-85 | one header line appends to its own list and allocates at most the new vertex |
| ObjFileLoader.ProcessVertex | src/OBJConverter/OBJFileLoader.java:143-159 | the method succeeds, fails (with the same error) and changes the vertex list exactly as the value-level ProcessVertex does |
| ObjFileLoader.ManageProcessedVertex | src/OBJConverter/OBJFileLoader.java:224-249 | the walk over linked vertex objects equals the value-level Walk; the list stays valid and only gains fresh vertices |
| ObjFileLoader.SplitKeepsValid | src/OBJConverter/OBJFileLoader.java:240-246 | appending and linking the new vertex object is the value-level split |
| ObjFileLoader.ProcessFaceLine | src/OBJConverter/OBJFileLoader.java:89-97 | one face line, as the value-level ProcessFace |
| ObjFileLoader.ReadFaceLine | src/OBJConverter/OBJFileLoader.java:95-99 | one face-loop iteration advances the run exactly as ProcessFaces does |
| ObjFileLoader.ReadFaces | src/OBJConverter/OBJFileLoader.java:88-100 | the face loop equals ProcessFaces over the consecutive face lines |
| ObjFileLoader.RemoveUnusedVertices | src/OBJConverter/OBJFileLoader.java:256-263 | the vertex objects afterwards are the value-level RemoveUnused of what they were |
| ObjFileLoader.ConvertIndicesListToArray | src/OBJConverter/OBJFileLoader.java:167-172 | a new array equal to the index list, element by element |
| ObjFileLoader.ConvertDataToArrays | src/OBJConverter/OBJFileLoader.java:185-213 | succeeds exactly when every attribute index is in range, else AttributeIndexOutOfRange; then the arrays are the position, texture (v flipped) and normal layouts and the result is the running maximum length |
| ObjFileLoader.WriteVertexSlots | src/OBJConverter/OBJFileLoader.java:200-209 | the eight stores of one vertex, and no other slot |
| ObjFileLoader.BuildModelData | src/OBJConverter/OBJFileLoader.java:109-121 | cleanup plus conversion is the value-level Materialize of the cleaned table |
| ObjFileLoader.LoadObj | src/OBJConverter/OBJFileLoader.java:24-122 | the imperative loader returns exactly the value-level LoadObj |
| ObjLoader.Zeros | src/renderEngine/OBJLoader.java:83-84 | a new float array holds zeros |
| ObjLoader.ScatterVertex | src/renderEngine/OBJLoader.java:141-156 | succeeds exactly when the descriptor has three fields and all three indices are in range; appends the 0-based position index |
| ObjLoader.ScatterVertexWrites | src/renderEngine/OBJLoader.java:148-155 | writes u and 1 - v to slots 2p and 2p+1 and the normal to slots 3p..3p+2; every other slot is unchanged |
| ObjLoader.ScatterVertexSlots | src/renderEngine/OBJLoader.java:148-155 | position by position: only the descriptor's own position changes |
| ObjLoader.ScatterFace | src/renderEngine/OBJLoader.java:95-102 | a face line succeeds only if it has at least three descriptors |
| ObjLoader.ScatterCorners | src/renderEngine/OBJLoader.java:95-102 | a successful run of descriptors keeps every slot within the arrays |
| ObjLoader.ScatterCornersStopsAtFailure | src/renderEngine/OBJLoader.java:95-102 | the first failing descriptor decides the result of the face |
| ObjLoader.ScatterFaces | src/renderEngine/OBJLoader.java:89-105 | a successful face loop keeps every slot within the arrays |
| ObjLoader.ScatterFacesStopsAtFailure | src/renderEngine/OBJLoader.java:89-105 | the first failing face line decides the result of the whole loop |
| ObjLoader.ScatterCornersIndices | src/renderEngine/OBJLoader.java:145-146 | no splitting: the index list grows by exactly the 0-based position indices, in order |
| ObjLoader.LastReference | src/renderEngine/OBJLoader.java:149-155 | the last descriptor naming a position; no later descriptor names it |
| ObjLoader.LastReferenceWins | src/renderEngine/OBJLoader.java:149-155 | a position's slots hold the pair of the last corner naming it, or their old values |
| ObjLoader.ScatterFacesAsCorners | src/renderEngine/OBJLoader.java:95-102 | the face loop is the stream of the first three descriptors of each face |
| ObjLoader.FacesLastReferenceWins | src/renderEngine/OBJLoader.java:89-105 | last write wins across face lines |
| ObjLoader.ModelOf | src/renderEngine/OBJLoader.java:24-129 | no face line fails with NoFaceLine; otherwise the arrays hold 3V, 2V and 3V floats |
| ObjLoader.ModelIndices | src/renderEngine/OBJLoader.java:124-126 | the index array is the 0-based position index of each face corner: three per face line, each naming a parsed position |
| ObjLoader.ModelSlots | src/renderEngine/OBJLoader.java:82-86 | each position's texture and normal slots hold its last corner's pair, or zeros |
| ObjLoader.Flatten3 | src/renderEngine/OBJLoader.java:114 | the vertex array has 3V floats |
| ObjLoader.Flatten3Slots | src/renderEngine/OBJLoader.java:117-122 | slots 3k..3k+2 hold position k |
| ObjLoader.ModelVertices | src/renderEngine/OBJLoader.java:114-122 | the vertex array holds the header positions, flattened in parse order |
| ObjLoader.LaterLinesSkipped | src/renderEngine/OBJLoader.java:89-93 | inserting any line that is not a face line after the first face line changes nothing |
| ObjLoader.OtherLineSkipped | src/renderEngine/OBJLoader.java:90-93 | a line that is not a face line adds no face |
| ObjLoader.SkippedLineAddsNoFace | src/renderEngine/OBJLoader.java:90-93 | inserting a line that is not a face line anywhere after the first face line leaves the sequence of face lines unchanged |
| ObjLoader.SameHeaderSameFaces | src/renderEngine/OBJLoader.java:49-105 | two files with the same header and the same face lines load to the same model |
| ObjLoader.ReadHeader | src/renderEngine/OBJLoader.java:49-87 | the header lists, up to the first face line |
| ObjLoader.ProcessVertex | src/renderEngine/OBJLoader.java:141-156 | the in-place stores are ScatterVertex: same outcome, same error, same arrays |
| ObjLoader.ProcessFaceLine | src/renderEngine/OBJLoader.java:95-102 | one face line is ScatterFace |
| ObjLoader.ReadFaceLine | src/renderEngine/OBJLoader.java:95-104 | one face-loop iteration advances ScatterFaces by one face |
| ObjLoader.ReadFaces | src/renderEngine/OBJLoader.java:89-105 | the face loop is ScatterFaces over every face line from the first one on |
| ObjLoader.FlattenPositions | src/renderEngine/OBJLoader.java:114-122 | the vertexPointer loop fills a new array with Flatten3 of the positions |
| ObjLoader.CopyIndices | src/renderEngine/OBJLoader.java:124-126 | a new array equal to the index list |
| ObjLoader.LoadObjModel | src/renderEngine/OBJLoader.java:24-129 | the imperative loader returns exactly ModelOf |
| Terrain.VertexSlots | src/terrains/Terrain.java:52-59 | grid vertex (i, j) is at slot i x 128 + j < 128²; its position is (-j/127 x 800, 0, -i/127 x 800), so y is 0, and its texture coordinate is (j/127, i/127) |
| Terrain.FillGrid | src/terrains/Terrain.java:52-67 | the vertex loop: vertexPointer ends at 128²; every slot holds its grid value; normal slots 3p and 3p+1 end at 0; slot 3p+2 is never written |
| Terrain.WriteGridVertex | src/terrains/Terrain.java:54-65 | one iteration extends the filled prefix by one grid vertex |
| Terrain.WritePosition | src/terrains/Terrain.java:54-56 | the three position stores of one grid vertex |
| Terrain.WriteTexture | src/terrains/Terrain.java:58-59 | the two texture stores of one grid vertex |
| Terrain.WriteNormal | src/terrains/Terrain.java:61-63 | the normal stores leave slot 3p at 0 and slot 3p+1 at 0 (the 1 is overwritten); slot 3p+2 keeps its value |
| Terrain.FlatNormalsAreNotUp | src/terrains/Terrain.java:61-63 | all-zero normals, as Terrain.GenerateTerrain produces them, differ from the up vector (0, 1, 0) at every grid vertex |
| Terrain.WriteUpNormal | src/terrains/Terrain.java:61-63 | corrected normal stores: slots 3p, 3p+1 and 3p+2 become 0, 1 and 0, and no other slot changes |
| Terrain.WriteGridVertexUp | src/terrains/Terrain.java:54-65 | a loop iteration with the corrected normal stores extends the filled prefix by one grid vertex |
| Terrain.FillGridUp | src/terrains/Terrain.java:52-67 | the vertex loop with the corrected normal stores: every position and texture slot holds its grid value, and every normal is (0, 1, 0) |
| Terrain.CellIndices | src/terrains/Terrain.java:76-81 | each grid cell contributes six indices (two triangles) |
| Terrain.CellCorners | src/terrains/Terrain.java:71-81 | topRight = topLeft + 1; bottomLeft = topLeft + 128; bottomRight = bottomLeft + 1; the six indices are (TL, BL, TR) and (TR, BL, BR); every index is below 128² |
| Terrain.IndexSlots | src/terrains/Terrain.java:69-83 | cell (z, x) occupies slots 6(z x 127 + x) .. +5 of the index array |
| Terrain.WriteCell | src/terrains/Terrain.java:76-81 | the six stores of a cell; earlier slots are unchanged |
| Terrain.FillIndices | src/terrains/Terrain.java:69-83 | pointer ends at the array length (127² x 6), and every slot holds its cell's index |
| Terrain.IndicesInGrid | src/terrains/Terrain.java:71-74 | every index names a grid vertex |
| Terrain.GenerateTerrain | src/terrains/Terrain.java:42-86 | array lengths 3 x 128², 2 x 128², 3 x 128² and 127² x 6; every position and texture slot holds its grid value; every normal float is 0, so no grid normal is the up vector (0, 1, 0); every index slot holds its cell's index |
| Terrain.GenerateUpTerrain | src/terrains/Terrain.java:42-86 | generateTerrain with the corrected normal stores: the same lengths, positions, texture coordinates and indices as Terrain.GenerateTerrain, and every normal is (0, 1, 0) |
| Terrain.NewTerrain | src/terrains/Terrain.java:28-33 | the tile sits at (gridX x 800, gridZ x 800); its mesh is the whole generated grid (lengths, positions, texture coordinates and indices), with every normal float 0 as generateTerrain writes them |
| MasterRendering.BatchOf | src/renderEngine/MasterRenderer.java:66-78 | a batch holds only submitted entities of its own model |
| MasterRendering.Batches | src/renderEngine/MasterRenderer.java:66-78 | the entities map that processEntity builds from the submitted entities, in order: every batch is non-empty and no longer than the submitted list; its full meaning is MasterRendering.BatchesGroupByModel |
| MasterRendering.BatchesGroupByModel | src/renderEngine/MasterRenderer.java:66-78 | a model has a batch exactly when some submitted entity uses it; that batch is all such entities in submission order |
| MasterRendering.BatchesWellFormed | src/renderEngine/MasterRenderer.java:74-78 | no batch is empty; every entity in a batch uses that batch's model |
| MasterRendering.MasterRenderer.constructor | src/renderEngine/MasterRenderer.java:38-39 | a new renderer has no batches and no terrains |
| MasterRendering.MasterRenderer.ProcessEntity | src/renderEngine/MasterRenderer.java:66-78 | the entity goes to the end of an existing batch, or into a new one-element batch; other batches and the terrains are unchanged; the batch map stays the grouping of the submitted entities |
| MasterRendering.MasterRenderer.ProcessTerrain | src/renderEngine/MasterRenderer.java:86-88 | the terrain goes to the end of the queue; the batches are unchanged |
| MasterRendering.MasterRenderer.Render | src/renderEngine/MasterRenderer.java:96-121 | the renderers receive the current batches and terrains; afterwards both are empty |

## Left out

- **File reading, tokenising and number parsing.** This covers `FileReader`, `readLine`, `split`,
  `Float.parseFloat` and `Integer.parseInt`, with its `NumberFormatException`. A file is a sequence
  of already classified lines, and a descriptor is a sequence of integers.
- **The "file not found" path.** This is the print, the `assert` and the null-pointer failure in
  `OBJFileLoader`, and the rethrown exception in `OBJLoader`.
- **Float arithmetic.** Floats are `real`: the terrain divisions are exact, and `1 - v` is exact.
  `Vector3f.length()` is a parameter `norm` of the loader; its float computation is outside the
  model.
- **Uploads and GL state.** `loadOBJToVAO`, `loadToVAO` and the VAO/RawModel results are left out.
  `OBJLoader` returns its four arrays; its upload uses only three of them. The terrain keeps its
  mesh in place of the RawModel, and its texture is not modelled.
- **The rest of `MasterRenderer`.** This covers `prepare`, `cleanUp`, the projection matrix,
  back-face culling, the shaders and the drawing done by the entity and terrain renderers. `Render`
  returns what it hands to those renderers.
- **Entities and models as values.** Entities are values, so aliasing of `Entity` objects and
  in-place changes to them are not captured. A batch list is replaced in the map rather than
  appended to in place. `TexturedModel` is a record compared by value; its mesh and texture are
  represented by their identities.
- **Java lists.** The `ArrayList`s of the loaders are `seq` values that the methods return.
  Aliasing between a list and the caller is not modelled; the vertex objects themselves are
  modelled as heap objects.
- **32-bit integer overflow.** Indices (`index * 2`, `index * 3`, `count * 3`) use unbounded
  integers. An index large enough to overflow is outside any list, so the outcome is the same
  error either way.
- ObjFileLoader.ManageProcessedVertex: the recursion over the duplicate chain is a loop.
- VertexTable.Walk: follows a duplicate link only when it points further down the table. A
  well-linked table has only such links, and every table the loader builds is well linked
  (`WalkSound`), so this guard never changes the result. Cyclic links, which the Java recursion
  would follow forever, are not modelled.
- ObjLoader.ProcessFaceLine: its three `processVertex` calls are written as a loop over the first
  three descriptors.
- Terrain.WriteGridVertex and Terrain.WriteCell: the bodies of the terrain loops are separate
  methods with the same stores in the same order.
- ObjFileSpec.LoadObjRendersFaces and ObjFileSpec.LoadObjDeduplicates: do not cover two kinds of
  malformed corner that `loadOBJ` accepts without an error. The first is a position index above the
  number of "v " lines that happens to name a split vertex: `vertices.get(index)` succeeds on the
  grown list. The second is a texture or normal index 0, which becomes -1 (NO_INDEX), so the
  vertex stays unset. A later corner may then overwrite its pair, and cleanup resets it to (0, 0).
  VertexTable.ProcessVertex and ObjFileSpec.LoadObj reproduce both cases as the code does.

## Findings

| source | as written | input that shows it | evidently intended | confidence | as-written member | corrected member |
|---|---|---|---|---|---|---|
| src/terrains/Terrain.java:61-63 | the third normal store writes 0 to slot 3p+1 again, after 1 was written there, so every terrain normal is (0, 0, 0) | any terrain: the normal of grid vertex 0 is (0, 0, 0) | the third store goes to slot 3p+2, so every normal is the up vector (0, 1, 0) | high; not executed | Terrain.GenerateTerrain with Terrain.FlatNormalsAreNotUp | Terrain.GenerateUpTerrain |
