/**
 * The older OBJ loader (src/renderEngine/OBJLoader.java). Unlike the converter it
 * never splits a vertex: the index stream is the face position indices as they
 * stand, and each face corner scatters its texture coordinate and normal into the
 * slots of its position in two flat arrays, so a later reference to a position
 * overwrites an earlier one.
 *
 * The value-level specification comes first (`ScatterVertex` up to `ModelOf`),
 * then its properties, then the loader's methods, each proved against it.
 */
module ObjLoader {
  import opened Wrappers
  import opened Vectors
  import opened ObjLines

  /** The four arrays loadOBJModel builds; the upload to the GPU takes vertices, textures and indices. */
  datatype ObjArrays = ObjArrays(vertices: seq<real>, textures: seq<real>, normals: seq<real>, indices: seq<int>)

  /** The face loop's state: the index list and the contents of the texture and normal arrays. */
  datatype Scatter = Scatter(indices: seq<int>, textureSlots: seq<real>, normalSlots: seq<real>)

  /** A new Java float array: every slot holds 0. */
  function Zeros(n: nat): (a: seq<real>)
    ensures |a| == n && forall k :: 0 <= k < n ==> a[k] == 0.0
  {
    seq(n, _ => 0.0)
  }

  /** The arrays have room for `count` positions: two texture slots and three normal slots each. */
  predicate Fits(st: Scatter, count: nat)
  {
    |st.textureSlots| == 2 * count && |st.normalSlots| == 3 * count
  }

  /** A texture coordinate as the loader stores it, with v flipped to 1 - v. */
  function Flipped(uv: Vector2): Vector2
  {
    Vector2(uv.x, 1.0 - uv.y)
  }

  /** The two texture slots of position p. */
  function TextureSlot(st: Scatter, p: nat): Vector2
    requires 2 * p + 1 < |st.textureSlots|
  {
    Vector2(st.textureSlots[2 * p], st.textureSlots[2 * p + 1])
  }

  /** The three normal slots of position p. */
  function NormalSlot(st: Scatter, p: nat): Vector3
    requires 3 * p + 2 < |st.normalSlots|
  {
    Vector3(st.normalSlots[3 * p], st.normalSlots[3 * p + 1], st.normalSlots[3 * p + 2])
  }

  /**
   * processVertex on one "p/t/n" descriptor with 1-based indices, for `count`
   * positions. The failures come in the order of the source's accesses: the
   * texture field, the texture list, the texture array slot of the position, the
   * normal field, the normal list.
   */
  function ScatterVertex(st: Scatter, d: seq<int>, count: nat, textures: seq<Vector2>, normals: seq<Vector3>)
    : (r: Result<Scatter, LoadError>)
    requires Fits(st, count)
    ensures r.Ok? <==> |d| >= 3 && 0 <= d[0] - 1 < count && 0 <= d[1] - 1 < |textures| && 0 <= d[2] - 1 < |normals|
    ensures r.Ok? ==> Fits(r.value, count) && r.value.indices == st.indices + [d[0] - 1]
  {
    if |d| < 1 then Err(MalformedFace)
    else
      var p := d[0] - 1;
      if |d| < 2 then Err(MalformedFace)
      else if !(0 <= d[1] - 1 < |textures|) then Err(AttributeIndexOutOfRange)
      else if !(0 <= p < count) then Err(VertexIndexOutOfRange)
      else if |d| < 3 then Err(MalformedFace)
      else if !(0 <= d[2] - 1 < |normals|) then Err(AttributeIndexOutOfRange)
      else
        var uv := textures[d[1] - 1];
        var n := normals[d[2] - 1];
        Ok(Scatter(st.indices + [p],
                   st.textureSlots[2 * p := uv.x][2 * p + 1 := 1.0 - uv.y],
                   st.normalSlots[3 * p := n.x][3 * p + 1 := n.y][3 * p + 2 := n.z]))
  }

  /** Descriptors scattered in order, stopping at the first failure. */
  function ScatterCorners(st: Scatter, ds: seq<seq<int>>, count: nat, textures: seq<Vector2>, normals: seq<Vector3>)
    : (r: Result<Scatter, LoadError>)
    requires Fits(st, count)
    ensures r.Ok? ==> Fits(r.value, count)
  {
    if ds == [] then Ok(st)
    else
      var st' :- ScatterCorners(st, ds[..|ds| - 1], count, textures, normals);
      ScatterVertex(st', ds[|ds| - 1], count, textures, normals)
  }

  /** One face line: its first three descriptors; a line with fewer fails before any of them is used. */
  function ScatterFace(st: Scatter, face: ObjLine, count: nat, textures: seq<Vector2>, normals: seq<Vector3>)
    : (r: Result<Scatter, LoadError>)
    requires Fits(st, count) && face.FaceLine?
    ensures r.Ok? ==> Fits(r.value, count) && |face.descriptors| >= 3
  {
    if |face.descriptors| < 3 then Err(MalformedFace)
    else ScatterCorners(st, face.descriptors[..3], count, textures, normals)
  }

  /** Face lines in order, stopping at the first failure. */
  function ScatterFaces(st: Scatter, faces: seq<ObjLine>, count: nat, textures: seq<Vector2>, normals: seq<Vector3>)
    : (r: Result<Scatter, LoadError>)
    requires Fits(st, count) && AllFaces(faces)
    ensures r.Ok? ==> Fits(r.value, count)
  {
    if faces == [] then Ok(st)
    else
      var st' :- ScatterFaces(st, faces[..|faces| - 1], count, textures, normals);
      ScatterFace(st', faces[|faces| - 1], count, textures, normals)
  }

  /** The positions flattened, three floats each, in parse order. */
  function Flatten3(vs: seq<Vector3>): (a: seq<real>)
    ensures |a| == 3 * |vs|
  {
    if vs == [] then []
    else
      var v := vs[|vs| - 1];
      Flatten3(vs[..|vs| - 1]) + [v.x, v.y, v.z]
  }

  /**
   * loadOBJModel on the classified lines of a file. The header stops at the first
   * face line (none at all fails); the texture and normal arrays are sized by the
   * positions read so far; every face line from there on is scattered and every
   * other line is skipped.
   */
  function ModelOf(lines: seq<ObjLine>): (r: Result<ObjArrays, LoadError>)
    ensures r.Err? && FirstFace(lines) == |lines| ==> r.error == NoFaceLine
    ensures r.Ok? ==> FirstFace(lines) < |lines|
    ensures r.Ok? ==>
      var count := |Positions(lines[..FirstFace(lines)])|;
      |r.value.vertices| == 3 * count && |r.value.textures| == 2 * count && |r.value.normals| == 3 * count
  {
    var first := FirstFace(lines);
    if first == |lines| then Err(NoFaceLine)
    else
      var header := lines[..first];
      var count := |Positions(header)|;
      var st :- ScatterFaces(Scatter([], Zeros(2 * count), Zeros(3 * count)), FaceLines(lines[first..]),
                             count, Textures(header), Normals(header));
      Ok(ObjArrays(Flatten3(Positions(header)), st.textureSlots, st.normalSlots, st.indices))
  }

  // ---------------------------------------------------------------------------
  // Properties of one descriptor

  /**
   * A scattered descriptor writes the texture coordinate (v flipped) into the two
   * slots of its position and the normal into the three slots of its position;
   * every other slot keeps its value.
   */
  lemma {:induction false} ScatterVertexWrites(st: Scatter, d: seq<int>, count: nat, textures: seq<Vector2>, normals: seq<Vector3>)
    requires Fits(st, count) && ScatterVertex(st, d, count, textures, normals).Ok?
    ensures var r := ScatterVertex(st, d, count, textures, normals).value;
      var p, uv, n := d[0] - 1, textures[d[1] - 1], normals[d[2] - 1];
      && r.textureSlots[2 * p] == uv.x && r.textureSlots[2 * p + 1] == 1.0 - uv.y
      && r.normalSlots[3 * p] == n.x && r.normalSlots[3 * p + 1] == n.y && r.normalSlots[3 * p + 2] == n.z
      && (forall k :: 0 <= k < 2 * count && k != 2 * p && k != 2 * p + 1 ==> r.textureSlots[k] == st.textureSlots[k])
      && (forall k :: 0 <= k < 3 * count && !(3 * p <= k <= 3 * p + 2) ==> r.normalSlots[k] == st.normalSlots[k])
  {
  }

  /** Position by position: the descriptor's own position takes its pair, every other position keeps its slots. */
  lemma {:induction false} ScatterVertexSlots(st: Scatter, d: seq<int>, count: nat, textures: seq<Vector2>,
                                              normals: seq<Vector3>, q: nat)
    requires Fits(st, count) && ScatterVertex(st, d, count, textures, normals).Ok? && q < count
    ensures var r := ScatterVertex(st, d, count, textures, normals).value;
      && TextureSlot(r, q) == (if q == d[0] - 1 then Flipped(textures[d[1] - 1]) else TextureSlot(st, q))
      && NormalSlot(r, q) == (if q == d[0] - 1 then normals[d[2] - 1] else NormalSlot(st, q))
  {
    ScatterVertexWrites(st, d, count, textures, normals);
  }

  // ---------------------------------------------------------------------------
  // Properties of a stream of descriptors

  /** The last descriptor of `ds` that refers to position p, if any. */
  function LastReference(ds: seq<seq<int>>, p: int): (k: Option<nat>)
    ensures k.Some? ==> k.value < |ds| && |ds[k.value]| > 0 && ds[k.value][0] - 1 == p
    ensures k.Some? ==> forall j :: k.value < j < |ds| && |ds[j]| > 0 ==> ds[j][0] - 1 != p
    ensures k.None? ==> forall j :: 0 <= j < |ds| && |ds[j]| > 0 ==> ds[j][0] - 1 != p
  {
    if ds == [] then None
    else if |ds[|ds| - 1]| > 0 && ds[|ds| - 1][0] - 1 == p then Some(|ds| - 1)
    else LastReference(ds[..|ds| - 1], p)
  }

  /**
   * Every descriptor of a stream that scatters cleanly is well formed, and the
   * stream appends exactly its 0-based position indices to the index list, in order.
   */
  lemma {:induction false} ScatterCornersIndices(st: Scatter, ds: seq<seq<int>>, count: nat, textures: seq<Vector2>,
                                                 normals: seq<Vector3>)
    requires Fits(st, count) && ScatterCorners(st, ds, count, textures, normals).Ok?
    ensures var r := ScatterCorners(st, ds, count, textures, normals).value;
      && |r.indices| == |st.indices| + |ds| && r.indices[..|st.indices|] == st.indices
      && forall k :: 0 <= k < |ds| ==> |ds[k]| >= 3 && 0 <= ds[k][0] - 1 < count && r.indices[|st.indices| + k] == ds[k][0] - 1
  {
    if ds != [] {
      var init := ds[..|ds| - 1];
      ScatterCornersIndices(st, init, count, textures, normals);
      var mid := ScatterCorners(st, init, count, textures, normals).value;
      var r := ScatterCorners(st, ds, count, textures, normals).value;
      assert r.indices == mid.indices + [ds[|ds| - 1][0] - 1];
      forall k | 0 <= k < |ds|
        ensures |ds[k]| >= 3 && 0 <= ds[k][0] - 1 < count && r.indices[|st.indices| + k] == ds[k][0] - 1
      {
        if k < |init| {
          assert ds[k] == init[k];
        }
      }
      assert r.indices[..|st.indices|] == mid.indices[..|st.indices|];
    }
  }

  /**
   * The slots of position p in `r` hold the pair of the last descriptor of `ds`
   * that refers to p, or, when none does, what they held in `st`.
   */
  predicate SlotsFollow(r: Scatter, st: Scatter, ds: seq<seq<int>>, count: nat, textures: seq<Vector2>,
                        normals: seq<Vector3>, p: nat)
    requires Fits(r, count) && Fits(st, count) && p < count
  {
    match LastReference(ds, p)
    case Some(k) =>
      |ds[k]| >= 3 && 0 <= ds[k][1] - 1 < |textures| && 0 <= ds[k][2] - 1 < |normals|
      && TextureSlot(r, p) == Flipped(textures[ds[k][1] - 1]) && NormalSlot(r, p) == normals[ds[k][2] - 1]
    case None =>
      TextureSlot(r, p) == TextureSlot(st, p) && NormalSlot(r, p) == NormalSlot(st, p)
  }

  /**
   * Last write wins: after a stream scatters cleanly, the slots of a position hold
   * the pair of the last descriptor that refers to it, or their old values when none does.
   */
  lemma {:induction false} LastReferenceWins(st: Scatter, ds: seq<seq<int>>, count: nat, textures: seq<Vector2>,
                                             normals: seq<Vector3>, p: nat)
    requires Fits(st, count) && ScatterCorners(st, ds, count, textures, normals).Ok? && p < count
    ensures SlotsFollow(ScatterCorners(st, ds, count, textures, normals).value, st, ds, count, textures, normals, p)
  {
    if ds != [] {
      var init, d := ds[..|ds| - 1], ds[|ds| - 1];
      LastReferenceWins(st, init, count, textures, normals, p);
      var mid := ScatterCorners(st, init, count, textures, normals).value;
      ScatterVertexSlots(mid, d, count, textures, normals, p);
      if d[0] - 1 != p {
        assert LastReference(ds, p) == LastReference(init, p);
        match LastReference(init, p)
        case Some(k) =>
          assert ds[k] == init[k];
        case None =>
      }
    }
  }

  /** Scattering a stream in two parts is scattering it whole. */
  lemma {:induction false} ScatterCornersAppend(st: Scatter, a: seq<seq<int>>, b: seq<seq<int>>, count: nat,
                                                textures: seq<Vector2>, normals: seq<Vector3>)
    requires Fits(st, count) && ScatterCorners(st, a, count, textures, normals).Ok?
    ensures ScatterCorners(st, a + b, count, textures, normals)
         == ScatterCorners(ScatterCorners(st, a, count, textures, normals).value, b, count, textures, normals)
  {
    if b != [] {
      var init := b[..|b| - 1];
      ScatterCornersAppend(st, a, init, count, textures, normals);
      assert (a + b)[..|a + b| - 1] == a + init;
    } else {
      assert a + b == a;
    }
  }

  // ---------------------------------------------------------------------------
  // From face lines to a stream of descriptors

  /** The descriptors the face loop uses: the first three of each face line, in order. */
  function FaceCorners(faces: seq<ObjLine>): seq<seq<int>>
    requires AllFaces(faces)
  {
    if faces == [] then []
    else
      var ds := faces[|faces| - 1].descriptors;
      FaceCorners(faces[..|faces| - 1]) + ds[..if |ds| < 3 then |ds| else 3]
  }

  /**
   * Face lines that scatter cleanly scatter as the stream of their first three
   * descriptors, three per face: what the face loop does is the corner stream.
   */
  lemma {:induction false} ScatterFacesAsCorners(st: Scatter, faces: seq<ObjLine>, count: nat, textures: seq<Vector2>,
                                                 normals: seq<Vector3>)
    requires Fits(st, count) && AllFaces(faces) && ScatterFaces(st, faces, count, textures, normals).Ok?
    ensures |FaceCorners(faces)| == 3 * |faces|
    ensures ScatterFaces(st, faces, count, textures, normals) == ScatterCorners(st, FaceCorners(faces), count, textures, normals)
  {
    if faces != [] {
      var init := faces[..|faces| - 1];
      assert AllFaces(init);
      ScatterFacesAsCorners(st, init, count, textures, normals);
      var ds := faces[|faces| - 1].descriptors;
      ScatterCornersAppend(st, FaceCorners(init), ds[..3], count, textures, normals);
    }
  }

  // ---------------------------------------------------------------------------
  // Properties of the whole load

  /** The face corners of the file: the first three descriptors of every face line from the first one on. */
  function FileCorners(lines: seq<ObjLine>): seq<seq<int>>
    requires FirstFace(lines) < |lines|
  {
    FaceCorners(FaceLines(lines[FirstFace(lines)..]))
  }

  /**
   * No splitting: the index array is the stream of 0-based position indices of the
   * face corners, three per face line, each naming a position read before the first face.
   */
  lemma {:induction false} ModelIndices(lines: seq<ObjLine>)
    requires ModelOf(lines).Ok?
    ensures var count := |Positions(lines[..FirstFace(lines)])|;
      var cs, indices := FileCorners(lines), ModelOf(lines).value.indices;
      && |indices| == |cs| == 3 * |FaceLines(lines[FirstFace(lines)..])|
      && forall k :: 0 <= k < |cs| ==> |cs[k]| >= 3 && 0 <= cs[k][0] - 1 < count && indices[k] == cs[k][0] - 1
  {
    var first := FirstFace(lines);
    var header := lines[..first];
    var count := |Positions(header)|;
    var zero := Scatter([], Zeros(2 * count), Zeros(3 * count));
    var faces := FaceLines(lines[first..]);
    ScatterFacesAsCorners(zero, faces, count, Textures(header), Normals(header));
    ScatterCornersIndices(zero, FaceCorners(faces), count, Textures(header), Normals(header));
  }

  /** Last write wins, for face lines: the corner stream of the faces decides every position's slots. */
  lemma {:induction false} FacesLastReferenceWins(st: Scatter, faces: seq<ObjLine>, count: nat, textures: seq<Vector2>,
                                                  normals: seq<Vector3>, p: nat)
    requires Fits(st, count) && AllFaces(faces) && ScatterFaces(st, faces, count, textures, normals).Ok? && p < count
    ensures SlotsFollow(ScatterFaces(st, faces, count, textures, normals).value, st, FaceCorners(faces), count, textures, normals, p)
  {
    ScatterFacesAsCorners(st, faces, count, textures, normals);
    LastReferenceWins(st, FaceCorners(faces), count, textures, normals, p);
  }

  /**
   * Placement: the texture and normal slots of each position hold the pair of the
   * last face corner that refers to it, the texture coordinate with v flipped, and
   * zeros when no corner refers to it.
   */
  lemma {:induction false} ModelSlots(lines: seq<ObjLine>, p: nat)
    requires ModelOf(lines).Ok? && p < |Positions(lines[..FirstFace(lines)])|
    ensures var header := lines[..FirstFace(lines)];
      var m, count := ModelOf(lines).value, |Positions(header)|;
      var zero := Scatter([], Zeros(2 * count), Zeros(3 * count));
      && TextureSlot(zero, p) == Vector2(0.0, 0.0) && NormalSlot(zero, p) == Vector3(0.0, 0.0, 0.0)
      && SlotsFollow(Scatter(m.indices, m.textures, m.normals), zero, FileCorners(lines), count,
                     Textures(header), Normals(header), p)
  {
    var header := lines[..FirstFace(lines)];
    var count := |Positions(header)|;
    var zero := Scatter([], Zeros(2 * count), Zeros(3 * count));
    FacesLastReferenceWins(zero, FaceLines(lines[FirstFace(lines)..]), count, Textures(header), Normals(header), p);
  }

  /** Slots 3k, 3k + 1 and 3k + 2 of the flattened positions hold position k. */
  lemma {:induction false} Flatten3Slots(vs: seq<Vector3>, k: nat, c: nat)
    requires k < |vs| && c < 3
    ensures Flatten3(vs)[3 * k + c] == Coordinate(vs[k], c)
  {
    var init := vs[..|vs| - 1];
    if k < |init| {
      Flatten3Slots(init, k, c);
      assert vs[k] == init[k];
    }
  }

  /** The vertex array holds the positions read before the first face line, flattened in parse order. */
  lemma {:induction false} ModelVertices(lines: seq<ObjLine>, k: nat, c: nat)
    requires ModelOf(lines).Ok? && k < |Positions(lines[..FirstFace(lines)])| && c < 3
    ensures ModelOf(lines).value.vertices[3 * k + c] == Coordinate(Positions(lines[..FirstFace(lines)])[k], c)
  {
    Flatten3Slots(Positions(lines[..FirstFace(lines)]), k, c);
  }

  /** The face lines of two parts are those of the first followed by those of the second. */
  lemma {:induction false} FaceLinesAppend(a: seq<ObjLine>, b: seq<ObjLine>)
    ensures FaceLines(a + b) == FaceLines(a) + FaceLines(b)
  {
    if b != [] {
      var init := b[..|b| - 1];
      FaceLinesAppend(a, init);
      assert (a + b)[..|a + b| - 1] == a + init;
    } else {
      assert a + b == a;
    }
  }

  /**
   * A line other than a face line placed anywhere after the first face line
   * changes nothing, whatever it holds: a "v " line there adds no position.
   */
  lemma {:induction false} LaterLinesSkipped(lines: seq<ObjLine>, k: nat, line: ObjLine)
    requires FirstFace(lines) < k <= |lines| && !line.FaceLine?
    ensures ModelOf(lines[..k] + [line] + lines[k..]) == ModelOf(lines)
  {
    var first := FirstFace(lines);
    var lines' := lines[..k] + [line] + lines[k..];
    assert lines'[..first + 1] == lines[..first + 1];
    FirstFaceOfPrefix(lines, lines', first);
    assert lines'[..first] == lines[..first];
    SkippedLineAddsNoFace(lines, first, k, line);
    SameHeaderSameFaces(lines, lines', first);
  }

  /** The face lines after `first` do not see a line other than a face line inserted among them. */
  lemma {:induction false} SkippedLineAddsNoFace(lines: seq<ObjLine>, first: nat, k: nat, line: ObjLine)
    requires first <= k <= |lines| && !line.FaceLine?
    ensures FaceLines((lines[..k] + [line] + lines[k..])[first..]) == FaceLines(lines[first..])
  {
    var lines' := lines[..k] + [line] + lines[k..];
    assert lines'[first..] == lines[first..k] + [line] + lines[k..];
    assert lines[first..] == lines[first..k] + lines[k..];
    FaceLinesAppend(lines[first..k] + [line], lines[k..]);
    FaceLinesAppend(lines[first..k], [line]);
    assert FaceLines([line]) == [];
    FaceLinesAppend(lines[first..k], lines[k..]);
  }

  /** Two files with the same first face line, the same header and the same face lines after it load alike. */
  lemma {:induction false} SameHeaderSameFaces(lines: seq<ObjLine>, lines': seq<ObjLine>, first: nat)
    requires FirstFace(lines) == FirstFace(lines') == first < |lines| && first < |lines'|
    requires lines'[..first] == lines[..first] && FaceLines(lines'[first..]) == FaceLines(lines[first..])
    ensures ModelOf(lines') == ModelOf(lines)
  {
  }

  /** Two files that agree up to and including the first face line of one have the same first face line. */
  lemma {:induction false} FirstFaceOfPrefix(lines: seq<ObjLine>, lines': seq<ObjLine>, first: nat)
    requires first == FirstFace(lines) < |lines| && first < |lines'| && lines'[..first + 1] == lines[..first + 1]
    ensures FirstFace(lines') == first
  {
    if first > 0 {
      assert lines[1..][..first] == lines[1..first + 1] && lines'[1..][..first] == lines'[1..first + 1];
      FirstFaceOfPrefix(lines[1..], lines'[1..], first - 1);
    } else {
      assert lines'[0] == lines[..1][0];
    }
  }

  // ---------------------------------------------------------------------------
  // Steps of the face loop

  /** Scattering one more descriptor is scattering it after the ones before it. */
  lemma {:induction false} ScatterCornersStep(st: Scatter, ds: seq<seq<int>>, k: nat, count: nat,
                                              textures: seq<Vector2>, normals: seq<Vector3>)
    requires Fits(st, count) && k < |ds|
    ensures ScatterCorners(st, ds[..k + 1], count, textures, normals)
         == match ScatterCorners(st, ds[..k], count, textures, normals)
            case Ok(st') => ScatterVertex(st', ds[k], count, textures, normals)
            case Err(e) => Err(e)
  {
    assert ds[..k + 1][..k] == ds[..k];
  }

  /** A failing prefix decides the outcome of the whole stream. */
  lemma {:induction false} ScatterCornersStopsAtFailure(st: Scatter, ds: seq<seq<int>>, n: nat, count: nat,
                                                        textures: seq<Vector2>, normals: seq<Vector3>)
    requires Fits(st, count) && n <= |ds| && ScatterCorners(st, ds[..n], count, textures, normals).Err?
    ensures ScatterCorners(st, ds, count, textures, normals) == ScatterCorners(st, ds[..n], count, textures, normals)
  {
    if n < |ds| {
      var init := ds[..|ds| - 1];
      assert init[..n] == ds[..n];
      ScatterCornersStopsAtFailure(st, init, n, count, textures, normals);
    } else {
      assert ds[..n] == ds;
    }
  }

  /** Descriptor k failing after the ones before it reached `mid` makes the stream fail with its error. */
  lemma {:induction false} ScatterCornersFailAt(st: Scatter, ds: seq<seq<int>>, k: nat, mid: Scatter, count: nat,
                                                textures: seq<Vector2>, normals: seq<Vector3>)
    requires Fits(st, count) && Fits(mid, count) && k < |ds|
    requires ScatterCorners(st, ds[..k], count, textures, normals) == Ok(mid)
    requires ScatterVertex(mid, ds[k], count, textures, normals).Err?
    ensures ScatterCorners(st, ds, count, textures, normals) == ScatterVertex(mid, ds[k], count, textures, normals)
  {
    ScatterCornersStep(st, ds, k, count, textures, normals);
    ScatterCornersStopsAtFailure(st, ds, k + 1, count, textures, normals);
  }

  /** A failing prefix of face lines decides the outcome of them all. */
  lemma {:induction false} ScatterFacesStopsAtFailure(st: Scatter, faces: seq<ObjLine>, n: nat, count: nat,
                                                      textures: seq<Vector2>, normals: seq<Vector3>)
    requires Fits(st, count) && AllFaces(faces) && n <= |faces|
    requires ScatterFaces(st, faces[..n], count, textures, normals).Err?
    ensures ScatterFaces(st, faces, count, textures, normals) == ScatterFaces(st, faces[..n], count, textures, normals)
  {
    if n < |faces| {
      var init := faces[..|faces| - 1];
      assert init[..n] == faces[..n];
      ScatterFacesStopsAtFailure(st, init, n, count, textures, normals);
    } else {
      assert faces[..n] == faces;
    }
  }

  /**
   * Where face line i of the file stands among the face lines from `first` on:
   * right after the face lines of lines first..i.
   */
  lemma {:induction false} FaceLineAt(lines: seq<ObjLine>, first: nat, i: nat)
    requires first <= i < |lines| && lines[i].FaceLine?
    ensures var faces, n := FaceLines(lines[first..]), |FaceLines(lines[first..i])|;
      && n < |faces| && faces[..n] == FaceLines(lines[first..i]) && faces[n] == lines[i]
      && faces[..n + 1] == FaceLines(lines[first..i + 1])
  {
    assert lines[first..i + 1][..i - first] == lines[first..i];
    assert lines[first..] == lines[first..i + 1] + lines[i + 1..];
    FaceLinesAppend(lines[first..i + 1], lines[i + 1..]);
    var faces, n := FaceLines(lines[first..]), |FaceLines(lines[first..i])|;
    assert faces[..n + 1] == FaceLines(lines[first..i + 1]);
    assert faces[..n] == faces[..n + 1][..n];
  }

  /** A line other than a face line adds no face line. */
  lemma {:induction false} OtherLineSkipped(lines: seq<ObjLine>, first: nat, i: nat)
    requires first <= i < |lines| && !lines[i].FaceLine?
    ensures FaceLines(lines[first..i + 1]) == FaceLines(lines[first..i])
  {
    assert lines[first..i + 1][..i - first] == lines[first..i];
  }

  // ---------------------------------------------------------------------------
  // The loader

  /** The header loop of loadOBJModel: lists of positions, texture coordinates and normals up to the first face line. */
  method ReadHeader(lines: seq<ObjLine>)
    returns (vertices: seq<Vector3>, textures: seq<Vector2>, normals: seq<Vector3>, first: nat)
    ensures first == FirstFace(lines)
    ensures vertices == Positions(lines[..first]) && textures == Textures(lines[..first])
    ensures normals == Normals(lines[..first])
  {
    vertices, textures, normals := [], [], [];
    first := 0;
    while first < |lines| && !lines[first].FaceLine?
      invariant first <= |lines|
      invariant forall k :: 0 <= k < first ==> !lines[k].FaceLine?
      invariant vertices == Positions(lines[..first]) && textures == Textures(lines[..first])
      invariant normals == Normals(lines[..first])
    {
      HeaderStep(lines, first);
      match lines[first] {
        case PositionLine(position) =>
          vertices := vertices + [position];
        case TextureLine(coordinate) =>
          textures := textures + [coordinate];
        case NormalLine(normal) =>
          normals := normals + [normal];
        case _ =>
      }
      first := first + 1;
    }
  }

  /**
   * processVertex: append the 0-based position index, then write the texture
   * coordinate (v flipped) and the normal into the slots of that position.
   */
  method ProcessVertex(vertexData: seq<int>, indices: seq<int>, textures: seq<Vector2>, normals: seq<Vector3>,
                       textureArray: array<real>, normalsArray: array<real>, ghost count: nat)
    returns (r: Result<seq<int>, LoadError>)
    requires textureArray != normalsArray
    requires textureArray.Length == 2 * count && normalsArray.Length == 3 * count
    modifies textureArray, normalsArray
    ensures var spec := ScatterVertex(Scatter(indices, old(textureArray[..]), old(normalsArray[..])), vertexData,
                                      count, textures, normals);
      && (r.Ok? <==> spec.Ok?)
      && (r.Err? ==> r.error == spec.error)
      && (r.Ok? ==> spec.value == Scatter(r.value, textureArray[..], normalsArray[..]))
  {
    if |vertexData| < 1 {
      return Err(MalformedFace);
    }
    var currentVertexPointer := vertexData[0] - 1;
    var indices' := indices + [currentVertexPointer];
    if |vertexData| < 2 {
      return Err(MalformedFace);
    }
    if !(0 <= vertexData[1] - 1 < |textures|) {
      return Err(AttributeIndexOutOfRange);
    }
    var currentTexture := textures[vertexData[1] - 1];
    if !(0 <= currentVertexPointer * 2 < textureArray.Length) {
      return Err(VertexIndexOutOfRange);
    }
    textureArray[currentVertexPointer * 2] := currentTexture.x;
    textureArray[currentVertexPointer * 2 + 1] := 1.0 - currentTexture.y;
    if |vertexData| < 3 {
      return Err(MalformedFace);
    }
    if !(0 <= vertexData[2] - 1 < |normals|) {
      return Err(AttributeIndexOutOfRange);
    }
    var currentNormal := normals[vertexData[2] - 1];
    normalsArray[currentVertexPointer * 3] := currentNormal.x;
    normalsArray[currentVertexPointer * 3 + 1] := currentNormal.y;
    normalsArray[currentVertexPointer * 3 + 2] := currentNormal.z;
    r := Ok(indices');
  }

  /** One face line of the face loop: its first three descriptors, processed in order. */
  method ProcessFaceLine(face: ObjLine, indices: seq<int>, textures: seq<Vector2>, normals: seq<Vector3>,
                         textureArray: array<real>, normalsArray: array<real>, ghost count: nat)
    returns (r: Result<seq<int>, LoadError>)
    requires face.FaceLine? && textureArray != normalsArray
    requires textureArray.Length == 2 * count && normalsArray.Length == 3 * count
    modifies textureArray, normalsArray
    ensures var spec := ScatterFace(Scatter(indices, old(textureArray[..]), old(normalsArray[..])), face,
                                    count, textures, normals);
      && (r.Ok? <==> spec.Ok?)
      && (r.Err? ==> r.error == spec.error)
      && (r.Ok? ==> spec.value == Scatter(r.value, textureArray[..], normalsArray[..]))
  {
    var currentLine := face.descriptors;
    if |currentLine| < 3 {
      return Err(MalformedFace);
    }
    ghost var st := Scatter(indices, textureArray[..], normalsArray[..]);
    ghost var d3 := currentLine[..3];
    assert d3[..0] == [] && d3[..3] == d3;
    var emitted := indices;
    for k := 0 to 3
      invariant ScatterCorners(st, d3[..k], count, textures, normals) == Ok(Scatter(emitted, textureArray[..], normalsArray[..]))
    {
      ghost var mid := Scatter(emitted, textureArray[..], normalsArray[..]);
      ScatterCornersStep(st, d3, k, count, textures, normals);
      assert d3[k] == currentLine[k];
      var step := ProcessVertex(currentLine[k], emitted, textures, normals, textureArray, normalsArray, count);
      if step.Err? {
        ScatterCornersFailAt(st, d3, k, mid, count, textures, normals);
        return Err(step.error);
      }
      emitted := step.value;
    }
    r := Ok(emitted);
  }

  /** A run of face lines that reached `mid` after n faces reaches what face n makes of `mid` after n + 1. */
  lemma {:induction false} ScatterFacesAdvance(st: Scatter, faces: seq<ObjLine>, n: nat, mid: Scatter, count: nat,
                                               textures: seq<Vector2>, normals: seq<Vector3>)
    requires Fits(st, count) && Fits(mid, count) && AllFaces(faces) && n < |faces|
    requires ScatterFaces(st, faces[..n], count, textures, normals) == Ok(mid)
    ensures ScatterFaces(st, faces[..n + 1], count, textures, normals) == ScatterFace(mid, faces[n], count, textures, normals)
  {
    assert faces[..n + 1][..n] == faces[..n];
  }

  /**
   * One iteration of the face loop, as a step of the face lines it belongs to:
   * face n of `faces`, processed after the faces before it.
   */
  method ReadFaceLine(face: ObjLine, indices: seq<int>, textures: seq<Vector2>, normals: seq<Vector3>,
                      texturesArray: array<real>, normalsArray: array<real>, ghost count: nat,
                      ghost start: Scatter, ghost faces: seq<ObjLine>, ghost n: nat)
    returns (r: Result<seq<int>, LoadError>)
    requires texturesArray != normalsArray
    requires texturesArray.Length == 2 * count && normalsArray.Length == 3 * count
    requires Fits(start, count) && AllFaces(faces) && n < |faces| && faces[n] == face
    requires ScatterFaces(start, faces[..n], count, textures, normals) == Ok(Scatter(indices, texturesArray[..], normalsArray[..]))
    modifies texturesArray, normalsArray
    ensures r.Err? ==> ScatterFaces(start, faces, count, textures, normals) == Err(r.error)
    ensures r.Ok? ==>
      ScatterFaces(start, faces[..n + 1], count, textures, normals) == Ok(Scatter(r.value, texturesArray[..], normalsArray[..]))
  {
    ghost var mid := Scatter(indices, texturesArray[..], normalsArray[..]);
    ScatterFacesAdvance(start, faces, n, mid, count, textures, normals);
    r := ProcessFaceLine(face, indices, textures, normals, texturesArray, normalsArray, count);
    if r.Err? {
      ScatterFacesStopsAtFailure(start, faces, n + 1, count, textures, normals);
    }
  }

  /**
   * The face loop of loadOBJModel, from the first face line to the end of the
   * file: face lines are processed and every other line is skipped.
   */
  method ReadFaces(lines: seq<ObjLine>, first: nat, textures: seq<Vector2>, normals: seq<Vector3>,
                   texturesArray: array<real>, normalsArray: array<real>, ghost count: nat)
    returns (r: Result<seq<int>, LoadError>)
    requires first <= |lines| && texturesArray != normalsArray
    requires texturesArray.Length == 2 * count && normalsArray.Length == 3 * count
    modifies texturesArray, normalsArray
    ensures var spec := ScatterFaces(Scatter([], old(texturesArray[..]), old(normalsArray[..])), FaceLines(lines[first..]),
                                     count, textures, normals);
      && (r.Ok? <==> spec.Ok?)
      && (r.Err? ==> r.error == spec.error)
      && (r.Ok? ==> spec.value == Scatter(r.value, texturesArray[..], normalsArray[..]))
  {
    ghost var start := Scatter([], texturesArray[..], normalsArray[..]);
    ghost var faces := FaceLines(lines[first..]);
    var indices: seq<int> := [];
    var i := first;
    assert lines[first..first] == [];
    while i < |lines|
      invariant first <= i <= |lines|
      invariant ScatterFaces(start, FaceLines(lines[first..i]), count, textures, normals)
             == Ok(Scatter(indices, texturesArray[..], normalsArray[..]))
    {
      if !lines[i].FaceLine? {
        OtherLineSkipped(lines, first, i);
        i := i + 1;
        continue;
      }
      FaceLineAt(lines, first, i);
      var result := ReadFaceLine(lines[i], indices, textures, normals, texturesArray, normalsArray, count,
                                 start, faces, |FaceLines(lines[first..i])|);
      if result.Err? {
        return Err(result.error);
      }
      indices := result.value;
      i := i + 1;
    }
    assert lines[first..i] == lines[first..];
    r := Ok(indices);
  }

  /** The position flattening of loadOBJModel: three floats per position, in parse order. */
  method FlattenPositions(vertices: seq<Vector3>) returns (verticesArray: array<real>)
    ensures fresh(verticesArray)
    ensures verticesArray[..] == Flatten3(vertices)
  {
    verticesArray := new real[|vertices| * 3];
    var vertexPointer := 0;
    for k := 0 to |vertices|
      invariant vertexPointer == 3 * k
      invariant verticesArray[..vertexPointer] == Flatten3(vertices[..k])
    {
      var vertex := vertices[k];
      assert vertices[..k + 1][..k] == vertices[..k];
      verticesArray[vertexPointer] := vertex.x;
      vertexPointer := vertexPointer + 1;
      verticesArray[vertexPointer] := vertex.y;
      vertexPointer := vertexPointer + 1;
      verticesArray[vertexPointer] := vertex.z;
      vertexPointer := vertexPointer + 1;
    }
    assert vertices[..|vertices|] == vertices && verticesArray[..] == verticesArray[..vertexPointer];
  }

  /** The index copy of loadOBJModel: the index list into a new array, in order. */
  method CopyIndices(indices: seq<int>) returns (indicesArray: array<int>)
    ensures fresh(indicesArray)
    ensures indicesArray[..] == indices
  {
    indicesArray := new int[|indices|];
    for i := 0 to |indices|
      invariant indicesArray[..i] == indices[..i]
    {
      indicesArray[i] := indices[i];
    }
  }

  /** loadOBJModel without the file and the upload: the four arrays, or why the load fails. */
  method LoadObjModel(lines: seq<ObjLine>) returns (r: Result<ObjArrays, LoadError>)
    ensures r == ModelOf(lines)
  {
    var vertices, textures, normals, first := ReadHeader(lines);
    if first == |lines| {
      return Err(NoFaceLine);
    }
    var texturesArray := new real[|vertices| * 2](_ => 0.0);
    var normalsArray := new real[|vertices| * 3](_ => 0.0);
    assert texturesArray[..] == Zeros(2 * |vertices|) && normalsArray[..] == Zeros(3 * |vertices|);
    var faces := ReadFaces(lines, first, textures, normals, texturesArray, normalsArray, |vertices|);
    if faces.Err? {
      return Err(faces.error);
    }
    var indices := faces.value;
    var verticesArray := FlattenPositions(vertices);
    var indicesArray := CopyIndices(indices);
    r := Ok(ObjArrays(verticesArray[..], texturesArray[..], normalsArray[..], indicesArray[..]));
  }
}
