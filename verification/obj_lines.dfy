/**
 * A Wavefront OBJ file as both loaders see it: a sequence of lines, each already
 * classified by its prefix ("v ", "vt ", "vn ", "f ", anything else) and with its
 * numeric fields parsed. A face line keeps every space-separated descriptor after
 * the "f", and each descriptor keeps every "/"-separated integer it holds, so that
 * short faces and short descriptors stay visible to the loaders.
 */
module ObjLines {
  import opened Vectors

  datatype ObjLine =
    | PositionLine(position: Vector3)          // "v x y z"
    | TextureLine(coordinate: Vector2)         // "vt u v"
    | NormalLine(normal: Vector3)              // "vn x y z"
    | FaceLine(descriptors: seq<seq<int>>)     // "f p/t/n p/t/n p/t/n ..."
    | OtherLine                                // comments, groups, materials, blank lines

  /**
   * Why a load fails. Each stands for a Java runtime exception that escapes the
   * loader: a missing face line ends the header loop on a null line, a face with
   * fewer than three descriptors or a descriptor with fewer than three fields
   * indexes past the split array, and a face index outside a list or an array
   * is an out-of-bounds access.
   */
  datatype LoadError =
    | NoFaceLine
    | MalformedFace
    | VertexIndexOutOfRange
    | AttributeIndexOutOfRange

  /** Index of the first face line, or |lines| when there is none. */
  function FirstFace(lines: seq<ObjLine>): (f: nat)
    ensures f <= |lines|
    ensures f < |lines| ==> lines[f].FaceLine?
    ensures forall i :: 0 <= i < f ==> !lines[i].FaceLine?
  {
    if lines == [] then 0
    else if lines[0].FaceLine? then 0
    else 1 + FirstFace(lines[1..])
  }

  /** The first face line is the one every earlier line is not. */
  lemma {:induction false} FirstFaceAt(lines: seq<ObjLine>, first: nat)
    requires first <= |lines| && (first < |lines| ==> lines[first].FaceLine?)
    requires forall i :: 0 <= i < first ==> !lines[i].FaceLine?
    ensures FirstFace(lines) == first
  {
    if first > 0 {
      FirstFaceAt(lines[1..], first - 1);
    }
  }

  /** The end of the run of consecutive face lines that starts at `start`. */
  function FaceRunEnd(lines: seq<ObjLine>, start: nat): (e: nat)
    requires start <= |lines|
    ensures start <= e <= |lines|
    ensures forall i :: start <= i < e ==> lines[i].FaceLine?
    ensures e < |lines| ==> !lines[e].FaceLine?
    decreases |lines| - start
  {
    if start == |lines| || !lines[start].FaceLine? then start
    else FaceRunEnd(lines, start + 1)
  }

  /** A face line at `i` inside the run from `start` lies before its end. */
  lemma {:induction false} FaceRunContinues(lines: seq<ObjLine>, start: nat, i: nat)
    requires start <= |lines| && start <= i <= FaceRunEnd(lines, start)
    requires i < |lines| && lines[i].FaceLine?
    ensures i < FaceRunEnd(lines, start)
  {
  }

  /** A position inside the run from `start` where no face line follows is the end of the run. */
  lemma {:induction false} FaceRunStops(lines: seq<ObjLine>, start: nat, i: nat)
    requires start <= |lines| && start <= i <= FaceRunEnd(lines, start)
    requires i == |lines| || !lines[i].FaceLine?
    ensures i == FaceRunEnd(lines, start)
  {
  }

  /** The positions of the "v " lines, in file order. */
  function Positions(lines: seq<ObjLine>): seq<Vector3>
  {
    if lines == [] then []
    else
      var last := lines[|lines| - 1];
      Positions(lines[..|lines| - 1]) + (if last.PositionLine? then [last.position] else [])
  }

  /** The coordinates of the "vt " lines, in file order. */
  function Textures(lines: seq<ObjLine>): seq<Vector2>
  {
    if lines == [] then []
    else
      var last := lines[|lines| - 1];
      Textures(lines[..|lines| - 1]) + (if last.TextureLine? then [last.coordinate] else [])
  }

  /** The vectors of the "vn " lines, in file order. */
  function Normals(lines: seq<ObjLine>): seq<Vector3>
  {
    if lines == [] then []
    else
      var last := lines[|lines| - 1];
      Normals(lines[..|lines| - 1]) + (if last.NormalLine? then [last.normal] else [])
  }

  /** Reading one more line adds its own field, if it has one, to the list its prefix selects. */
  lemma {:induction false} HeaderStep(lines: seq<ObjLine>, i: nat)
    requires i < |lines|
    ensures Positions(lines[..i + 1]) == Positions(lines[..i]) + (if lines[i].PositionLine? then [lines[i].position] else [])
    ensures Textures(lines[..i + 1]) == Textures(lines[..i]) + (if lines[i].TextureLine? then [lines[i].coordinate] else [])
    ensures Normals(lines[..i + 1]) == Normals(lines[..i]) + (if lines[i].NormalLine? then [lines[i].normal] else [])
  {
    assert lines[..i + 1][..i] == lines[..i];
  }

  /** The face lines among `lines`, in order (the older loader skips everything else). */
  function FaceLines(lines: seq<ObjLine>): (faces: seq<ObjLine>)
    ensures forall i :: 0 <= i < |faces| ==> faces[i].FaceLine?
  {
    if lines == [] then []
    else
      var last := lines[|lines| - 1];
      FaceLines(lines[..|lines| - 1]) + (if last.FaceLine? then [last] else [])
  }

  predicate AllFaces(lines: seq<ObjLine>)
  {
    forall i :: 0 <= i < |lines| ==> lines[i].FaceLine?
  }
}
