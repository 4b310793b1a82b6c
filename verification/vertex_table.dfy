/**
 * The vertex table of the OBJ converter as values, and what its face-by-face
 * construction guarantees (src/OBJConverter/OBJFileLoader.java).
 *
 * The table is an arena: entry i is the vertex with index i, and a duplicate link
 * is the index of the duplicate. A face corner (position, texture, normal) is
 * resolved to one table index: an unset vertex takes the pair, a vertex that
 * already has the pair is reused, and otherwise the duplicate chain is walked and
 * either a vertex with the pair is found on it or a new one is appended at its end.
 */
module VertexTable {
  import opened Wrappers
  import opened Vectors
  import opened ObjLines
  import opened ObjVertex

  type Table = seq<VertexRecord>

  /** Entry i may link only to a later entry that shares its position. */
  predicate LinkOk(table: Table, i: nat)
    requires i < |table|
  {
    match table[i].duplicate
    case None => true
    case Some(d) => i < d < |table| && table[d].position == table[i].position
  }

  /** Every entry carries its own index and has a well-formed duplicate link. */
  predicate WellLinked(table: Table)
  {
    && (forall i :: 0 <= i < |table| ==> table[i].index == i)
    && (forall i {:trigger LinkOk(table, i)} :: 0 <= i < |table| ==> LinkOk(table, i))
  }

  /** `j` lies on the duplicate chain that starts at `from`, `from` included. */
  predicate OnChain(table: Table, from: int, j: int)
    decreases |table| - from
  {
    && 0 <= from <= j < |table|
    && (|| j == from
        || (&& table[from].duplicate.Some?
            && from < table[from].duplicate.value
            && OnChain(table, table[from].duplicate.value, j)))
  }

  /** The last entry of the chain that starts at `from`. */
  function Tail(table: Table, from: nat): (last: nat)
    requires WellLinked(table) && from < |table|
    ensures last < |table| && OnChain(table, from, last) && table[last].duplicate.None?
    decreases |table| - from
  {
    match table[from].duplicate
    case None => from
    case Some(d) => assert LinkOk(table, from); Tail(table, d)
  }

  /**
   * `after` is `before` with possibly more entries: no entry changes its index,
   * position or length, and an entry whose pair is set keeps that pair.
   */
  predicate Grows(before: Table, after: Table)
  {
    && |before| <= |after|
    && forall i :: 0 <= i < |before| ==>
         && after[i].index == before[i].index
         && after[i].position == before[i].position
         && after[i].length == before[i].length
         && (!before[i].IsNotSet() ==>
               after[i].textureIndex == before[i].textureIndex && after[i].normalIndex == before[i].normalIndex)
  }

  /**
   * A new entry with the requested pair, appended at the end of the table and linked
   * as the duplicate of `last`, the entry that ends a chain.
   */
  function Split(table: Table, last: nat, texture: int, normal: int): (res: (Table, nat))
    requires last < |table|
    ensures |res.0| == |table| + 1 && res.1 == |table|
  {
    var k := |table|;
    var added := VertexRecord(k, table[last].position, table[last].length, texture, normal, None);
    (table[last := table[last].(duplicate := Some(k))] + [added], k)
  }

  /**
   * Splitting at the tail of a chain keeps the table well linked, only grows it,
   * and emits an entry with the requested pair.
   */
  lemma {:induction false} SplitSound(table: Table, last: nat, texture: int, normal: int)
    requires WellLinked(table) && last < |table| && table[last].duplicate.None?
    ensures var res := Split(table, last, texture, normal);
      && WellLinked(res.0) && Grows(table, res.0)
      && res.0[res.1].HasSameTextureAndNormal(texture, normal)
  {
    var after := Split(table, last, texture, normal).0;
    forall i | 0 <= i < |after|
      ensures LinkOk(after, i)
    {
      if i < |table| && i != last {
        assert LinkOk(table, i);
      }
    }
  }

  /**
   * The chain walk for a vertex whose pair is already set: the new table and the
   * index to emit. A link always points further down the table in a well-linked
   * table (WalkSound); the walk follows only such links, which makes it total.
   */
  function Walk(table: Table, cur: nat, texture: int, normal: int): (res: (Table, nat))
    requires cur < |table|
    ensures |table| <= |res.0|
    decreases |table| - cur
  {
    if table[cur].HasSameTextureAndNormal(texture, normal) then (table, table[cur].index)
    else
      match table[cur].duplicate
      case Some(d) => if cur < d < |table| then Walk(table, d, texture, normal) else (table, cur)
      case None => Split(table, cur, texture, normal)
  }

  /**
   * On a well-linked table the walk keeps the table well linked, only grows it, and
   * emits an entry with the requested pair: the table itself when the pair is found,
   * or a new last entry.
   */
  lemma {:induction false} WalkSound(table: Table, cur: nat, texture: int, normal: int)
    requires WellLinked(table) && cur < |table|
    ensures var res := Walk(table, cur, texture, normal);
      && WellLinked(res.0) && Grows(table, res.0)
      && res.1 < |res.0| && res.0[res.1].HasSameTextureAndNormal(texture, normal)
      && (res.0 == table || (|res.0| == |table| + 1 && res.1 == |table|))
    decreases |table| - cur
  {
    if !table[cur].HasSameTextureAndNormal(texture, normal) {
      match table[cur].duplicate
      case Some(d) =>
        assert LinkOk(table, cur);
        WalkSound(table, d, texture, normal);
      case None =>
        SplitSound(table, cur, texture, normal);
    }
  }

  /** One face corner with its indices already made 0-based. */
  datatype Corner = Corner(position: int, texture: int, normal: int)

  /** Resolving one corner whose position index is within the table: the new table and the emitted index. */
  function Resolve(table: Table, c: Corner): (res: (Table, nat))
    requires 0 <= c.position < |table|
    ensures |table| <= |res.0|
  {
    var p := c.position;
    if table[p].IsNotSet() then
      (table[p := table[p].(textureIndex := c.texture, normalIndex := c.normal)], p)
    else
      Walk(table, p, c.texture, c.normal)
  }

  /**
   * On a well-linked table resolving keeps the table well linked, only grows it by
   * at most one entry, and emits an entry with the corner's pair.
   */
  lemma {:induction false} ResolveSound(table: Table, c: Corner)
    requires WellLinked(table) && 0 <= c.position < |table|
    ensures var res := Resolve(table, c);
      && WellLinked(res.0) && Grows(table, res.0)
      && res.1 < |res.0| && res.0[res.1].HasSameTextureAndNormal(c.texture, c.normal)
      && (|res.0| == |table| || (|res.0| == |table| + 1 && res.1 == |table|))
  {
    var p := c.position;
    if table[p].IsNotSet() {
      var after := table[p := table[p].(textureIndex := c.texture, normalIndex := c.normal)];
      forall i | 0 <= i < |after|
        ensures LinkOk(after, i)
      {
        assert LinkOk(table, i);
      }
    } else {
      WalkSound(table, p, c.texture, c.normal);
    }
  }

  /** The converter's working state: the vertex table and the index list. */
  datatype Progress = Progress(table: Table, indices: seq<int>)

  /** The table is well linked and every emitted index names one of its entries. */
  predicate Sound(s: Progress)
  {
    && WellLinked(s.table)
    && forall k :: 0 <= k < |s.indices| ==> 0 <= s.indices[k] < |s.table|
  }

  /** Appending one index to the list and replacing the table. */
  function Emit(s: Progress, res: (Table, nat)): Progress
  {
    Progress(res.0, s.indices + [res.1])
  }

  /**
   * One face descriptor, with its 1-based indices: it fails when it has no position
   * field, when the position does not name a table entry, or when it lacks the
   * texture or normal field.
   */
  function ProcessVertex(s: Progress, descriptor: seq<int>): (r: Result<Progress, LoadError>)
    ensures r.Ok? <==> |descriptor| >= 3 && 0 <= descriptor[0] - 1 < |s.table|
    ensures r.Err? ==> r.error == if 0 < |descriptor| && !(0 <= descriptor[0] - 1 < |s.table|)
                                 then VertexIndexOutOfRange else MalformedFace
  {
    if |descriptor| == 0 then Err(MalformedFace)
    else
      var p := descriptor[0] - 1;
      if !(0 <= p < |s.table|) then Err(VertexIndexOutOfRange)
      else if |descriptor| < 3 then Err(MalformedFace)
      else Ok(Emit(s, Resolve(s.table, Corner(p, descriptor[1] - 1, descriptor[2] - 1))))
  }

  /** Face descriptors processed in order, stopping at the first failure. */
  function ProcessCorners(s: Progress, descriptors: seq<seq<int>>): (r: Result<Progress, LoadError>)
  {
    if descriptors == [] then Ok(s)
    else
      var s' :- ProcessCorners(s, descriptors[..|descriptors| - 1]);
      ProcessVertex(s', descriptors[|descriptors| - 1])
  }

  /** One face line: its first three descriptors, in order; further descriptors are ignored. */
  function ProcessFace(s: Progress, face: ObjLine): (r: Result<Progress, LoadError>)
    requires face.FaceLine?
    ensures r.Ok? ==> |face.descriptors| >= 3
  {
    if |face.descriptors| < 3 then Err(MalformedFace)
    else ProcessCorners(s, face.descriptors[..3])
  }

  /** Processing one more descriptor is processing it after the ones before it. */
  lemma {:induction false} ProcessCornersStep(s: Progress, descriptors: seq<seq<int>>, k: nat)
    requires k < |descriptors|
    ensures ProcessCorners(s, descriptors[..k + 1])
         == match ProcessCorners(s, descriptors[..k])
            case Ok(s') => ProcessVertex(s', descriptors[k])
            case Err(e) => Err(e)
  {
    assert descriptors[..k + 1][..k] == descriptors[..k];
  }

  /** A run of face lines, in order, stopping at the first failure. */
  function ProcessFaces(s: Progress, faces: seq<ObjLine>): (r: Result<Progress, LoadError>)
    requires AllFaces(faces)
  {
    if faces == [] then Ok(s)
    else
      var s' :- ProcessFaces(s, faces[..|faces| - 1]);
      ProcessFace(s', faces[|faces| - 1])
  }

  /** Processing one more face line of a run is processing it after the faces before it. */
  lemma {:induction false} ProcessFacesStep(s: Progress, faces: seq<ObjLine>, n: nat)
    requires AllFaces(faces) && n < |faces|
    requires ProcessFaces(s, faces[..n]).Ok?
    ensures ProcessFaces(s, faces[..n + 1]) == ProcessFace(ProcessFaces(s, faces[..n]).value, faces[n])
  {
    assert faces[..n + 1][..n] == faces[..n];
  }

  /** The run stops at its first failing face: a failing prefix decides the outcome of the whole run. */
  lemma {:induction false} ProcessFacesStopsAtFailure(s: Progress, faces: seq<ObjLine>, n: nat)
    requires AllFaces(faces) && n <= |faces|
    requires ProcessFaces(s, faces[..n]).Err?
    ensures ProcessFaces(s, faces) == ProcessFaces(s, faces[..n])
  {
    if n < |faces| {
      var front := faces[..|faces| - 1];
      assert front[..n] == faces[..n];
      ProcessFacesStopsAtFailure(s, front, n);
    } else {
      assert faces[..n] == faces;
    }
  }

  /** A run that reached `p` after `n` faces reaches what face `n` makes of `p` after `n + 1`. */
  lemma {:induction false} FacesAdvance(s: Progress, faces: seq<ObjLine>, n: nat, p: Progress, p': Progress)
    requires AllFaces(faces) && n < |faces|
    requires ProcessFaces(s, faces[..n]) == Ok(p) && ProcessFace(p, faces[n]) == Ok(p')
    ensures ProcessFaces(s, faces[..n + 1]) == Ok(p')
  {
    assert faces[..n + 1][..n] == faces[..n];
  }

  /** A run whose face `n` fails after `n` faces reached `p` fails with that face's error. */
  lemma {:induction false} FacesFailAt(s: Progress, faces: seq<ObjLine>, n: nat, p: Progress)
    requires AllFaces(faces) && n < |faces|
    requires ProcessFaces(s, faces[..n]) == Ok(p) && ProcessFace(p, faces[n]).Err?
    ensures ProcessFaces(s, faces) == ProcessFace(p, faces[n])
  {
    assert faces[..n + 1][..n] == faces[..n];
    ProcessFacesStopsAtFailure(s, faces, n + 1);
  }

  /** Processing stops at the first failing descriptor: a failing prefix decides the outcome of the face. */
  lemma {:induction false} ProcessCornersStopsAtFailure(s: Progress, descriptors: seq<seq<int>>, n: nat)
    requires n <= |descriptors|
    requires ProcessCorners(s, descriptors[..n]).Err?
    ensures ProcessCorners(s, descriptors) == ProcessCorners(s, descriptors[..n])
  {
    if n < |descriptors| {
      var front := descriptors[..|descriptors| - 1];
      assert front[..n] == descriptors[..n];
      ProcessCornersStopsAtFailure(s, front, n);
    } else {
      assert descriptors[..n] == descriptors;
    }
  }

  /** Descriptor k failing after the ones before it reached `p` makes the whole list fail with its error. */
  lemma {:induction false} CornersFailAt(s: Progress, descriptors: seq<seq<int>>, k: nat, p: Progress)
    requires k < |descriptors|
    requires ProcessCorners(s, descriptors[..k]) == Ok(p) && ProcessVertex(p, descriptors[k]).Err?
    ensures ProcessCorners(s, descriptors) == ProcessVertex(p, descriptors[k])
  {
    assert descriptors[..k + 1][..k] == descriptors[..k];
    ProcessCornersStopsAtFailure(s, descriptors, k + 1);
  }

  /** A descriptor that succeeds on a sound state keeps it sound, emits one index and only grows the table. */
  lemma {:induction false} ProcessVertexSound(s: Progress, descriptor: seq<int>)
    requires Sound(s)
    ensures var r := ProcessVertex(s, descriptor);
      r.Ok? ==> && Sound(r.value) && Grows(s.table, r.value.table)
                && |r.value.indices| == |s.indices| + 1 && r.value.indices[..|s.indices|] == s.indices
  {
    if ProcessVertex(s, descriptor).Ok? {
      var c := Corner(descriptor[0] - 1, descriptor[1] - 1, descriptor[2] - 1);
      ResolveSound(s.table, c);
      var r := ProcessVertex(s, descriptor).value;
      assert r.indices[..|s.indices|] == s.indices;
    }
  }

  /** `Grows` is transitive. */
  lemma {:induction false} GrowsTransitive(a: Table, b: Table, c: Table)
    requires Grows(a, b) && Grows(b, c)
    ensures Grows(a, c)
  {
  }

  /**
   * Descriptors that succeed on a sound state keep it sound, emit one index per
   * descriptor after those already emitted, and only grow the table.
   */
  lemma {:induction false} ProcessCornersSound(s: Progress, descriptors: seq<seq<int>>)
    requires Sound(s)
    ensures var r := ProcessCorners(s, descriptors);
      r.Ok? ==> && Sound(r.value) && Grows(s.table, r.value.table)
                && |r.value.indices| == |s.indices| + |descriptors| && r.value.indices[..|s.indices|] == s.indices
  {
    if descriptors != [] {
      var front := descriptors[..|descriptors| - 1];
      ProcessCornersSound(s, front);
      var r := ProcessCorners(s, front);
      if r.Ok? {
        ProcessVertexSound(r.value, descriptors[|descriptors| - 1]);
        var r' := ProcessCorners(s, descriptors);
        if r'.Ok? {
          GrowsTransitive(s.table, r.value.table, r'.value.table);
          assert r'.value.indices[..|r.value.indices|] == r.value.indices;
          assert r'.value.indices[..|s.indices|] == r.value.indices[..|s.indices|];
        }
      }
    }
  }

  /** A face line that succeeds on a sound state keeps it sound, emits three indices and only grows the table. */
  lemma {:induction false} ProcessFaceSound(s: Progress, face: ObjLine)
    requires Sound(s) && face.FaceLine?
    ensures var r := ProcessFace(s, face);
      r.Ok? ==> && Sound(r.value) && Grows(s.table, r.value.table)
                && |r.value.indices| == |s.indices| + 3 && r.value.indices[..|s.indices|] == s.indices
  {
    if |face.descriptors| >= 3 {
      ProcessCornersSound(s, face.descriptors[..3]);
    }
  }

  /**
   * A run of face lines that succeeds on a sound state keeps it sound, emits three
   * indices per face after those already emitted, and only grows the table.
   */
  lemma {:induction false} ProcessFacesSound(s: Progress, faces: seq<ObjLine>)
    requires Sound(s) && AllFaces(faces)
    ensures var r := ProcessFaces(s, faces);
      r.Ok? ==> && Sound(r.value) && Grows(s.table, r.value.table)
                && |r.value.indices| == |s.indices| + 3 * |faces| && r.value.indices[..|s.indices|] == s.indices
  {
    if faces != [] {
      var front := faces[..|faces| - 1];
      ProcessFacesSound(s, front);
      var r := ProcessFaces(s, front);
      if r.Ok? {
        ProcessFaceSound(r.value, faces[|faces| - 1]);
        var r' := ProcessFaces(s, faces);
        if r'.Ok? {
          GrowsTransitive(s.table, r.value.table, r'.value.table);
          assert r'.value.indices[..|r.value.indices|] == r.value.indices;
          assert r'.value.indices[..|s.indices|] == r.value.indices[..|s.indices|];
        }
      }
    }
  }

  /** The vertices that exist before any face: one unset, unlinked entry per position. */
  predicate FreshRoots(table: Table)
  {
    forall i :: 0 <= i < |table| ==>
      && table[i].index == i
      && table[i].textureIndex == NO_INDEX && table[i].normalIndex == NO_INDEX
      && table[i].duplicate.None?
  }

  /** The table built by the "v " lines: entry i is the i-th position, numbered in file order. */
  function Roots(positions: seq<Vector3>, norm: Vector3 -> real): (table: Table)
    ensures |table| == |positions| && FreshRoots(table) && WellLinked(table)
    ensures forall i :: 0 <= i < |table| ==> table[i].position == positions[i] && table[i].length == norm(positions[i])
  {
    seq(|positions|, i requires 0 <= i < |positions| => VertexRecord(i, positions[i], norm(positions[i]), NO_INDEX, NO_INDEX, None))
  }

  /** One more "v " line appends one fresh root for its position. */
  lemma {:induction false} RootsSnoc(positions: seq<Vector3>, p: Vector3, norm: Vector3 -> real)
    ensures Roots(positions + [p], norm)
         == Roots(positions, norm) + [VertexRecord(|positions|, p, norm(p), NO_INDEX, NO_INDEX, None)]
  {
  }

  /** The cleanup pass: every entry still unset gets the pair (0, 0). */
  function RemoveUnused(table: Table): (r: Table)
    ensures |r| == |table|
    ensures forall i :: 0 <= i < |r| ==> !r[i].IsNotSet()
    ensures forall i :: 0 <= i < |r| && !table[i].IsNotSet() ==> r[i] == table[i]
    ensures forall i :: 0 <= i < |r| && table[i].IsNotSet() ==> r[i] == table[i].(textureIndex := 0, normalIndex := 0)
  {
    seq(|table|, i requires 0 <= i < |table| =>
      if table[i].IsNotSet() then table[i].(textureIndex := 0, normalIndex := 0) else table[i])
  }

  /** The cleanup pass touches no link, so a well-linked table stays well linked. */
  lemma {:induction false} RemoveUnusedKeepsLinks(table: Table)
    requires WellLinked(table)
    ensures WellLinked(RemoveUnused(table))
  {
    var r := RemoveUnused(table);
    forall i | 0 <= i < |r|
      ensures LinkOk(r, i)
    {
      assert LinkOk(table, i);
    }
  }

  // ---------------------------------------------------------------------------
  // Chains

  /** Changing anything but the links leaves every chain as it was. */
  lemma {:induction false} SameLinksSameChains(a: Table, b: Table, from: int, j: int)
    requires |a| == |b|
    requires forall i :: 0 <= i < |a| ==> a[i].duplicate == b[i].duplicate
    ensures OnChain(a, from, j) <==> OnChain(b, from, j)
    decreases |a| - from
  {
    if 0 <= from < |a| && j != from && a[from].duplicate.Some? && from < a[from].duplicate.value {
      SameLinksSameChains(a, b, a[from].duplicate.value, j);
    }
  }

  /**
   * After a split at the tail `last`, a chain through `last` gains exactly the new
   * entry and every other chain is unchanged.
   */
  lemma {:induction false} SplitChains(table: Table, last: nat, texture: int, normal: int, from: int, j: int)
    requires WellLinked(table) && last < |table| && table[last].duplicate.None?
    requires 0 <= from < |table|
    ensures OnChain(Split(table, last, texture, normal).0, from, j)
        <==> OnChain(table, from, j) || (j == |table| && OnChain(table, from, last))
    decreases |table| - from
  {
    var after := Split(table, last, texture, normal).0;
    if from == last {
      assert after[from].duplicate == Some(|table|);
      assert OnChain(after, |table|, j) <==> j == |table|;
      assert OnChain(table, from, j) <==> j == from;
    } else if table[from].duplicate.Some? {
      var d := table[from].duplicate.value;
      assert LinkOk(table, from);
      assert after[from] == table[from];
      SplitChains(table, last, texture, normal, d, j);
    } else {
      assert after[from] == table[from];
    }
  }

  /** A walk that meets the requested pair on the chain stops there and changes nothing. */
  lemma {:induction false} WalkFinds(table: Table, cur: nat, texture: int, normal: int, j: int)
    requires WellLinked(table) && cur < |table|
    requires OnChain(table, cur, j) && table[j].HasSameTextureAndNormal(texture, normal)
    ensures Walk(table, cur, texture, normal).0 == table
    ensures OnChain(table, cur, Walk(table, cur, texture, normal).1)
    decreases |table| - cur
  {
    if !table[cur].HasSameTextureAndNormal(texture, normal) {
      assert LinkOk(table, cur);
      WalkFinds(table, table[cur].duplicate.value, texture, normal, j);
    }
  }

  /** A walk that does not meet the requested pair splits at the end of the chain. */
  lemma {:induction false} WalkSplits(table: Table, cur: nat, texture: int, normal: int)
    requires WellLinked(table) && cur < |table|
    requires forall j :: OnChain(table, cur, j) ==> !table[j].HasSameTextureAndNormal(texture, normal)
    ensures Walk(table, cur, texture, normal) == Split(table, Tail(table, cur), texture, normal)
    decreases |table| - cur
  {
    assert OnChain(table, cur, cur);
    if table[cur].duplicate.Some? {
      var d := table[cur].duplicate.value;
      assert LinkOk(table, cur);
      forall j | OnChain(table, d, j)
        ensures !table[j].HasSameTextureAndNormal(texture, normal)
      {
        assert OnChain(table, cur, j);
      }
      WalkSplits(table, d, texture, normal);
    }
  }

  /** Every entry on a chain shares the position of the entry the chain starts from. */
  lemma {:induction false} ChainSharesPosition(table: Table, from: int, j: int)
    requires WellLinked(table) && OnChain(table, from, j)
    ensures table[j].position == table[from].position
    decreases |table| - from
  {
    if j != from {
      assert LinkOk(table, from);
      ChainSharesPosition(table, table[from].duplicate.value, j);
    }
  }

  /** A face line with more than three descriptors is processed as its first three. */
  lemma {:induction false} ExtraDescriptorsIgnored(s: Progress, descriptors: seq<seq<int>>)
    requires |descriptors| > 3
    ensures ProcessFace(s, FaceLine(descriptors)) == ProcessFace(s, FaceLine(descriptors[..3]))
  {
    assert descriptors[..3][..3] == descriptors[..3];
  }

  // ---------------------------------------------------------------------------
  // What a sequence of resolved corners guarantees

  /** The state after resolving `corners`, in order, against `table`. */
  function ResolveAll(table: Table, corners: seq<Corner>): (s: Progress)
    requires forall k :: 0 <= k < |corners| ==> 0 <= corners[k].position < |table|
    ensures |table| <= |s.table| && |s.indices| == |corners|
  {
    if corners == [] then Progress(table, [])
    else
      var s := ResolveAll(table, corners[..|corners| - 1]);
      Emit(s, Resolve(s.table, corners[|corners| - 1]))
  }

  /** Resolving corners on a well-linked table keeps it sound and only grows it. */
  lemma {:induction false} ResolveAllSound(table: Table, corners: seq<Corner>)
    requires WellLinked(table)
    requires forall k :: 0 <= k < |corners| ==> 0 <= corners[k].position < |table|
    ensures Sound(ResolveAll(table, corners)) && Grows(table, ResolveAll(table, corners).table)
  {
    if corners != [] {
      var init := corners[..|corners| - 1];
      ResolveAllSound(table, init);
      var s := ResolveAll(table, init);
      ResolveSound(s.table, corners[|corners| - 1]);
      GrowsTransitive(table, s.table, Resolve(s.table, corners[|corners| - 1]).0);
    }
  }

  /** A corner that a well-formed file produces: a root position and two non-negative attribute indices. */
  predicate ValidCorner(c: Corner, roots: nat)
  {
    0 <= c.position < roots && c.texture >= 0 && c.normal >= 0
  }

  /** Every corner of the list is valid. */
  predicate ValidCorners(corners: seq<Corner>, roots: nat)
  {
    forall k :: 0 <= k < |corners| ==>
      0 <= corners[k].position < roots && corners[k].texture >= 0 && corners[k].normal >= 0
  }

  predicate Unreferenced(corners: seq<Corner>, i: int)
  {
    forall k :: 0 <= k < |corners| ==> corners[k].position != i
  }

  predicate SamePair(a: VertexRecord, b: VertexRecord)
  {
    a.HasSameTextureAndNormal(b.textureIndex, b.normalIndex)
  }

  /** Every entry on the chain of root r has r's position. */
  ghost predicate ChainPositions(roots: Table, t: Table)
  {
    forall r, i :: 0 <= r < |roots| && OnChain(t, r, i) ==> t[i].position == roots[r].position
  }

  /** The chains of two different roots never meet. */
  ghost predicate ChainsDisjoint(n: nat, t: Table)
  {
    forall r1, r2, i :: 0 <= r1 < n && 0 <= r2 < n && r1 != r2 && OnChain(t, r1, i) ==> !OnChain(t, r2, i)
  }

  /** No two entries of one root's chain carry the same pair. */
  ghost predicate ChainPairsDistinct(n: nat, t: Table)
  {
    forall r, i, j :: 0 <= r < n && OnChain(t, r, i) && OnChain(t, r, j) && i != j ==> !SamePair(t[i], t[j])
  }

  /** Exactly the roots that no corner refers to are unset, and an unset entry has no duplicate. */
  ghost predicate UnsetExactly(n: nat, corners: seq<Corner>, t: Table)
  {
    && (forall i :: 0 <= i < |t| ==> (t[i].IsNotSet() <==> i < n && Unreferenced(corners, i)))
    && (forall i :: 0 <= i < |t| && t[i].IsNotSet() ==> t[i].duplicate.None?)
  }

  /** Corner k was resolved to an entry on its root's chain that carries its pair. */
  ghost predicate CornersResolved(corners: seq<Corner>, s: Progress)
    requires |s.indices| == |corners|
  {
    forall k :: 0 <= k < |corners| ==>
      && OnChain(s.table, corners[k].position, s.indices[k])
      && s.table[s.indices[k]].HasSameTextureAndNormal(corners[k].texture, corners[k].normal)
  }

  /** Every set entry was emitted for some corner. */
  ghost predicate AllEmitted(s: Progress)
  {
    forall i :: 0 <= i < |s.table| && !s.table[i].IsNotSet() ==> i in s.indices
  }

  /** The invariant of the vertex table while valid corners are resolved against the fresh roots `roots`. */
  ghost predicate Consistent(roots: Table, corners: seq<Corner>, s: Progress)
  {
    && WellLinked(s.table)
    && |roots| <= |s.table|
    && |s.indices| == |corners|
    && ValidCorners(corners, |roots|)
    && ChainPositions(roots, s.table)
    && ChainsDisjoint(|roots|, s.table)
    && ChainPairsDistinct(|roots|, s.table)
    && UnsetExactly(|roots|, corners, s.table)
    && CornersResolved(corners, s)
    && AllEmitted(s)
  }

  lemma {:induction false} ConsistentInitially(roots: Table)
    requires FreshRoots(roots) && WellLinked(roots)
    ensures Consistent(roots, [], Progress(roots, []))
  {
    forall from, j | OnChain(roots, from, j)
      ensures j == from
    {
    }
  }

  /** The emitted-index list grows by one entry; every earlier entry stays emitted. */
  lemma {:induction false} EmittedAfterEmit(s: Progress, t': Table, e: nat)
    requires AllEmitted(s) && |s.table| <= |t'|
    requires forall i :: 0 <= i < |t'| && !t'[i].IsNotSet() ==> i == e || (i < |s.table| && !s.table[i].IsNotSet())
    ensures AllEmitted(Emit(s, (t', e)))
  {
  }


  /** Referencing position p again leaves the unset roots as they were, apart from p itself. */
  lemma {:induction false} UnreferencedAfter(corners: seq<Corner>, c: Corner, i: int)
    requires i != c.position
    ensures Unreferenced(corners + [c], i) <==> Unreferenced(corners, i)
  {
    if !Unreferenced(corners, i) {
      var k :| 0 <= k < |corners| && corners[k].position == i;
      assert (corners + [c])[k] == corners[k];
    }
  }

  /**
   * A step that sets the corner's root, sets or appends nothing else and leaves every
   * other unset entry as it was keeps the unset entries exactly the unreferenced roots.
   */
  lemma {:induction false} UnsetAfterStep(n: nat, corners: seq<Corner>, c: Corner, t: Table, t': Table)
    requires UnsetExactly(n, corners, t) && 0 <= c.position < n <= |t| <= |t'|
    requires !t'[c.position].IsNotSet()
    requires forall i :: 0 <= i < |t| && i != c.position ==> (t'[i].IsNotSet() <==> t[i].IsNotSet())
    requires forall i :: 0 <= i < |t| && t'[i].IsNotSet() ==> t'[i] == t[i]
    requires forall i :: |t| <= i < |t'| ==> !t'[i].IsNotSet()
    ensures UnsetExactly(n, corners + [c], t')
  {
    var cs := corners + [c];
    assert cs[|corners|].position == c.position;
    forall i | 0 <= i < |t'|
      ensures t'[i].IsNotSet() <==> i < n && Unreferenced(cs, i)
    {
      if i < |t| && i != c.position {
        UnreferencedAfter(corners, c, i);
      }
    }
  }

  /**
   * A step that keeps every earlier corner's entry on its root's chain and emits an
   * entry on the new corner's chain carrying its pair keeps every corner resolved.
   */
  lemma {:induction false} ResolvedAfterStep(n: nat, corners: seq<Corner>, s: Progress, c: Corner, res: (Table, nat))
    requires |s.indices| == |corners| && ValidCorners(corners, n) && CornersResolved(corners, s)
    requires Grows(s.table, res.0)
    requires forall k :: 0 <= k < |corners| ==> OnChain(res.0, corners[k].position, s.indices[k])
    requires OnChain(res.0, c.position, res.1) && res.0[res.1].HasSameTextureAndNormal(c.texture, c.normal)
    ensures CornersResolved(corners + [c], Emit(s, res))
  {
    var s' := Emit(s, res);
    var cs := corners + [c];
    forall k | 0 <= k < |cs|
      ensures OnChain(s'.table, cs[k].position, s'.indices[k])
      ensures s'.table[s'.indices[k]].HasSameTextureAndNormal(cs[k].texture, cs[k].normal)
    {
      if k < |corners| {
        assert s'.indices[k] == s.indices[k] && cs[k] == corners[k];
        assert OnChain(s.table, corners[k].position, s.indices[k]);
        assert !s.table[s.indices[k]].IsNotSet();
      } else {
        assert s'.indices[k] == res.1 && cs[k] == c;
      }
    }
  }

  /** Adding a valid corner to valid corners. */
  lemma {:induction false} ValidCornersAppend(corners: seq<Corner>, c: Corner, n: nat)
    requires ValidCorners(corners, n) && ValidCorner(c, n)
    ensures ValidCorners(corners + [c], n)
  {
    var cs := corners + [c];
    forall k | 0 <= k < |cs|
      ensures 0 <= cs[k].position < n && cs[k].texture >= 0 && cs[k].normal >= 0
    {
      if k < |corners| {
        assert cs[k] == corners[k];
      }
    }
  }

  /** Resolving a corner at a root that no corner referred to yet. */
  lemma {:induction false} StepUnset(roots: Table, corners: seq<Corner>, s: Progress, c: Corner)
    requires Consistent(roots, corners, s) && ValidCorner(c, |roots|)
    requires s.table[c.position].IsNotSet()
    ensures Consistent(roots, corners + [c], Emit(s, Resolve(s.table, c)))
  {
    var t := s.table;
    var n := |roots|;
    var p := c.position;
    ResolveSound(t, c);
    var res := Resolve(t, c);
    var t' := res.0;
    assert t' == t[p := t[p].(textureIndex := c.texture, normalIndex := c.normal)] && res.1 == p;
    forall from, j
      ensures OnChain(t', from, j) <==> OnChain(t, from, j)
    {
      SameLinksSameChains(t', t, from, j);
    }
    ValidCornersAppend(corners, c, n);
    UnsetAfterStep(n, corners, c, t, t');
    assert OnChain(t', p, p);
    ResolvedAfterStep(n, corners, s, c, res);
    EmittedAfterEmit(s, t', p);
  }

  /** Resolving a corner whose pair is already on its root's chain: nothing changes but the index list. */
  lemma {:induction false} StepFound(roots: Table, corners: seq<Corner>, s: Progress, c: Corner, j: int)
    requires Consistent(roots, corners, s) && ValidCorner(c, |roots|)
    requires !s.table[c.position].IsNotSet()
    requires OnChain(s.table, c.position, j) && s.table[j].HasSameTextureAndNormal(c.texture, c.normal)
    ensures Consistent(roots, corners + [c], Emit(s, Resolve(s.table, c)))
  {
    var t := s.table;
    var n := |roots|;
    WalkFinds(t, c.position, c.texture, c.normal, j);
    ResolveSound(t, c);
    var res := Resolve(t, c);
    assert res.0 == t;
    ValidCornersAppend(corners, c, n);
    UnsetAfterStep(n, corners, c, t, t);
    ResolvedAfterStep(n, corners, s, c, res);
    EmittedAfterEmit(s, t, res.1);
  }

  /** After a split at the end of root p's chain, the chains of two roots still never meet. */
  lemma {:induction false} SplitKeepsDisjoint(n: nat, t: Table, last: nat, texture: int, normal: int)
    requires WellLinked(t) && last < |t| && t[last].duplicate.None? && n <= |t|
    requires ChainsDisjoint(n, t)
    ensures ChainsDisjoint(n, Split(t, last, texture, normal).0)
  {
    var t' := Split(t, last, texture, normal).0;
    forall r1, r2, i | 0 <= r1 < n && 0 <= r2 < n && r1 != r2 && OnChain(t', r1, i)
      ensures !OnChain(t', r2, i)
    {
      SplitChains(t, last, texture, normal, r1, i);
      SplitChains(t, last, texture, normal, r2, i);
      if i == |t| {
        assert OnChain(t, r1, last);
      }
    }
  }

  /** After a split for a pair not yet on root p's chain, no chain holds a pair twice. */
  lemma {:induction false} SplitKeepsPairsDistinct(n: nat, t: Table, p: nat, last: nat, texture: int, normal: int)
    requires WellLinked(t) && p < n <= |t| && last < |t| && t[last].duplicate.None? && OnChain(t, p, last)
    requires ChainsDisjoint(n, t) && ChainPairsDistinct(n, t)
    requires forall j :: OnChain(t, p, j) ==> !t[j].HasSameTextureAndNormal(texture, normal)
    ensures ChainPairsDistinct(n, Split(t, last, texture, normal).0)
  {
    var t' := Split(t, last, texture, normal).0;
    forall r, i, j | 0 <= r < n && OnChain(t', r, i) && OnChain(t', r, j) && i != j
      ensures !SamePair(t'[i], t'[j])
    {
      SplitChains(t, last, texture, normal, r, i);
      SplitChains(t, last, texture, normal, r, j);
      if i == |t| || j == |t| {
        assert OnChain(t, r, last);
        assert r == p;
      }
    }
  }

  /** After a split at the end of root p's chain, every chain entry still has its root's position. */
  lemma {:induction false} SplitKeepsPositions(roots: Table, t: Table, p: nat, last: nat, texture: int, normal: int)
    requires WellLinked(t) && p < |roots| <= |t| && last < |t| && t[last].duplicate.None? && OnChain(t, p, last)
    requires ChainPositions(roots, t) && ChainsDisjoint(|roots|, t)
    ensures ChainPositions(roots, Split(t, last, texture, normal).0)
  {
    var t' := Split(t, last, texture, normal).0;
    forall r, i | 0 <= r < |roots| && OnChain(t', r, i)
      ensures t'[i].position == roots[r].position
    {
      SplitChains(t, last, texture, normal, r, i);
      if i == |t| {
        assert OnChain(t, r, last);
      }
    }
  }

  /** The end of a set root's chain is set: it is the root itself or an entry past the roots. */
  lemma {:induction false} TailIsSet(n: nat, corners: seq<Corner>, t: Table, p: nat, last: nat)
    requires p < n <= |t| && !t[p].IsNotSet() && OnChain(t, p, last)
    requires ChainsDisjoint(n, t) && UnsetExactly(n, corners, t)
    ensures !t[last].IsNotSet()
  {
    if last != p && last < n {
      assert false;
    }
  }

  /** A split touches only the link of the set entry `last` and appends a set entry. */
  lemma {:induction false} SplitUnset(t: Table, last: nat, texture: int, normal: int)
    requires WellLinked(t) && last < |t| && t[last].duplicate.None? && !t[last].IsNotSet()
    requires texture >= 0 && normal >= 0
    ensures var t' := Split(t, last, texture, normal).0;
      && |t'| == |t| + 1
      && (forall i :: 0 <= i < |t| ==> (t'[i].IsNotSet() <==> t[i].IsNotSet()))
      && (forall i :: 0 <= i < |t| && t'[i].IsNotSet() ==> t'[i] == t[i])
      && !t'[|t|].IsNotSet()
  {
  }

  /** Resolving a corner whose pair is not yet on its root's chain: the chain grows by one entry. */
  lemma {:induction false} StepSplit(roots: Table, corners: seq<Corner>, s: Progress, c: Corner)
    requires Consistent(roots, corners, s) && ValidCorner(c, |roots|)
    requires !s.table[c.position].IsNotSet()
    requires forall j :: OnChain(s.table, c.position, j) ==> !s.table[j].HasSameTextureAndNormal(c.texture, c.normal)
    ensures Consistent(roots, corners + [c], Emit(s, Resolve(s.table, c)))
  {
    var t := s.table;
    var n := |roots|;
    var p := c.position;
    WalkSplits(t, p, c.texture, c.normal);
    var last := Tail(t, p);
    ResolveSound(t, c);
    var res := Resolve(t, c);
    var t' := res.0;
    assert res == Split(t, last, c.texture, c.normal);
    assert OnChain(t, p, p);
    TailIsSet(n, corners, t, p, last);
    SplitKeepsPositions(roots, t, p, last, c.texture, c.normal);
    SplitKeepsDisjoint(n, t, last, c.texture, c.normal);
    SplitKeepsPairsDistinct(n, t, p, last, c.texture, c.normal);
    ValidCornersAppend(corners, c, n);
    SplitUnset(t, last, c.texture, c.normal);
    UnsetAfterStep(n, corners, c, t, t');
    forall k | 0 <= k < |corners|
      ensures OnChain(t', corners[k].position, s.indices[k])
    {
      SplitChains(t, last, c.texture, c.normal, corners[k].position, s.indices[k]);
    }
    SplitChains(t, last, c.texture, c.normal, p, |t|);
    ResolvedAfterStep(n, corners, s, c, res);
    EmittedAfterEmit(s, t', |t|);
  }

  lemma {:induction false} ResolveStep(roots: Table, corners: seq<Corner>, s: Progress, c: Corner)
    requires Consistent(roots, corners, s) && ValidCorner(c, |roots|)
    ensures Consistent(roots, corners + [c], Emit(s, Resolve(s.table, c)))
  {
    var t := s.table;
    if t[c.position].IsNotSet() {
      StepUnset(roots, corners, s, c);
    } else if j :| OnChain(t, c.position, j) && t[j].HasSameTextureAndNormal(c.texture, c.normal) {
      StepFound(roots, corners, s, c, j);
    } else {
      StepSplit(roots, corners, s, c);
    }
  }

  lemma {:induction false} ResolveAllConsistent(roots: Table, corners: seq<Corner>)
    requires FreshRoots(roots) && WellLinked(roots)
    requires ValidCorners(corners, |roots|)
    ensures Consistent(roots, corners, ResolveAll(roots, corners))
  {
    if corners == [] {
      ConsistentInitially(roots);
    } else {
      var init, c := corners[..|corners| - 1], corners[|corners| - 1];
      assert init + [c] == corners;
      assert ValidCorners(init, |roots|);
      ResolveAllConsistent(roots, init);
      ResolveStep(roots, init, ResolveAll(roots, init), c);
    }
  }

  /**
   * Resolving valid corners against fresh roots: each emitted index names an entry
   * with exactly the corner's root position and pair.
   */
  lemma {:induction false} ResolveAllPlacesCorners(roots: Table, corners: seq<Corner>)
    requires FreshRoots(roots) && WellLinked(roots)
    requires ValidCorners(corners, |roots|)
    ensures var s := ResolveAll(roots, corners);
      forall k :: 0 <= k < |corners| ==>
        && 0 <= s.indices[k] < |s.table|
        && s.table[s.indices[k]].position == roots[corners[k].position].position
        && s.table[s.indices[k]].HasSameTextureAndNormal(corners[k].texture, corners[k].normal)
  {
    var s := ResolveAll(roots, corners);
    ResolveAllConsistent(roots, corners);
    forall k | 0 <= k < |corners|
      ensures s.table[s.indices[k]].position == roots[corners[k].position].position
    {
      assert OnChain(s.table, corners[k].position, s.indices[k]);
    }
  }

  /** Two corners are given the same index exactly when they are the same (position, texture, normal) triple. */
  lemma {:induction false} ResolveAllDeduplicates(roots: Table, corners: seq<Corner>)
    requires FreshRoots(roots) && WellLinked(roots)
    requires ValidCorners(corners, |roots|)
    ensures var s := ResolveAll(roots, corners);
      forall k1, k2 :: 0 <= k1 < |corners| && 0 <= k2 < |corners| ==>
        (s.indices[k1] == s.indices[k2] <==> corners[k1] == corners[k2])
  {
    var s := ResolveAll(roots, corners);
    ResolveAllConsistent(roots, corners);
    forall k1, k2 | 0 <= k1 < |corners| && 0 <= k2 < |corners|
      ensures s.indices[k1] == s.indices[k2] <==> corners[k1] == corners[k2]
    {
      assert OnChain(s.table, corners[k1].position, s.indices[k1]);
      assert OnChain(s.table, corners[k2].position, s.indices[k2]);
    }
  }

  /**
   * No entry is wasted: the unset entries are exactly the roots no corner refers
   * to, and every set entry is the index emitted for some corner.
   */
  lemma {:induction false} ResolveAllCovers(roots: Table, corners: seq<Corner>)
    requires FreshRoots(roots) && WellLinked(roots)
    requires ValidCorners(corners, |roots|)
    ensures var s := ResolveAll(roots, corners);
      && (forall i :: 0 <= i < |s.table| ==>
            (s.table[i].IsNotSet() <==> i < |roots| && Unreferenced(corners, i)))
      && (forall i :: 0 <= i < |s.table| && !s.table[i].IsNotSet() ==> i in s.indices)
  {
    ResolveAllConsistent(roots, corners);
  }

  /**
   * Resolving a corner that was already resolved changes nothing and emits the
   * index it was given before.
   */
  lemma {:induction false} RevisitReuses(roots: Table, corners: seq<Corner>, s: Progress, k: nat)
    requires Consistent(roots, corners, s) && k < |corners| && ValidCorner(corners[k], |roots|)
    ensures Resolve(s.table, corners[k]) == (s.table, s.indices[k])
  {
    var c := corners[k];
    var t := s.table;
    assert OnChain(t, c.position, s.indices[k]);
    assert !t[c.position].IsNotSet();
    WalkFinds(t, c.position, c.texture, c.normal, s.indices[k]);
    WalkSound(t, c.position, c.texture, c.normal);
  }
}
