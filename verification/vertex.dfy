/**
 * One entry of the OBJ converter's vertex table (src/OBJConverter/Vertex.java).
 *
 * A vertex is created for a position with both attribute indices unset; a face
 * later assigns it a (texture, normal) index pair, and when the same position is
 * needed with another pair a duplicate vertex is created and linked from it.
 * `VertexRecord` is the value view of one vertex, with the duplicate reference
 * replaced by the duplicate's own index in the table.
 */
module ObjVertex {
  import opened Wrappers
  import opened Vectors

  /** The sentinel held by an attribute index that has not been assigned. */
  const NO_INDEX: int := -1

  datatype VertexRecord = VertexRecord(
    index: nat,
    position: Vector3,
    length: real,
    textureIndex: int,
    normalIndex: int,
    duplicate: Option<nat>)
  {
    /** The pair counts as unset as soon as either index still holds the sentinel. */
    predicate IsNotSet()
    {
      textureIndex == NO_INDEX || normalIndex == NO_INDEX
    }

    predicate HasSameTextureAndNormal(texture: int, normal: int)
    {
      textureIndex == texture && normalIndex == normal
    }
  }

  /** Assigning both indices a value other than the sentinel, and only that, makes a vertex set. */
  lemma {:induction false} AssignedPairIsSet(r: VertexRecord, texture: int, normal: int)
    ensures !r.(textureIndex := texture, normalIndex := normal).IsNotSet()
        <==> texture != NO_INDEX && normal != NO_INDEX
  {
  }

  /**
   * After a pair is assigned, the vertex matches a (texture, normal) query exactly
   * when the query is that pair: the reuse test finds the pair just stored.
   */
  lemma {:induction false} AssignedPairMatches(r: VertexRecord, texture: int, normal: int, queryTexture: int, queryNormal: int)
    ensures r.(textureIndex := texture, normalIndex := normal).HasSameTextureAndNormal(queryTexture, queryNormal)
        <==> queryTexture == texture && queryNormal == normal
  {
  }

  class Vertex {
    const index: nat
    const position: Vector3
    const length: real
    var textureIndex: int
    var normalIndex: int
    var duplicateVertex: Vertex?

    /**
     * A new vertex for the table slot `index`; `norm` is the vector-length routine
     * of the vector library, whose float computation is not modelled.
     */
    constructor (index: nat, position: Vector3, norm: Vector3 -> real)
      ensures this.index == index && this.position == position && length == norm(position)
      ensures textureIndex == NO_INDEX && normalIndex == NO_INDEX && duplicateVertex == null
      ensures Record() == VertexRecord(index, position, norm(position), NO_INDEX, NO_INDEX, None)
      ensures IsNotSet()
    {
      this.index := index;
      this.position := position;
      this.length := norm(position);
      textureIndex := NO_INDEX;
      normalIndex := NO_INDEX;
      duplicateVertex := null;
    }

    /** The value view of this vertex: the duplicate link becomes the duplicate's index. */
    function Record(): VertexRecord
      reads this
    {
      VertexRecord(index, position, length, textureIndex, normalIndex,
        if duplicateVertex == null then None else Some(duplicateVertex.index))
    }

    /** isNotSet: either attribute index still holds the sentinel. */
    predicate IsNotSet(): (unset: bool)
      reads this
      ensures unset <==> textureIndex == NO_INDEX || normalIndex == NO_INDEX
    {
      Record().IsNotSet()
    }

    /** hasSameTextureAndNormal: both stored indices equal the queried ones. */
    predicate HasSameTextureAndNormal(texture: int, normal: int): (same: bool)
      reads this
      ensures same <==> textureIndex == texture && normalIndex == normal
    {
      Record().HasSameTextureAndNormal(texture, normal)
    }

    method SetTextureIndex(texture: int)
      modifies this`textureIndex
      ensures Record() == old(Record()).(textureIndex := texture)
    {
      textureIndex := texture;
    }

    method SetNormalIndex(normal: int)
      modifies this`normalIndex
      ensures Record() == old(Record()).(normalIndex := normal)
    {
      normalIndex := normal;
    }

    method SetDuplicateVertex(duplicate: Vertex?)
      modifies this`duplicateVertex
      ensures duplicateVertex == duplicate
      ensures Record() == old(Record()).(duplicate := if duplicate == null then None else Some(duplicate.index))
    {
      duplicateVertex := duplicate;
    }
  }
}
