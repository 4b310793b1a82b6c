/**
 * The batching half of the master renderer (src/renderEngine/MasterRenderer.java):
 * entities submitted for a frame are grouped into one batch per textured model,
 * terrains are queued in submission order, and rendering a frame empties both.
 * The shaders, the projection matrix and every GL call are not part of this model.
 */
module MasterRendering {
  import opened Vectors
  import Terrain

  /**
   * A textured model is a record of a mesh and a texture, compared by value.
   * `rawModel` stands for the RawModel record's value (its VAO id and vertex
   * count), which compares by value too; `texture` stands for the identity of
   * the ModelTexture object, which compares by reference.
   */
  datatype TexturedModel = TexturedModel(rawModel: nat, texture: nat)

  /** An entity: the model it is drawn with and where it stands. */
  datatype Entity = Entity(model: TexturedModel, position: Vector3, rotation: Vector3, scale: real)

  /** The entities of `submitted` drawn with `model`, in submission order. */
  function BatchOf(submitted: seq<Entity>, model: TexturedModel): (batch: seq<Entity>)
    ensures |batch| <= |submitted|
    ensures forall e :: e in batch ==> e in submitted && e.model == model
  {
    if submitted == [] then []
    else
      var last := submitted[|submitted| - 1];
      BatchOf(submitted[..|submitted| - 1], model) + (if last.model == model then [last] else [])
  }

  /** Whether some entity of `submitted` is drawn with `model`. */
  predicate Uses(submitted: seq<Entity>, model: TexturedModel)
  {
    exists i :: 0 <= i < |submitted| && submitted[i].model == model
  }

  /**
   * The batch map that processing `submitted` one entity at a time builds: an
   * entity goes to the end of its model's batch, or opens a batch of its own.
   */
  function Batches(submitted: seq<Entity>): (batches: map<TexturedModel, seq<Entity>>)
    ensures forall m :: m in batches ==> 0 < |batches[m]| <= |submitted|
  {
    if submitted == [] then map[]
    else
      var before := Batches(submitted[..|submitted| - 1]);
      var e := submitted[|submitted| - 1];
      if e.model in before then before[e.model := before[e.model] + [e]] else before[e.model := [e]]
  }

  /**
   * The batch map groups the submitted entities by model: a model has a batch
   * exactly when some submitted entity uses it, and that batch is every such
   * entity in submission order.
   */
  lemma {:induction false} BatchesGroupByModel(submitted: seq<Entity>, model: TexturedModel)
    ensures model in Batches(submitted) <==> Uses(submitted, model)
    ensures model in Batches(submitted) ==> Batches(submitted)[model] == BatchOf(submitted, model)
  {
    if submitted != [] {
      var prefix := submitted[..|submitted| - 1];
      var e := submitted[|submitted| - 1];
      BatchesGroupByModel(prefix, model);
      if Uses(prefix, model) {
        var i :| 0 <= i < |prefix| && prefix[i].model == model;
        assert submitted[i].model == model;
      }
      if Uses(submitted, model) && e.model != model {
        var i :| 0 <= i < |submitted| && submitted[i].model == model;
        assert prefix[i].model == model;
      }
      if e.model == model && model !in Batches(prefix) {
        BatchOfUnused(prefix, model);
      }
    }
  }

  /** A model no entity uses has an empty batch. */
  lemma {:induction false} BatchOfUnused(submitted: seq<Entity>, model: TexturedModel)
    requires !Uses(submitted, model)
    ensures BatchOf(submitted, model) == []
  {
    if submitted != [] {
      var prefix := submitted[..|submitted| - 1];
      forall i | 0 <= i < |prefix|
        ensures prefix[i].model != model
      {
        assert prefix[i] == submitted[i];
      }
      BatchOfUnused(prefix, model);
    }
  }

  /** No batch is empty, and every entity in a batch is drawn with that batch's model. */
  lemma {:induction false} BatchesWellFormed(submitted: seq<Entity>, model: TexturedModel)
    requires model in Batches(submitted)
    ensures Batches(submitted)[model] != []
    ensures forall e :: e in Batches(submitted)[model] ==> e.model == model
  {
    if submitted != [] {
      var prefix := submitted[..|submitted| - 1];
      var e := submitted[|submitted| - 1];
      if e.model != model || e.model in Batches(prefix) {
        BatchesWellFormed(prefix, model);
      }
    }
  }

  /**
   * The renderer's queues for one frame. `submitted` records, for the proof
   * only, the entities processed since the last frame was drawn.
   */
  class MasterRenderer {
    var entities: map<TexturedModel, seq<Entity>>
    var terrains: seq<Terrain.Terrain>
    ghost var submitted: seq<Entity>

    /** The batch map is the grouping of the entities processed this frame. */
    ghost predicate Valid()
      reads this
    {
      entities == Batches(submitted)
    }

    /** A new renderer has no batches and no terrains. */
    constructor()
      ensures Valid()
      ensures entities == map[] && terrains == [] && submitted == []
    {
      entities := map[];
      terrains := [];
      submitted := [];
    }

    /**
     * processEntity: the entity goes to the end of its model's batch when the
     * model has one, and otherwise into a new one-entity batch; every other
     * batch and the terrain queue are unchanged.
     */
    method ProcessEntity(entity: Entity)
      requires Valid()
      modifies this
      ensures Valid()
      ensures submitted == old(submitted) + [entity]
      ensures entity.model in old(entities) ==>
        entities == old(entities)[entity.model := old(entities)[entity.model] + [entity]]
      ensures entity.model !in old(entities) ==> entities == old(entities)[entity.model := [entity]]
      ensures terrains == old(terrains)
    {
      var texturedModel := entity.model;
      if texturedModel in entities {
        var batch := entities[texturedModel];
        entities := entities[texturedModel := batch + [entity]];
      } else {
        var newBatch := [entity];
        entities := entities[texturedModel := newBatch];
      }
      submitted := submitted + [entity];
      assert submitted[..|submitted| - 1] == old(submitted);
    }

    /** processTerrain: the terrain joins the end of the queue; the batches are unchanged. */
    method ProcessTerrain(terrain: Terrain.Terrain)
      requires Valid()
      modifies this
      ensures Valid()
      ensures terrains == old(terrains) + [terrain]
      ensures entities == old(entities) && submitted == old(submitted)
    {
      terrains := terrains + [terrain];
    }

    /**
     * render: hands the batches and the terrains to the entity and terrain
     * renderers, whose drawing is not modelled and which are returned here, then
     * empties both queues for the next frame.
     */
    method Render() returns (drawnEntities: map<TexturedModel, seq<Entity>>, drawnTerrains: seq<Terrain.Terrain>)
      requires Valid()
      modifies this
      ensures Valid()
      ensures drawnEntities == old(entities) && drawnTerrains == old(terrains)
      ensures entities == map[] && terrains == [] && submitted == []
    {
      drawnEntities := entities;
      drawnTerrains := terrains;
      entities := map[];
      terrains := [];
      submitted := [];
    }
  }
}
