/**
 * The loader node: it holds the path of the map file and, after a build,
 * one child per built object. Every worldspawn build adds a combiner node
 * followed by one mesh node per brush of the entity, all as direct
 * children of the loader, in brush order.
 */
module Loader {
  import opened MapModel
  import opened Dispatch
  import opened MeshAssembly

  /** A child of the loader: an (empty) CSG combiner, or a CSG mesh holding one brush's mesh. */
  datatype Node = Combiner | MeshInstance(mesh: Mesh)

  /**
   * The meshes of the first `n` brushes of an entity, in brush order:
   * brush `b` of the entity is assembled from brush slot `b` of its
   * geometry, using the faces the brush has.
   */
  function BrushMeshes(ent: Entity, geo: EntityGeometry, n: nat): (r: seq<Mesh>)
    requires Covers(ent, geo) && n <= |ent.brushes|
    ensures |r| == n
  {
    if n == 0 then []
    else BrushMeshes(ent, geo, n - 1) + [BrushMesh(geo.brushes[n - 1].faces[..ent.brushes[n - 1].faceCount], LengthSquared)]
  }

  lemma {:induction false} BrushMeshesAt(ent: Entity, geo: EntityGeometry, n: nat, b: nat)
    requires Covers(ent, geo) && b < n <= |ent.brushes|
    ensures BrushMeshes(ent, geo, n)[b] == BrushMesh(geo.brushes[b].faces[..ent.brushes[b].faceCount], LengthSquared)
  {
    if b < n - 1 {
      BrushMeshesAt(ent, geo, n - 1, b);
    }
  }

  /** `children` followed by a combiner and one mesh node for each of the first `n` meshes, in order. */
  function AddWorldspawn(children: seq<Node>, meshes: seq<Mesh>, n: nat): (r: seq<Node>)
    requires n <= |meshes|
    ensures |r| == |children| + 1 + n
  {
    if n == 0 then children + [Combiner]
    else AddWorldspawn(children, meshes, n - 1) + [MeshInstance(meshes[n - 1])]
  }

  /**
   * The children after a worldspawn build of `ent` with geometry `geo`
   * starting from `children`.
   */
  function WorldspawnNodes(children: seq<Node>, ent: Entity, geo: EntityGeometry): seq<Node>
    requires Covers(ent, geo)
  {
    AddWorldspawn(children, BrushMeshes(ent, geo, |ent.brushes|), |ent.brushes|)
  }

  /**
   * Adding a worldspawn keeps the children before it in place, then adds
   * one combiner, then mesh `b` at offset `1 + b` after the combiner.
   */
  lemma {:induction false} AddWorldspawnLayout(children: seq<Node>, meshes: seq<Mesh>, n: nat)
    requires n <= |meshes|
    ensures var r := AddWorldspawn(children, meshes, n);
      (forall k :: 0 <= k < |children| ==> r[k] == children[k]) &&
      r[|children|] == Combiner &&
      (forall b :: 0 <= b < n ==> r[|children| + 1 + b] == MeshInstance(meshes[b]))
  {
    if n > 0 {
      AddWorldspawnLayout(children, meshes, n - 1);
    }
  }

  /**
   * A worldspawn build keeps the children it started from, adds one
   * combiner and then exactly one mesh per brush of the entity, in brush
   * order, brush `b` of the entity paired with brush slot `b` of its
   * geometry.
   */
  lemma WorldspawnLayout(children: seq<Node>, ent: Entity, geo: EntityGeometry)
    requires Covers(ent, geo)
    ensures var r := WorldspawnNodes(children, ent, geo);
      |r| == |children| + 1 + |ent.brushes| &&
      r[..|children|] == children &&
      r[|children|] == Combiner &&
      forall b :: 0 <= b < |ent.brushes| ==>
        r[|children| + 1 + b] == MeshInstance(BrushMesh(geo.brushes[b].faces[..ent.brushes[b].faceCount], LengthSquared))
  {
    var meshes := BrushMeshes(ent, geo, |ent.brushes|);
    AddWorldspawnLayout(children, meshes, |ent.brushes|);
    forall b | 0 <= b < |ent.brushes|
      ensures meshes[b] == BrushMesh(geo.brushes[b].faces[..ent.brushes[b].faceCount], LengthSquared)
    {
      BrushMeshesAt(ent, geo, |ent.brushes|, b);
    }
  }

  /** An entity without brushes still gets its combiner, and nothing else. */
  lemma BrushlessWorldspawn(children: seq<Node>, ent: Entity, geo: EntityGeometry)
    requires ent.brushes == []
    ensures WorldspawnNodes(children, ent, geo) == children + [Combiner]
  {
  }

  lemma MeshKeepsCombiners(nodes: seq<Node>, node: Node)
    requires node.MeshInstance?
    ensures multiset(nodes + [node])[Combiner] == multiset(nodes)[Combiner]
  {
  }

  /** Adding a worldspawn adds exactly one combiner: the one that opens it. */
  lemma {:induction false} AddWorldspawnCombiners(children: seq<Node>, meshes: seq<Mesh>, n: nat)
    requires n <= |meshes|
    ensures multiset(AddWorldspawn(children, meshes, n))[Combiner] == multiset(children)[Combiner] + 1
  {
    if n > 0 {
      AddWorldspawnCombiners(children, meshes, n - 1);
      MeshKeepsCombiners(AddWorldspawn(children, meshes, n - 1), MeshInstance(meshes[n - 1]));
    }
  }

  /** Entity `i` can be built: it has a geometry slot that covers its brushes and faces. */
  predicate Buildable(m: MapData, i: nat)
  {
    i < |m.entities| && i < |m.entityGeo| && Covers(m.entities[i], m.entityGeo[i])
  }

  /** Every entity the loader builds can be built. */
  predicate Covered(m: MapData)
  {
    forall i :: 0 <= i < |m.entities| && WorldspawnCount(m.entities[i].properties) > 0 ==> Buildable(m, i)
  }

  /**
   * The children a sequence of worldspawn builds produces from none, one
   * build per entry, in order (an entry that cannot be built adds nothing;
   * the loader never schedules one).
   */
  function ScheduledNodes(sched: seq<nat>, m: MapData): seq<Node>
  {
    if |sched| == 0 then []
    else
      var i := sched[|sched| - 1];
      var before := ScheduledNodes(sched[..|sched| - 1], m);
      if Buildable(m, i) then WorldspawnNodes(before, m.entities[i], m.entityGeo[i]) else before
  }

  /** The children a whole build produces. */
  function BuildNodes(m: MapData): seq<Node>
  {
    ScheduledNodes(Schedule(m.entities), m)
  }

  lemma ScheduledNodesStep(sched: seq<nat>, i: nat, m: MapData)
    requires Buildable(m, i)
    ensures ScheduledNodes(sched + [i], m) == WorldspawnNodes(ScheduledNodes(sched, m), m.entities[i], m.entityGeo[i])
  {
    assert (sched + [i])[..|sched|] == sched;
  }

  /** The children hold one combiner per worldspawn build. */
  lemma {:induction false} ScheduledCombiners(sched: seq<nat>, m: MapData)
    requires forall k :: 0 <= k < |sched| ==> Buildable(m, sched[k])
    ensures multiset(ScheduledNodes(sched, m))[Combiner] == |sched|
  {
    if |sched| > 0 {
      var i := sched[|sched| - 1];
      var before := ScheduledNodes(sched[..|sched| - 1], m);
      ScheduledCombiners(sched[..|sched| - 1], m);
      AddWorldspawnCombiners(before, BrushMeshes(m.entities[i], m.entityGeo[i], |m.entities[i].brushes|), |m.entities[i].brushes|);
    }
  }

  /**
   * After a build of a covered map the loader has one combiner child per
   * worldspawn build, and entity `i` is built once per `classname`
   * property naming `worldspawn`.
   */
  lemma {:induction false} BuildCombiners(m: MapData, i: nat)
    requires Covered(m)
    ensures multiset(BuildNodes(m))[Combiner] == |Schedule(m.entities)|
    ensures i < |m.entities| ==> multiset(Schedule(m.entities))[i] == WorldspawnCount(m.entities[i].properties)
  {
    ScheduledCombiners(Schedule(m.entities), m);
    ScheduleCounts(m.entities, i);
  }

  /** A build leaves the loader without children exactly when no entity is a worldspawn. */
  lemma {:induction false} BuildNodesEmpty(m: MapData)
    requires Covered(m)
    ensures BuildNodes(m) == [] <==>
      forall i, k :: 0 <= i < |m.entities| && 0 <= k < |m.entities[i].properties| ==> !Triggers(m.entities[i].properties[k])
  {
    ScheduleEmpty(m.entities);
    var sched := Schedule(m.entities);
    if |sched| > 0 {
      var i := sched[|sched| - 1];
      assert Buildable(m, i);
      assert |BuildNodes(m)| > 0;
    }
  }

  lemma TriggerIsCounted(props: seq<Property>, j: nat)
    requires j < |props| && props[j].key == ClassnameKey && props[j].value == WorldspawnClass
    ensures WorldspawnCount(props) > 0
  {
    assert Triggers(props[j]);
    WorldspawnCountBounds(props);
  }

  lemma ScheduleStep(ents: seq<Entity>, i: nat)
    requires i < |ents|
    ensures Schedule(ents[..i + 1]) == Schedule(ents[..i]) + Repeat(i, WorldspawnCount(ents[i].properties))
  {
    assert ents[..i + 1][..i] == ents[..i];
  }

  lemma RepeatStep(before: seq<nat>, i: nat, n: nat)
    ensures before + Repeat(i, n + 1) == (before + Repeat(i, n)) + [i]
  {
  }

  lemma CountStep(props: seq<Property>, j: nat)
    requires j < |props|
    ensures WorldspawnCount(props[..j + 1]) == WorldspawnCount(props[..j]) + if Triggers(props[j]) then 1 else 0
  {
    assert props[..j + 1][..j] == props[..j];
  }

  class TBLoader {
    /** The map file this loader builds from. */
    var mapPath: string
    /** The loader's children in the scene tree, in order. */
    var children: seq<Node>

    /** A new loader has an empty map path and no children. */
    constructor()
      ensures mapPath == "" && children == []
    {
      mapPath := "";
      children := [];
    }

    method SetMap(path: string)
      modifies this`mapPath
      ensures mapPath == path
    {
      mapPath := path;
    }

    method GetMap() returns (path: string)
      ensures path == mapPath
    {
      path := mapPath;
    }

    /** Adds a combiner and then one mesh child per brush of the entity, in brush order. */
    method BuildWorldspawn(ent: Entity, geo: EntityGeometry)
      requires Covers(ent, geo)
      modifies this`children
      ensures children == WorldspawnNodes(old(children), ent, geo)
    {
      children := children + [Combiner];
      ghost var meshes := BrushMeshes(ent, geo, |ent.brushes|);
      var i := 0;
      while i < |ent.brushes|
        invariant i <= |ent.brushes|
        invariant children == AddWorldspawn(old(children), meshes, i)
      {
        var mesh := AssembleBrush(ent, geo, i);
        children := children + [MeshInstance(mesh)];
        i := i + 1;
      }
    }

    /** The mesh of brush `i`, assembled from brush slot `i` of the geometry. */
    method AssembleBrush(ent: Entity, geo: EntityGeometry, i: nat) returns (mesh: Mesh)
      requires Covers(ent, geo) && i < |ent.brushes|
      ensures mesh == BrushMeshes(ent, geo, |ent.brushes|)[i]
    {
      mesh := AssembleBrushMesh(ent.brushes[i], geo.brushes[i], LengthSquared);
      BrushMeshesAt(ent, geo, |ent.brushes|, i);
    }

    /** One more worldspawn build of entity `i`, extending the children built so far by `sched`. */
    method BuildScheduled(m: MapData, i: nat, ghost sched: seq<nat>)
      requires Buildable(m, i)
      requires children == ScheduledNodes(sched, m)
      modifies this`children
      ensures children == ScheduledNodes(sched + [i], m)
    {
      ScheduledNodesStep(sched, i, m);
      BuildWorldspawn(m.entities[i], m.entityGeo[i]);
    }

    /**
     * Inspects property `j` of entity `i`: a `classname`/`worldspawn`
     * property builds the entity once more, `info_player_start` is
     * recognised and builds nothing, anything else is ignored.
     */
    method VisitProperty(m: MapData, i: nat, j: nat, ghost before: seq<nat>)
      requires i < |m.entities| && j < |m.entities[i].properties|
      requires Covered(m)
      requires children == ScheduledNodes(before + Repeat(i, WorldspawnCount(m.entities[i].properties[..j])), m)
      modifies this`children
      ensures children == ScheduledNodes(before + Repeat(i, WorldspawnCount(m.entities[i].properties[..j + 1])), m)
    {
      var prop := m.entities[i].properties[j];
      ghost var built := WorldspawnCount(m.entities[i].properties[..j]);
      CountStep(m.entities[i].properties, j);
      if prop.key == ClassnameKey {
        if prop.value == WorldspawnClass {
          TriggerIsCounted(m.entities[i].properties, j);
          BuildScheduled(m, i, before + Repeat(i, built));
          RepeatStep(before, i, built);
        } else if prop.value == PlayerStartClass {
          // recognised, but builds nothing
        }
      }
    }

    /** Inspects every property of entity `i` in order. */
    method BuildEntity(m: MapData, i: nat, ghost before: seq<nat>)
      requires i < |m.entities|
      requires Covered(m)
      requires children == ScheduledNodes(before, m)
      modifies this`children
      ensures children == ScheduledNodes(before + Repeat(i, WorldspawnCount(m.entities[i].properties)), m)
    {
      var props := m.entities[i].properties;
      assert before + Repeat(i, WorldspawnCount(props[..0])) == before;
      var j := 0;
      while j < |props|
        invariant j <= |props|
        invariant children == ScheduledNodes(before + Repeat(i, WorldspawnCount(props[..j])), m)
      {
        VisitProperty(m, i, j, before);
        j := j + 1;
      }
      assert props[..j] == props;
    }

    /**
     * Removes every child, then, when the map file exists, builds each
     * entity once per `classname`/`worldspawn` property it has, entity by
     * entity. `load` reads, parses and generates the map file at a path,
     * giving `None` when no file exists there; the file read is the one at
     * `mapPath`.
     */
    method Build(load: string -> Option<MapData>)
      requires load(mapPath).Some? ==> Covered(load(mapPath).value)
      modifies this`children
      ensures load(mapPath).None? ==> children == []
      ensures load(mapPath).Some? ==> children == BuildNodes(load(mapPath).value)
    {
      while |children| > 0
        decreases |children|
      {
        children := children[1..];
      }
      var loaded := load(mapPath);
      if loaded.None? {
        return;
      }
      BuildMap(loaded.value);
    }

    /** Builds every entity of `m` in order, starting from no children. */
    method BuildMap(m: MapData)
      requires Covered(m)
      requires children == []
      modifies this`children
      ensures children == BuildNodes(m)
    {
      var i := 0;
      assert m.entities[..0] == [];
      while i < |m.entities|
        invariant i <= |m.entities|
        invariant children == ScheduledNodes(Schedule(m.entities[..i]), m)
      {
        BuildEntity(m, i, Schedule(m.entities[..i]));
        ScheduleStep(m.entities, i);
        i := i + 1;
      }
      assert m.entities[..i] == m.entities;
    }
  }
}
