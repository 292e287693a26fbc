/**
 * Which entities the loader builds, and how many times. Every property of
 * every entity is inspected in order; a `classname` property naming
 * `worldspawn` builds that entity once more, `info_player_start` is
 * recognised but builds nothing, and every other property is ignored.
 */
module Dispatch {
  import opened MapModel

  const ClassnameKey: string := "classname"
  const WorldspawnClass: string := "worldspawn"
  const PlayerStartClass: string := "info_player_start"

  /** What the loader does for one property. */
  datatype Action = BuildWorldspawn | PlayerStart | Ignore

  /** The decision taken for one property: the key is compared first, then the value. */
  function Classify(p: Property): (a: Action)
    ensures a == BuildWorldspawn <==> p.key == ClassnameKey && p.value == WorldspawnClass
    ensures a == PlayerStart <==> p.key == ClassnameKey && p.value == PlayerStartClass
    ensures a == Ignore <==> p.key != ClassnameKey || (p.value != WorldspawnClass && p.value != PlayerStartClass)
  {
    if p.key == ClassnameKey then
      if p.value == WorldspawnClass then BuildWorldspawn
      else if p.value == PlayerStartClass then PlayerStart
      else Ignore
    else Ignore
  }

  /** A property that makes the loader build its entity. */
  predicate Triggers(p: Property)
  {
    Classify(p) == BuildWorldspawn
  }

  /** How many times the loader builds an entity with these properties: once per triggering property. */
  function WorldspawnCount(props: seq<Property>): (n: nat)
    ensures n <= |props|
  {
    if |props| == 0 then 0
    else WorldspawnCount(props[..|props| - 1]) + (if Triggers(props[|props| - 1]) then 1 else 0)
  }

  /**
   * An entity is built at least once exactly when one of its properties
   * triggers a build, and once per property exactly when all of them do.
   */
  lemma {:induction false} WorldspawnCountBounds(props: seq<Property>)
    ensures WorldspawnCount(props) == 0 <==> forall k :: 0 <= k < |props| ==> !Triggers(props[k])
    ensures WorldspawnCount(props) == |props| <==> forall k :: 0 <= k < |props| ==> Triggers(props[k])
  {
    if |props| > 0 {
      var init := props[..|props| - 1];
      WorldspawnCountBounds(init);
      assert forall k :: 0 <= k < |init| ==> init[k] == props[k];
    }
  }

  /** `n` copies of `x`. */
  function Repeat(x: nat, n: nat): (r: seq<nat>)
    ensures |r| == n
    ensures forall k :: 0 <= k < n ==> r[k] == x
  {
    if n == 0 then [] else Repeat(x, n - 1) + [x]
  }

  /**
   * The indices of the entities the loader builds, one per build, in the
   * order the builds happen: entity by entity, and within an entity once
   * per triggering property.
   */
  function Schedule(ents: seq<Entity>): (r: seq<nat>)
    ensures forall k :: 0 <= k < |r| ==> r[k] < |ents| && WorldspawnCount(ents[r[k]].properties) > 0
  {
    if |ents| == 0 then []
    else
      var n := |ents| - 1;
      Schedule(ents[..n]) + Repeat(n, WorldspawnCount(ents[n].properties))
  }

  /** Entities are built in entity order: the schedule never goes back to an earlier entity. */
  lemma {:induction false} ScheduleSorted(ents: seq<Entity>)
    ensures forall p, q :: 0 <= p < q < |Schedule(ents)| ==> Schedule(ents)[p] <= Schedule(ents)[q]
  {
    if |ents| > 0 {
      var n := |ents| - 1;
      ScheduleSorted(ents[..n]);
      var head := Schedule(ents[..n]);
      var tail := Repeat(n, WorldspawnCount(ents[n].properties));
      assert Schedule(ents) == head + tail;
      forall p, q | 0 <= p < q < |head + tail| ensures (head + tail)[p] <= (head + tail)[q] {
        if q >= |head| {
          assert (head + tail)[q] == n;
          if p < |head| {
            assert (head + tail)[p] == head[p];
          }
        }
      }
    }
  }

  lemma RepeatCounts(x: nat, n: nat, y: nat)
    ensures multiset(Repeat(x, n))[y] == if y == x then n else 0
  {
    if n > 0 {
      RepeatCounts(x, n - 1, y);
    }
  }

  /**
   * Entity `i` is built exactly as many times as it has properties with
   * key `classname` and value `worldspawn`; an index past the last entity
   * is never built.
   */
  lemma {:induction false} ScheduleCounts(ents: seq<Entity>, i: nat)
    ensures multiset(Schedule(ents))[i] == if i < |ents| then WorldspawnCount(ents[i].properties) else 0
  {
    if |ents| > 0 {
      var n := |ents| - 1;
      ScheduleCounts(ents[..n], i);
      RepeatCounts(n, WorldspawnCount(ents[n].properties), i);
      assert Schedule(ents) == Schedule(ents[..n]) + Repeat(n, WorldspawnCount(ents[n].properties));
      if i < n {
        assert ents[..n][i] == ents[i];
      }
    }
  }

  /** Nothing is built exactly when no entity has a `classname` property naming `worldspawn`. */
  lemma ScheduleEmpty(ents: seq<Entity>)
    ensures Schedule(ents) == [] <==>
      forall i, k :: 0 <= i < |ents| && 0 <= k < |ents[i].properties| ==> !Triggers(ents[i].properties[k])
  {
    if Schedule(ents) != [] {
      var i := Schedule(ents)[0];
      WorldspawnCountBounds(ents[i].properties);
    } else {
      forall i | 0 <= i < |ents| ensures WorldspawnCount(ents[i].properties) == 0 {
        ScheduleCounts(ents, i);
      }
      forall i | 0 <= i < |ents| {
        WorldspawnCountBounds(ents[i].properties);
      }
    }
  }

  /** A map whose only classnames are `info_player_start` builds nothing. */
  lemma PlayerStartBuildsNothing(ents: seq<Entity>)
    requires forall i, k :: 0 <= i < |ents| && 0 <= k < |ents[i].properties| && ents[i].properties[k].key == ClassnameKey ==>
      ents[i].properties[k].value == PlayerStartClass
    ensures Schedule(ents) == []
  {
    ScheduleEmpty(ents);
  }
}
