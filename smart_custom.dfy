/**
 * The per-extract logic of the `smart_custom` strategy: option handling,
 * relation relevance, member pull-in, the relation-system traversal and the
 * callbacks of passes 1 to 3 (pass 4 is the shared writing pass).
 */
module SmartCustom {
  import opened Osm
  import opened TagsFilter
  import opened RelationGraph
  import opened ExtractData

  /** The strategy's configuration: the two rule lists and the way heuristic flag. */
  datatype Config = Config(relationFilter: Filter, relationSystemFilter: Filter, byFirstNode: bool)

  const DefaultConfig := Config(EmptyFilter, EmptyFilter, false)

  /** The option keys the strategy knows; any other key draws a warning and is ignored. */
  const KnownOptions: set<string> := {"relations", "relation-system", "by-first-node"}

  /** The value of `by-first-node` that switches the heuristic on. */
  predicate EnablesByFirstNode(value: string) {
    value == "" || value == "true" || value == "yes"
  }

  /** What the constructor's option loop leaves behind for a given option map. */
  predicate OptionsApplied(options: map<string, string>, split: string -> seq<string>, config: Config, ignored: set<string>) {
    && ("relations" in options ==> BuiltFrom(config.relationFilter, split(options["relations"]), ':'))
    && ("relations" !in options ==> config.relationFilter == EmptyFilter)
    && ("relation-system" in options ==> BuiltFrom(config.relationSystemFilter, split(options["relation-system"]), ':'))
    && ("relation-system" !in options ==> config.relationSystemFilter == EmptyFilter)
    && (config.byFirstNode <==> "by-first-node" in options && EnablesByFirstNode(options["by-first-node"]))
    && ignored == options.Keys - KnownOptions
  }

  /**
   * The constructor's loop over the options. `split` stands for
   * `osmium::split_string(value, ',', true)`; `ignored` collects the keys
   * that draw the "unknown option" warning.
   */
  method ParseOptions(options: map<string, string>, split: string -> seq<string>) returns (config: Config, ignored: set<string>)
    ensures OptionsApplied(options, split, config, ignored)
  {
    config, ignored := DefaultConfig, {};
    var todo := options.Keys;
    while todo != {}
      invariant todo <= options.Keys
      invariant var done := options.Keys - todo;
        && ("relations" in done ==> BuiltFrom(config.relationFilter, split(options["relations"]), ':'))
        && ("relations" !in done ==> config.relationFilter == EmptyFilter)
        && ("relation-system" in done ==> BuiltFrom(config.relationSystemFilter, split(options["relation-system"]), ':'))
        && ("relation-system" !in done ==> config.relationSystemFilter == EmptyFilter)
        && (config.byFirstNode <==> "by-first-node" in done && EnablesByFirstNode(options["by-first-node"]))
        && ignored == done - KnownOptions
      decreases todo
    {
      var key :| key in todo;
      var value := options[key];
      if key == "relations" {
        var f := AddFilterRules(config.relationFilter, split(value), ':');
        config := config.(relationFilter := f);
      } else if key == "relation-system" {
        var f := AddFilterRules(config.relationSystemFilter, split(value), ':');
        config := config.(relationSystemFilter := f);
      } else if key == "by-first-node" {
        config := config.(byFirstNode := EnablesByFirstNode(value));
      } else {
        ignored := ignored + {key};
      }
      todo := todo - {key};
    }
  }

  predicate IsRelevantRelation(config: Config, relation: Relation) {
    MatchAnyOf(relation.tags, config.relationFilter)
  }

  predicate IsPartOfRelevantRelationSystem(config: Config, relation: Relation) {
    MatchAnyOf(relation.tags, config.relationSystemFilter)
  }

  /** Adding to `extra` every ID of `refs` that is not primary. */
  function PullIn(extra: set<Id>, primary: set<Id>, refs: set<Id>): (r: set<Id>)
    ensures extra <= r
    ensures forall id :: id in refs && id !in primary ==> id in r
    ensures forall id :: id in r && id !in extra ==> id in refs && id !in primary
  {
    extra + (refs - primary)
  }

  /** Pulling in the same references twice adds nothing the first time did not. */
  lemma PullInIdempotent(extra: set<Id>, primary: set<Id>, refs: set<Id>)
    ensures PullIn(PullIn(extra, primary, refs), primary, refs) == PullIn(extra, primary, refs)
  {
  }

  /** Data::add_relation_members: non-primary node and way members become extra; relation members are skipped. */
  method AddRelationMembers(d: Data, relation: Relation)
    modifies d`extraNodeIds, d`extraWayIds
    ensures d.extraNodeIds == PullIn(old(d.extraNodeIds), d.nodeIds, Refs(relation.members, NodeType))
    ensures d.extraWayIds == PullIn(old(d.extraWayIds), d.wayIds, Refs(relation.members, WayType))
  {
    var members := relation.members;
    for i := 0 to |members|
      invariant d.extraNodeIds == old(d.extraNodeIds) + (Refs(members[..i], NodeType) - d.nodeIds)
      invariant d.extraWayIds == old(d.extraWayIds) + (Refs(members[..i], WayType) - d.wayIds)
    {
      assert members[..i + 1][..i] == members[..i];
      var member := members[i];
      match member.kind
      case NodeType =>
        if member.ref !in d.nodeIds {
          d.extraNodeIds := d.extraNodeIds + {member.ref};
        }
      case WayType =>
        if member.ref !in d.wayIds {
          d.extraWayIds := d.extraWayIds + {member.ref};
        }
      case RelationType =>
    }
    assert members[..|members|] == members;
  }

  /** The first loop of Data::add_relation_network: the neighbours of every primary relation, queued. */
  method SeedQueue(edges: seq<Edge>, rels: set<Id>) returns (q: seq<Id>)
    ensures forall x :: x in q ==> x in Endpoints(edges) && Reachable(edges, ParentsAndMembers, rels, x)
    ensures forall x, y :: (x in rels && Linked(edges, ParentsAndMembers, x, y)) ==> y in q
  {
    var links := ParentsAndMembers;
    q := [];
    var todo := rels;
    while todo != {}
      invariant todo <= rels
      invariant forall x :: x in q ==> x in Endpoints(edges) && Reachable(edges, links, rels, x)
      invariant forall x, y :: (x in rels - todo && Linked(edges, links, x, y)) ==> y in q
      decreases todo
    {
      var id :| id in todo;
      ReachableSeed(edges, links, rels, id);
      forall y | y in Neighbours(edges, links, id) ensures Reachable(edges, links, rels, y) {
        ReachableStep(edges, links, rels, id, y);
      }
      q := q + Neighbours(edges, links, id);
      todo := todo - {id};
    }
  }

  /** Relations reachable from a closed set that contains the seeds add nothing to it. */
  lemma NothingNewWhenClosed(edges: seq<Edge>, rels: set<Id>, extra0: set<Id>, extra: set<Id>)
    requires Closed(edges, ParentsAndMembers, rels + extra0) && extra0 <= extra
    requires forall x :: x in extra - extra0 ==> x !in rels && Reachable(edges, ParentsAndMembers, rels, x)
    ensures extra == extra0
  {
    forall x | x in extra ensures x in extra0 {
      if x !in extra0 {
        ClosedContainsReachable(edges, ParentsAndMembers, rels, rels + extra0, x);
      }
    }
  }

  /** Every queued relation is in the index and reachable from the primary relations. */
  ghost predicate QueueReachable(edges: seq<Edge>, rels: set<Id>, q: seq<Id>) {
    forall x :: x in q ==> x in Endpoints(edges) && Reachable(edges, ParentsAndMembers, rels, x)
  }

  /** Every relation added so far is reachable from the primary relations and not primary. */
  ghost predicate AddedReachable(edges: seq<Edge>, rels: set<Id>, added: set<Id>) {
    forall x :: x in added ==> x !in rels && Reachable(edges, ParentsAndMembers, rels, x)
  }

  /** Every neighbour of a primary or added relation is included or still queued. */
  ghost predicate Frontier(edges: seq<Edge>, rels: set<Id>, extra0: set<Id>, extra: set<Id>, q: seq<Id>) {
    forall x, y :: (x in rels + (extra - extra0) && Linked(edges, ParentsAndMembers, x, y)) ==> y in rels + extra || y in q
  }

  /** One step of the traversal loop keeps its invariants. */
  lemma VisitKeeps(edges: seq<Edge>, rels: set<Id>, extra0: set<Id>, extra: set<Id>, id: Id, q: seq<Id>)
    requires QueueReachable(edges, rels, [id] + q) && AddedReachable(edges, rels, extra - extra0)
    requires Frontier(edges, rels, extra0, extra, [id] + q)
    ensures id in rels + extra ==> Frontier(edges, rels, extra0, extra, q)
    ensures id !in rels + extra ==>
              var q' := q + Neighbours(edges, ParentsAndMembers, id);
              && QueueReachable(edges, rels, q')
              && AddedReachable(edges, rels, extra + {id} - extra0)
              && Frontier(edges, rels, extra0, extra + {id}, q')
  {
    assert id in [id] + q;
    if id !in rels + extra {
      forall y | y in Neighbours(edges, ParentsAndMembers, id) ensures Reachable(edges, ParentsAndMembers, rels, y) {
        ReachableStep(edges, ParentsAndMembers, rels, id, y);
      }
    }
  }

  /**
   * Data::add_relation_network: a queue-driven traversal of the relation
   * index in both directions, seeded with the neighbours of every primary
   * relation. It adds to the extra relations only relations reachable from
   * the primary ones and not primary themselves, and afterwards every
   * neighbour of a primary or newly added relation is included.
   */
  method AddRelationNetwork(d: Data, edges: seq<Edge>)
    modifies d`extraRelationIds
    ensures old(d.extraRelationIds) <= d.extraRelationIds
    ensures forall x :: x in d.extraRelationIds - old(d.extraRelationIds) ==>
              x !in d.relationIds && Reachable(edges, ParentsAndMembers, d.relationIds, x)
    ensures forall x, y :: (x in d.relationIds + (d.extraRelationIds - old(d.extraRelationIds))
                            && Linked(edges, ParentsAndMembers, x, y)) ==> y in d.relationIds + d.extraRelationIds
    ensures Closed(edges, ParentsAndMembers, d.relationIds + old(d.extraRelationIds)) ==>
              d.extraRelationIds == old(d.extraRelationIds)
  {
    ghost var rels := d.relationIds;
    ghost var extra0 := d.extraRelationIds;
    ghost var universe := Endpoints(edges);
    var q := SeedQueue(edges, d.relationIds);
    while q != []
      invariant d.relationIds == rels && extra0 <= d.extraRelationIds
      invariant QueueReachable(edges, rels, q) && AddedReachable(edges, rels, d.extraRelationIds - extra0)
      invariant Frontier(edges, rels, extra0, d.extraRelationIds, q)
      decreases |universe - (rels + d.extraRelationIds)|, |q|
    {
      var id := q[0];
      assert q == [id] + q[1..];
      q := q[1..];
      VisitKeeps(edges, rels, extra0, d.extraRelationIds, id, q);
      if id !in d.relationIds && id !in d.extraRelationIds {
        ghost var left := universe - (rels + d.extraRelationIds);
        assert universe - (rels + (d.extraRelationIds + {id})) == left - {id};
        assert |left - {id}| < |left|;
        d.extraRelationIds := d.extraRelationIds + {id};
        q := q + Neighbours(edges, ParentsAndMembers, id);
      }
    }
    if Closed(edges, ParentsAndMembers, rels + extra0) {
      NothingNewWhenClosed(edges, rels, extra0, d.extraRelationIds);
    }
  }

  /** Pass 1 way rule of the strategy, chosen by `by-first-node`. */
  predicate WaySelected(config: Config, region: Region, nodeIds: set<Id>, way: Way) {
    if config.byFirstNode then FirstNodeRule(region, nodeIds, way)
    else exists i :: 0 <= i < |way.nodes| && way.nodes[i] in nodeIds
  }

  /** The inner loop of passes 1 and 3: every node of the way that is not primary becomes extra. */
  method AddWayNodes(d: Data, way: Way)
    modifies d`extraNodeIds
    ensures d.extraNodeIds == PullIn(old(d.extraNodeIds), d.nodeIds, NodeSet(way.nodes))
  {
    for i := 0 to |way.nodes|
      invariant d.extraNodeIds == PullIn(old(d.extraNodeIds), d.nodeIds, NodeSet(way.nodes[..i]))
    {
      assert way.nodes[..i + 1] == way.nodes[..i] + [way.nodes[i]];
      if way.nodes[i] !in d.nodeIds {
        d.extraNodeIds := d.extraNodeIds + {way.nodes[i]};
      }
    }
    assert way.nodes[..|way.nodes|] == way.nodes;
  }

  /** Pass 1 way callback. With `by-first-node` the way must have a first node. */
  method Pass1Way(d: Data, config: Config, way: Way)
    requires config.byFirstNode ==> |way.nodes| > 0
    modifies d`wayIds, d`extraNodeIds
    ensures d.wayIds == old(d.wayIds) + (if WaySelected(config, d.region, d.nodeIds, way) then {way.id} else {})
    ensures d.extraNodeIds == if WaySelected(config, d.region, d.nodeIds, way)
                              then PullIn(old(d.extraNodeIds), d.nodeIds, NodeSet(way.nodes))
                              else old(d.extraNodeIds)
  {
    if config.byFirstNode {
      var firstNode := way.nodes[0];
      if (firstNode in d.nodeIds && !d.region.hasConflictingTags(way.tags)) || d.region.hasMatchingTags(way.tags) {
        d.wayIds := d.wayIds + {way.id};
        AddWayNodes(d, way);
      }
    } else {
      for i := 0 to |way.nodes|
        invariant forall j :: 0 <= j < i ==> way.nodes[j] !in d.nodeIds
        invariant d.wayIds == old(d.wayIds) && d.extraNodeIds == old(d.extraNodeIds)
      {
        if way.nodes[i] in d.nodeIds {
          d.wayIds := d.wayIds + {way.id};
          AddWayNodes(d, way);
          return;
        }
      }
    }
  }

  /** Whether pass 1 pulls in the members of a relation it made primary. */
  predicate PullsMembers(config: Config, relation: Relation) {
    IsRelevantRelation(config, relation) || IsPartOfRelevantRelationSystem(config, relation)
  }

  /**
   * Pass 1 relation callback: on the first node or way member that is
   * primary the relation becomes primary, its members are pulled in when it
   * is relevant or part of a relation system, and the scan stops.
   */
  method Pass1Relation(d: Data, config: Config, relation: Relation)
    modifies d`relationIds, d`extraNodeIds, d`extraWayIds
    ensures var hit := HasPrimaryMember(d.nodeIds, d.wayIds, relation.members);
      && d.relationIds == old(d.relationIds) + (if hit then {relation.id} else {})
      && d.extraNodeIds == (if hit && PullsMembers(config, relation)
                            then PullIn(old(d.extraNodeIds), d.nodeIds, Refs(relation.members, NodeType))
                            else old(d.extraNodeIds))
      && d.extraWayIds == (if hit && PullsMembers(config, relation)
                           then PullIn(old(d.extraWayIds), d.wayIds, Refs(relation.members, WayType))
                           else old(d.extraWayIds))
  {
    var members := relation.members;
    for i := 0 to |members|
      invariant forall j :: 0 <= j < i ==> !IsPrimaryMember(d.nodeIds, d.wayIds, members[j])
      invariant d.relationIds == old(d.relationIds)
      invariant d.extraNodeIds == old(d.extraNodeIds) && d.extraWayIds == old(d.extraWayIds)
    {
      var member := members[i];
      match member.kind
      case NodeType =>
        if member.ref in d.nodeIds {
          assert IsPrimaryMember(d.nodeIds, d.wayIds, members[i]);
          d.relationIds := d.relationIds + {relation.id};
          if IsRelevantRelation(config, relation) || IsPartOfRelevantRelationSystem(config, relation) {
            AddRelationMembers(d, relation);
          }
          return;
        }
      case WayType =>
        if member.ref in d.wayIds {
          assert IsPrimaryMember(d.nodeIds, d.wayIds, members[i]);
          d.relationIds := d.relationIds + {relation.id};
          if IsRelevantRelation(config, relation) || IsPartOfRelevantRelationSystem(config, relation) {
            AddRelationMembers(d, relation);
          }
          return;
        }
      case RelationType =>
    }
  }

  /** Pass 2 relation callback: extra relations of a relation system have their members pulled in. */
  method Pass2Relation(d: Data, config: Config, relation: Relation)
    modifies d`extraNodeIds, d`extraWayIds
    ensures var pulls := relation.id in d.extraRelationIds && IsPartOfRelevantRelationSystem(config, relation);
      && d.extraNodeIds == (if pulls then PullIn(old(d.extraNodeIds), d.nodeIds, Refs(relation.members, NodeType))
                            else old(d.extraNodeIds))
      && d.extraWayIds == (if pulls then PullIn(old(d.extraWayIds), d.wayIds, Refs(relation.members, WayType))
                           else old(d.extraWayIds))
  {
    if relation.id in d.extraRelationIds && IsPartOfRelevantRelationSystem(config, relation) {
      AddRelationMembers(d, relation);
    }
  }

  /** Pass 3 way callback: the nodes of an extra way that are not primary become extra. */
  method Pass3Way(d: Data, way: Way)
    modifies d`extraNodeIds
    ensures d.extraNodeIds == if way.id in d.extraWayIds then PullIn(old(d.extraNodeIds), d.nodeIds, NodeSet(way.nodes))
                              else old(d.extraNodeIds)
  {
    if way.id in d.extraWayIds {
      AddWayNodes(d, way);
    }
  }
}
