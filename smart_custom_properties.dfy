/**
 * What a `smart_custom` run guarantees about one extract's final ID sets:
 * primary sets as the pass 1 rules define them, extras disjoint from
 * primaries, complete ways, complete pulled-in relations and a closed
 * relation system.
 */
module SmartCustomProperties {
  import opened Osm
  import opened RelationGraph
  import opened ExtractData
  import opened SmartCustom
  import opened SmartCustomRun

  /** The relation index holds exactly the relation members of relations of a relevant relation system. */
  lemma StashedEdgesExactly(config: Config, relations: seq<Relation>, e: Edge)
    ensures e in StashedEdges(config, relations) <==>
              exists rel :: rel in relations && IsPartOfRelevantRelationSystem(config, rel)
                            && rel.id == e.parent && Member(RelationType, e.member) in rel.members
  {
    SystemRelationsMembers(config, relations);
  }

  /** The primary sets are those the pass 1 rules define, each over the final primary sets before it. */
  lemma ExpectedPrimarySets(config: Config, region: Region, input: Input)
    ensures var s := Expected(config, region, input);
      && s.nodeIds == ContainedNodes(region, input.nodes)
      && (forall id :: id in s.wayIds <==>
            exists w :: w in input.ways && WaySelected(config, region, s.nodeIds, w) && w.id == id)
      && (forall id :: id in s.relationIds <==>
            exists rel :: rel in input.relations && HasPrimaryMember(s.nodeIds, s.wayIds, rel.members) && rel.id == id)
  {
    var s := Expected(config, region, input);
    SelectedWaysMembers(config, region, s.nodeIds, input.ways);
    HitRelationsMembers(s.nodeIds, s.wayIds, input.relations);
  }

  /** No ID is both primary and extra. */
  lemma ExpectedExtrasDisjoint(config: Config, region: Region, input: Input)
    ensures var s := Expected(config, region, input);
      && s.nodeIds !! s.extraNodeIds && s.wayIds !! s.extraWayIds && s.relationIds !! s.extraRelationIds
  {
    var s := Expected(config, region, input);
    SelectedWayNodesMembers(config, region, s.nodeIds, input.ways);
  }

  /**
   * Every way the extract writes has all its nodes written: ways selected in
   * pass 1 had their nodes added then, extra ways in pass 3.
   */
  lemma ExpectedWaysComplete(config: Config, region: Region, input: Input)
    requires Ascending(input)
    ensures var s := Expected(config, region, input);
      forall w :: w in input.ways && w.id in s.wayIds + s.extraWayIds ==> NodeSet(w.nodes) <= s.nodeIds + s.extraNodeIds
  {
    var n := AfterNetwork(config, region, input);
    var p2 := AfterPass2(config, input.relations, n);
    var s := Expected(config, region, input);
    SelectedWaysMembers(config, region, s.nodeIds, input.ways);
    SelectedWayNodesMembers(config, region, s.nodeIds, input.ways);
    WayNodesMembers(p2.extraWayIds, input.ways);
    forall w | w in input.ways && w.id in s.wayIds + s.extraWayIds
      ensures NodeSet(w.nodes) <= s.nodeIds + s.extraNodeIds
    {
      if w.id in s.wayIds {
        var w' :| w' in input.ways && WaySelected(config, region, s.nodeIds, w') && w'.id == w.id;
        UniqueWayIds(input, w, w');
      }
    }
  }

  /**
   * Every relation whose members the strategy pulls in has all its node and
   * way members written: primary relations that are relevant or part of a
   * relation system (pass 1), and extra relations of a relation system (pass 2).
   */
  lemma ExpectedRelationsComplete(config: Config, region: Region, input: Input)
    requires Ascending(input)
    ensures var s := Expected(config, region, input);
      forall rel :: rel in input.relations
                    && ((rel.id in s.relationIds && PullsMembers(config, rel))
                        || (rel.id in s.extraRelationIds && IsPartOfRelevantRelationSystem(config, rel))) ==>
                      Refs(rel.members, NodeType) <= s.nodeIds + s.extraNodeIds
                      && Refs(rel.members, WayType) <= s.wayIds + s.extraWayIds
  {
    var s := Expected(config, region, input);
    HitRelationsMembers(s.nodeIds, s.wayIds, input.relations);
    PulledMembersMembers(config, s.nodeIds, s.wayIds, input.relations, NodeType);
    PulledMembersMembers(config, s.nodeIds, s.wayIds, input.relations, WayType);
    SystemMembersMembers(config, s.extraRelationIds, input.relations, NodeType);
    SystemMembersMembers(config, s.extraRelationIds, input.relations, WayType);
    forall rel | rel in input.relations
                 && ((rel.id in s.relationIds && PullsMembers(config, rel))
                     || (rel.id in s.extraRelationIds && IsPartOfRelevantRelationSystem(config, rel)))
      ensures Refs(rel.members, NodeType) <= s.nodeIds + s.extraNodeIds
      ensures Refs(rel.members, WayType) <= s.wayIds + s.extraWayIds
    {
      if rel.id in s.relationIds && PullsMembers(config, rel) {
        var rel' :| rel' in input.relations && HasPrimaryMember(s.nodeIds, s.wayIds, rel'.members) && rel'.id == rel.id;
        UniqueRelationIds(input, rel, rel');
      }
    }
  }

  /**
   * The primary and extra relations together are the closure of the primary
   * ones in the relation index: closed under both parent and member links,
   * so another add_relation_network would add nothing, and every extra
   * relation is reachable from a primary one.
   */
  lemma ExpectedRelationSystemClosed(config: Config, region: Region, input: Input)
    ensures var s := Expected(config, region, input);
      var edges := StashedEdges(config, input.relations);
      && Closed(edges, ParentsAndMembers, s.relationIds + s.extraRelationIds)
      && (forall x :: x in s.extraRelationIds ==> Reachable(edges, ParentsAndMembers, s.relationIds, x))
  {
    var s := Expected(config, region, input);
    var edges := StashedEdges(config, input.relations);
    ClosureIsClosed(edges, ParentsAndMembers, s.relationIds);
    assert s.relationIds + s.extraRelationIds == Closure(edges, ParentsAndMembers, s.relationIds);
  }
}
