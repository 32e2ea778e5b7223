/**
 * What a `smart_by_first_node_and_tags` run guarantees about one extract's
 * final ID sets: primary sets as the pass 1 rules define them, no extra
 * relations, primary relations closed upwards, and complete ways and
 * pulled-in relations.
 */
module SmartByFirstNodeAndTagsProperties {
  import opened Osm
  import opened RelationGraph
  import opened ExtractData
  import opened SmartByFirstNodeAndTags
  import opened SmartByFirstNodeAndTagsRun
  import opened TagsFilter

  /** Nodes by containment, ways by the first-node rule over those nodes. */
  lemma ExpectedPrimarySets(config: Config, region: Region, input: Input)
    ensures var s := Expected(config, region, input);
      && s.nodeIds == ContainedNodes(region, input.nodes)
      && (forall id :: id in s.wayIds <==> exists w :: w in input.ways && FirstNodeRule(region, s.nodeIds, w) && w.id == id)
  {
    var s := Expected(config, region, input);
    FirstNodeWaysMembers(region, s.nodeIds, input.ways);
  }

  /**
   * The strategy never records extra relations; the primary relations are
   * those with a primary node or way member together with all their
   * transitive parents, and no parent of a primary relation is left out.
   */
  lemma ExpectedRelations(config: Config, region: Region, input: Input)
    ensures var s := Expected(config, region, input);
      var hit := HitRelations(s.nodeIds, s.wayIds, input.relations);
      && s.extraRelationIds == {}
      && hit <= s.relationIds
      && Closed(Stash(input.relations), ParentsOnly, s.relationIds)
      && (forall x :: x in s.relationIds ==> Reachable(Stash(input.relations), ParentsOnly, hit, x))
      && (forall id :: id in hit <==>
            exists rel :: rel in input.relations && HasPrimaryMember(s.nodeIds, s.wayIds, rel.members) && rel.id == id)
  {
    var s := Expected(config, region, input);
    var hit := HitRelations(s.nodeIds, s.wayIds, input.relations);
    ClosureIsClosed(Stash(input.relations), ParentsOnly, hit);
    HitRelationsMembers(s.nodeIds, s.wayIds, input.relations);
  }

  /** Every node of every primary or extra way is extra, so every written way has all its nodes written. */
  lemma ExpectedWaysComplete(config: Config, region: Region, input: Input)
    ensures var s := Expected(config, region, input);
      forall w :: w in input.ways && w.id in s.wayIds + s.extraWayIds ==> NodeSet(w.nodes) <= s.extraNodeIds
  {
    var s := Expected(config, region, input);
    WayNodesMembers(s.wayIds + s.extraWayIds, input.ways);
  }

  /**
   * A relation whose members pass 1 pulls in has every node and way member
   * extra, and every node of each such way extra as well.
   */
  lemma ExpectedRelationsComplete(config: Config, region: Region, input: Input)
    ensures var s := Expected(config, region, input);
      forall rel :: rel in input.relations && PullsMembers(config, s.nodeIds, s.wayIds, rel) ==>
        && Refs(rel.members, NodeType) <= s.extraNodeIds
        && Refs(rel.members, WayType) <= s.extraWayIds
        && (forall w :: w in input.ways && w.id in Refs(rel.members, WayType) ==> NodeSet(w.nodes) <= s.extraNodeIds)
  {
    var s := Expected(config, region, input);
    PulledMembersMembers(config, s.nodeIds, s.wayIds, input.relations, NodeType);
    PulledMembersMembers(config, s.nodeIds, s.wayIds, input.relations, WayType);
    ExpectedWaysComplete(config, region, input);
  }

  /**
   * Which relations have their members pulled in: with the wanted type and
   * tags any primary member suffices; otherwise, at the default percentage,
   * all members must be primary node or way members.
   */
  lemma PullsAtDefaultPercentage(config: Config, nodeIds: set<Id>, wayIds: set<Id>, relation: Relation)
    requires config.percentage == DefaultPercentage
    ensures PullsMembers(config, nodeIds, wayIds, relation) <==>
              CheckTags(config, relation)
              && ((HasPrimaryMember(nodeIds, wayIds, relation.members) && CheckType(config, relation))
                  || forall m :: m in relation.members ==> IsPrimaryMember(nodeIds, wayIds, m))
  {
    DefaultPercentageNeedsAll(|relation.members|, WantedMembers(nodeIds, wayIds, relation.members));
    WantedMembersAll(nodeIds, wayIds, relation.members);
  }

  /**
   * Without a `tags` option the filter has no rules and rejects every tag
   * list, so no relation ever has its members pulled in.
   */
  lemma NoTagsPullsNothing(config: Config, nodeIds: set<Id>, wayIds: set<Id>, relation: Relation)
    requires config.filter == EmptyFilter
    ensures !PullsMembers(config, nodeIds, wayIds, relation)
  {
  }
}
