/**
 * The passes of the `smart_by_first_node_and_tags` strategy over a whole
 * input for one extract, and the state each leaves behind.
 */
module SmartByFirstNodeAndTagsRun {
  import opened Osm
  import opened RelationGraph
  import opened ExtractData
  import opened SmartByFirstNodeAndTags

  /** The IDs of the ways the first-node rule selects. */
  function FirstNodeWays(region: Region, nodeIds: set<Id>, ways: seq<Way>): set<Id> {
    if ways == [] then {}
    else
      var last := ways[|ways| - 1];
      FirstNodeWays(region, nodeIds, ways[..|ways| - 1]) + (if FirstNodeRule(region, nodeIds, last) then {last.id} else {})
  }

  /** The members of type `kind` of the relations pass 1 pulls in. */
  function PulledMembers(config: Config, nodeIds: set<Id>, wayIds: set<Id>, relations: seq<Relation>, kind: ItemType): set<Id> {
    if relations == [] then {}
    else
      var last := relations[|relations| - 1];
      PulledMembers(config, nodeIds, wayIds, relations[..|relations| - 1], kind)
        + (if PullsMembers(config, nodeIds, wayIds, last) then Refs(last.members, kind) else {})
  }

  lemma {:induction false} FirstNodeWaysMembers(region: Region, nodeIds: set<Id>, ways: seq<Way>)
    ensures forall id :: id in FirstNodeWays(region, nodeIds, ways) <==>
              exists w :: w in ways && FirstNodeRule(region, nodeIds, w) && w.id == id
  {
    if ways != [] {
      var prefix := ways[..|ways| - 1];
      FirstNodeWaysMembers(region, nodeIds, prefix);
      assert ways == prefix + [ways[|ways| - 1]];
    }
  }

  lemma {:induction false} PulledMembersMembers(config: Config, nodeIds: set<Id>, wayIds: set<Id>, relations: seq<Relation>, kind: ItemType)
    ensures forall x :: x in PulledMembers(config, nodeIds, wayIds, relations, kind) <==>
              exists rel :: rel in relations && PullsMembers(config, nodeIds, wayIds, rel) && x in Refs(rel.members, kind)
  {
    if relations != [] {
      var prefix := relations[..|relations| - 1];
      PulledMembersMembers(config, nodeIds, wayIds, prefix, kind);
      assert relations == prefix + [relations[|relations| - 1]];
    }
  }

  ghost function AfterNodes1(region: Region, nodes: seq<Node>, s: IdSets): IdSets {
    s.(nodeIds := s.nodeIds + ContainedNodes(region, nodes))
  }

  ghost function AfterWays1(region: Region, ways: seq<Way>, s: IdSets): IdSets {
    s.(wayIds := s.wayIds + FirstNodeWays(region, s.nodeIds, ways))
  }

  ghost function AfterRelations1(config: Config, relations: seq<Relation>, s: IdSets): IdSets {
    s.(relationIds := s.relationIds + HitRelations(s.nodeIds, s.wayIds, relations),
       extraNodeIds := s.extraNodeIds + PulledMembers(config, s.nodeIds, s.wayIds, relations, NodeType),
       extraWayIds := s.extraWayIds + PulledMembers(config, s.nodeIds, s.wayIds, relations, WayType))
  }

  /** The state of one extract after pass 1: nodes, then ways, then relations. */
  ghost function AfterPass1(config: Config, region: Region, input: Input, s: IdSets): IdSets {
    AfterRelations1(config, input.relations, AfterWays1(region, input.ways, AfterNodes1(region, input.nodes, s)))
  }

  /** After the parent walk the primary relations are their own upward closure in the relation index. */
  ghost function AfterParents(config: Config, region: Region, input: Input): IdSets {
    var s := AfterPass1(config, region, input, NoIds);
    s.(relationIds := Closure(Stash(input.relations), ParentsOnly, s.relationIds))
  }

  ghost function AfterPass2(ways: seq<Way>, s: IdSets): IdSets {
    s.(extraNodeIds := s.extraNodeIds + WayNodes(s.wayIds + s.extraWayIds, ways))
  }

  /** The final ID sets of one extract after a run on `input`. */
  ghost function Expected(config: Config, region: Region, input: Input): IdSets {
    AfterPass2(input.ways, AfterParents(config, region, input))
  }

  method RunPass1Ways(d: Data, ways: seq<Way>)
    requires forall w :: w in ways ==> |w.nodes| > 0
    modifies d`wayIds
    ensures d.State() == AfterWays1(d.region, ways, old(d.State()))
  {
    ghost var s0 := d.State();
    for i := 0 to |ways|
      invariant d.wayIds == s0.wayIds + FirstNodeWays(d.region, d.nodeIds, ways[..i])
    {
      assert ways[..i + 1][..i] == ways[..i];
      Pass1Way(d, ways[i]);
    }
    assert ways[..|ways|] == ways;
  }

  method RunPass1Relations(d: Data, config: Config, relations: seq<Relation>)
    modifies d`relationIds, d`extraNodeIds, d`extraWayIds
    ensures d.State() == AfterRelations1(config, relations, old(d.State()))
  {
    ghost var s0 := d.State();
    for i := 0 to |relations|
      invariant d.relationIds == s0.relationIds + HitRelations(d.nodeIds, d.wayIds, relations[..i])
      invariant d.extraNodeIds == s0.extraNodeIds + PulledMembers(config, d.nodeIds, d.wayIds, relations[..i], NodeType)
      invariant d.extraWayIds == s0.extraWayIds + PulledMembers(config, d.nodeIds, d.wayIds, relations[..i], WayType)
    {
      assert relations[..i + 1][..i] == relations[..i];
      Pass1Relation(d, config, relations[i]);
    }
    assert relations[..|relations|] == relations;
  }

  method RunPass1(d: Data, config: Config, input: Input)
    requires NonEmptyWays(input)
    modifies d`nodeIds, d`wayIds, d`relationIds, d`extraNodeIds, d`extraWayIds
    ensures d.State() == AfterPass1(config, d.region, input, old(d.State()))
  {
    Pass1Nodes(d, input.nodes);
    RunPass1Ways(d, input.ways);
    RunPass1Relations(d, config, input.relations);
  }

  /**
   * The parent walk of run for one extract without extra relations: the
   * primary relations become their upward closure.
   */
  method RunParents(d: Data, edges: seq<Edge>)
    requires d.extraRelationIds == {}
    modifies d`relationIds
    ensures d.State() == old(d.State()).(relationIds := Closure(edges, ParentsOnly, old(d.relationIds)))
  {
    ghost var r0 := d.relationIds;
    AddAllRelationParents(d, edges);
    TraversalIsClosure(edges, ParentsOnly, r0, d.relationIds - r0);
    ClosureIsClosed(edges, ParentsOnly, r0);
    assert d.relationIds == r0 + (d.relationIds - r0);
  }

  method RunPass2(d: Data, ways: seq<Way>)
    modifies d`extraNodeIds
    ensures d.State() == AfterPass2(ways, old(d.State()))
  {
    ghost var s0 := d.State();
    for i := 0 to |ways|
      invariant d.extraNodeIds == s0.extraNodeIds + WayNodes(d.wayIds + d.extraWayIds, ways[..i])
    {
      assert ways[..i + 1][..i] == ways[..i];
      Pass2Way(d, ways[i]);
    }
    assert ways[..|ways|] == ways;
  }
}
