/**
 * The passes of the `smart_custom` strategy over a whole input for one
 * extract, and the state each pass leaves behind.
 */
module SmartCustomRun {
  import opened Osm
  import opened RelationGraph
  import opened ExtractData
  import opened SmartCustom

  /** The IDs of the ways the pass 1 way rule selects. */
  function SelectedWays(config: Config, region: Region, nodeIds: set<Id>, ways: seq<Way>): (r: set<Id>)
  {
    if ways == [] then {}
    else
      var last := ways[|ways| - 1];
      assert ways == ways[..|ways| - 1] + [last];
      SelectedWays(config, region, nodeIds, ways[..|ways| - 1])
        + (if WaySelected(config, region, nodeIds, last) then {last.id} else {})
  }

  /** The non-primary nodes of the ways the pass 1 way rule selects. */
  function SelectedWayNodes(config: Config, region: Region, nodeIds: set<Id>, ways: seq<Way>): (r: set<Id>)
  {
    if ways == [] then {}
    else
      var last := ways[|ways| - 1];
      assert ways == ways[..|ways| - 1] + [last];
      SelectedWayNodes(config, region, nodeIds, ways[..|ways| - 1])
        + (if WaySelected(config, region, nodeIds, last) then NodeSet(last.nodes) - nodeIds else {})
  }

  /** The members of type `kind` of the relations pass 1 pulls in. */
  function PulledMembers(config: Config, nodeIds: set<Id>, wayIds: set<Id>, relations: seq<Relation>, kind: ItemType): (r: set<Id>)
  {
    if relations == [] then {}
    else
      var last := relations[|relations| - 1];
      assert relations == relations[..|relations| - 1] + [last];
      PulledMembers(config, nodeIds, wayIds, relations[..|relations| - 1], kind)
        + (if HasPrimaryMember(nodeIds, wayIds, last.members) && PullsMembers(config, last)
           then Refs(last.members, kind) else {})
  }

  /** The members of type `kind` of the extra relations of a relation system (pass 2). */
  function SystemMembers(config: Config, extraRelationIds: set<Id>, relations: seq<Relation>, kind: ItemType): (r: set<Id>)
  {
    if relations == [] then {}
    else
      var last := relations[|relations| - 1];
      assert relations == relations[..|relations| - 1] + [last];
      SystemMembers(config, extraRelationIds, relations[..|relations| - 1], kind)
        + (if last.id in extraRelationIds && IsPartOfRelevantRelationSystem(config, last)
           then Refs(last.members, kind) else {})
  }

  /** The relations pass 1 hands to the relation index: those of a relevant relation system. */
  function SystemRelations(config: Config, relations: seq<Relation>): (r: seq<Relation>)
  {
    if relations == [] then []
    else
      var last := relations[|relations| - 1];
      assert relations == relations[..|relations| - 1] + [last];
      SystemRelations(config, relations[..|relations| - 1])
        + (if IsPartOfRelevantRelationSystem(config, last) then [last] else [])
  }

  lemma {:induction false} SelectedWaysMembers(config: Config, region: Region, nodeIds: set<Id>, ways: seq<Way>)
    ensures forall id :: id in SelectedWays(config, region, nodeIds, ways) <==>
              exists w :: w in ways && WaySelected(config, region, nodeIds, w) && w.id == id
  {
    if ways != [] {
      var prefix := ways[..|ways| - 1];
      SelectedWaysMembers(config, region, nodeIds, prefix);
      assert ways == prefix + [ways[|ways| - 1]];
    }
  }

  lemma {:induction false} SelectedWayNodesMembers(config: Config, region: Region, nodeIds: set<Id>, ways: seq<Way>)
    ensures forall x :: x in SelectedWayNodes(config, region, nodeIds, ways) <==>
              x !in nodeIds && exists w :: w in ways && WaySelected(config, region, nodeIds, w) && x in w.nodes
  {
    if ways != [] {
      var prefix := ways[..|ways| - 1];
      SelectedWayNodesMembers(config, region, nodeIds, prefix);
      assert ways == prefix + [ways[|ways| - 1]];
    }
  }

  lemma {:induction false} PulledMembersMembers(config: Config, nodeIds: set<Id>, wayIds: set<Id>, relations: seq<Relation>, kind: ItemType)
    ensures forall x :: x in PulledMembers(config, nodeIds, wayIds, relations, kind) <==>
              exists rel :: rel in relations && HasPrimaryMember(nodeIds, wayIds, rel.members)
                            && PullsMembers(config, rel) && x in Refs(rel.members, kind)
  {
    if relations != [] {
      var prefix := relations[..|relations| - 1];
      PulledMembersMembers(config, nodeIds, wayIds, prefix, kind);
      assert relations == prefix + [relations[|relations| - 1]];
    }
  }

  lemma {:induction false} SystemMembersMembers(config: Config, extraRelationIds: set<Id>, relations: seq<Relation>, kind: ItemType)
    ensures forall x :: x in SystemMembers(config, extraRelationIds, relations, kind) <==>
              exists rel :: rel in relations && rel.id in extraRelationIds
                            && IsPartOfRelevantRelationSystem(config, rel) && x in Refs(rel.members, kind)
  {
    if relations != [] {
      var prefix := relations[..|relations| - 1];
      SystemMembersMembers(config, extraRelationIds, prefix, kind);
      assert relations == prefix + [relations[|relations| - 1]];
    }
  }

  lemma {:induction false} SystemRelationsMembers(config: Config, relations: seq<Relation>)
    ensures forall rel :: rel in SystemRelations(config, relations) <==>
              rel in relations && IsPartOfRelevantRelationSystem(config, rel)
  {
    if relations != [] {
      var prefix := relations[..|relations| - 1];
      SystemRelationsMembers(config, prefix);
      assert relations == prefix + [relations[|relations| - 1]];
    }
  }

  /** The relation index of a run. */
  function StashedEdges(config: Config, relations: seq<Relation>): seq<Edge> {
    Stash(SystemRelations(config, relations))
  }

  ghost function AfterNodes1(region: Region, nodes: seq<Node>, s: IdSets): IdSets {
    s.(nodeIds := s.nodeIds + ContainedNodes(region, nodes))
  }

  ghost function AfterWays1(config: Config, region: Region, ways: seq<Way>, s: IdSets): IdSets {
    s.(wayIds := s.wayIds + SelectedWays(config, region, s.nodeIds, ways),
       extraNodeIds := s.extraNodeIds + SelectedWayNodes(config, region, s.nodeIds, ways))
  }

  ghost function AfterRelations1(config: Config, relations: seq<Relation>, s: IdSets): IdSets {
    s.(relationIds := s.relationIds + HitRelations(s.nodeIds, s.wayIds, relations),
       extraNodeIds := s.extraNodeIds + (PulledMembers(config, s.nodeIds, s.wayIds, relations, NodeType) - s.nodeIds),
       extraWayIds := s.extraWayIds + (PulledMembers(config, s.nodeIds, s.wayIds, relations, WayType) - s.wayIds))
  }

  /** The state of one extract after pass 1: nodes, then ways, then relations. */
  ghost function AfterPass1(config: Config, region: Region, input: Input, s: IdSets): IdSets {
    AfterRelations1(config, input.relations, AfterWays1(config, region, input.ways, AfterNodes1(region, input.nodes, s)))
  }

  /** The state after the relation network: the extra relations are the rest of the relation system's closure. */
  ghost function AfterNetwork(config: Config, region: Region, input: Input): IdSets {
    var s := AfterPass1(config, region, input, NoIds);
    s.(extraRelationIds := Closure(StashedEdges(config, input.relations), ParentsAndMembers, s.relationIds) - s.relationIds)
  }

  ghost function AfterPass2(config: Config, relations: seq<Relation>, s: IdSets): IdSets {
    s.(extraNodeIds := s.extraNodeIds + (SystemMembers(config, s.extraRelationIds, relations, NodeType) - s.nodeIds),
       extraWayIds := s.extraWayIds + (SystemMembers(config, s.extraRelationIds, relations, WayType) - s.wayIds))
  }

  ghost function AfterPass3(ways: seq<Way>, s: IdSets): IdSets {
    s.(extraNodeIds := s.extraNodeIds + (WayNodes(s.extraWayIds, ways) - s.nodeIds))
  }

  /** The final ID sets of one extract after a run on `input`. */
  ghost function Expected(config: Config, region: Region, input: Input): IdSets {
    AfterPass3(input.ways, AfterPass2(config, input.relations, AfterNetwork(config, region, input)))
  }

  /** Pass 1 on the ways of the input, for one extract. */
  method RunPass1Ways(d: Data, config: Config, ways: seq<Way>)
    requires config.byFirstNode ==> forall w :: w in ways ==> |w.nodes| > 0
    modifies d`wayIds, d`extraNodeIds
    ensures d.State() == AfterWays1(config, d.region, ways, old(d.State()))
  {
    ghost var s0 := d.State();
    for i := 0 to |ways|
      invariant d.wayIds == s0.wayIds + SelectedWays(config, d.region, d.nodeIds, ways[..i])
      invariant d.extraNodeIds == s0.extraNodeIds + SelectedWayNodes(config, d.region, d.nodeIds, ways[..i])
    {
      var way := ways[i];
      assert ways[..i + 1][..i] == ways[..i] && ways[..i + 1][i] == way;
      Pass1Way(d, config, way);
    }
    assert ways[..|ways|] == ways;
  }

  /** Pass 1 on the relations of the input, for one extract. */
  method RunPass1Relations(d: Data, config: Config, relations: seq<Relation>)
    modifies d`relationIds, d`extraNodeIds, d`extraWayIds
    ensures d.State() == AfterRelations1(config, relations, old(d.State()))
  {
    ghost var s0 := d.State();
    for i := 0 to |relations|
      invariant d.relationIds == s0.relationIds + HitRelations(d.nodeIds, d.wayIds, relations[..i])
      invariant d.extraNodeIds == s0.extraNodeIds + (PulledMembers(config, d.nodeIds, d.wayIds, relations[..i], NodeType) - d.nodeIds)
      invariant d.extraWayIds == s0.extraWayIds + (PulledMembers(config, d.nodeIds, d.wayIds, relations[..i], WayType) - d.wayIds)
    {
      assert relations[..i + 1][..i] == relations[..i];
      Pass1Relation(d, config, relations[i]);
    }
    assert relations[..|relations|] == relations;
  }

  method RunPass1(d: Data, config: Config, input: Input)
    requires config.byFirstNode ==> NonEmptyWays(input)
    modifies d`nodeIds, d`wayIds, d`relationIds, d`extraNodeIds, d`extraWayIds
    ensures d.State() == AfterPass1(config, d.region, input, old(d.State()))
  {
    Pass1Nodes(d, input.nodes);
    RunPass1Ways(d, config, input.ways);
    RunPass1Relations(d, config, input.relations);
  }

  method RunPass2(d: Data, config: Config, relations: seq<Relation>)
    modifies d`extraNodeIds, d`extraWayIds
    ensures d.State() == AfterPass2(config, relations, old(d.State()))
  {
    ghost var s0 := d.State();
    for i := 0 to |relations|
      invariant d.extraNodeIds == s0.extraNodeIds + (SystemMembers(config, d.extraRelationIds, relations[..i], NodeType) - d.nodeIds)
      invariant d.extraWayIds == s0.extraWayIds + (SystemMembers(config, d.extraRelationIds, relations[..i], WayType) - d.wayIds)
    {
      assert relations[..i + 1][..i] == relations[..i] && relations[..i + 1][i] == relations[i];
      Pass2Relation(d, config, relations[i]);
    }
    assert relations[..|relations|] == relations;
  }

  method RunPass3(d: Data, ways: seq<Way>)
    modifies d`extraNodeIds
    ensures d.State() == AfterPass3(ways, old(d.State()))
  {
    for i := 0 to |ways|
      invariant d.State() == AfterPass3(ways[..i], old(d.State()))
    {
      assert ways[..i + 1][..i] == ways[..i];
      Pass3Way(d, ways[i]);
    }
    assert ways[..|ways|] == ways;
  }
}
