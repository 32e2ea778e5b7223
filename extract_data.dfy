/**
 * What both strategies keep per extract: the region predicates of the
 * Extract class, six monotone ID sets and the items written so far, plus
 * the callbacks the two strategies share (the containment test of the first
 * pass and the final writing pass).
 */
module ExtractData {
  import opened Osm

  /**
   * The three predicates of an Extract (extract.hpp), supplied from outside:
   * the geometry test and the two way-tag tests.
   */
  datatype Region = Region(
    contains: Location -> bool,
    hasConflictingTags: seq<Tag> -> bool,
    hasMatchingTags: seq<Tag> -> bool)

  /** The six ID sets of one extract, as a value. */
  datatype IdSets = IdSets(
    nodeIds: set<Id>, extraNodeIds: set<Id>,
    wayIds: set<Id>, extraWayIds: set<Id>,
    relationIds: set<Id>, extraRelationIds: set<Id>)

  const NoIds := IdSets({}, {}, {}, {}, {}, {})

  datatype RunError = StdinNotSupported

  /** One extract's state: the primary and extra ID sets per type, and its output. */
  class Data {
    const region: Region
    var nodeIds: set<Id>
    var extraNodeIds: set<Id>
    var wayIds: set<Id>
    var extraWayIds: set<Id>
    var relationIds: set<Id>
    var extraRelationIds: set<Id>
    /** Everything handed to the extract's writer, in order. */
    var output: seq<Item>

    ghost function State(): IdSets
      reads this
    {
      IdSets(nodeIds, extraNodeIds, wayIds, extraWayIds, relationIds, extraRelationIds)
    }

    constructor (region: Region)
      ensures this.region == region && State() == NoIds && output == []
    {
      this.region := region;
      nodeIds, extraNodeIds, wayIds, extraWayIds, relationIds, extraRelationIds := {}, {}, {}, {}, {}, {};
      output := [];
    }
  }

  /** One extract per region, each freshly allocated and empty. */
  method NewExtracts(regions: seq<Region>) returns (es: seq<Data>)
    ensures |es| == |regions|
    ensures forall i :: 0 <= i < |es| ==> fresh(es[i]) && es[i].region == regions[i]
    ensures forall i :: 0 <= i < |es| ==> es[i].State() == NoIds && es[i].output == []
    ensures forall i, j :: 0 <= i < j < |es| ==> es[i] != es[j]
  {
    es := [];
    for i := 0 to |regions|
      invariant |es| == i
      invariant forall k :: 0 <= k < i ==> fresh(es[k]) && es[k].region == regions[k]
      invariant forall k :: 0 <= k < i ==> es[k].State() == NoIds && es[k].output == []
      invariant forall k, j :: 0 <= k < j < i ==> es[k] != es[j]
    {
      var e := new Data(regions[i]);
      es := es + [e];
    }
  }

  /** The nodes of the list the region contains. */
  function ContainedNodes(region: Region, nodes: seq<Node>): set<Id> {
    set n | n in nodes && region.contains(n.location) :: n.id
  }

  /** Way rule by first node: first node primary and no conflicting tags, or matching tags. */
  predicate FirstNodeRule(region: Region, nodeIds: set<Id>, way: Way) {
    (|way.nodes| > 0 && way.nodes[0] in nodeIds && !region.hasConflictingTags(way.tags))
    || region.hasMatchingTags(way.tags)
  }

  /** A member is primary when it is a node or way member already in the extract's primary set. */
  predicate IsPrimaryMember(nodeIds: set<Id>, wayIds: set<Id>, m: Member) {
    match m.kind
    case NodeType => m.ref in nodeIds
    case WayType => m.ref in wayIds
    case RelationType => false
  }

  predicate HasPrimaryMember(nodeIds: set<Id>, wayIds: set<Id>, members: seq<Member>) {
    exists m :: m in members && IsPrimaryMember(nodeIds, wayIds, m)
  }

  /** Only node and way members decide whether a relation has a primary member. */
  lemma HasPrimaryMemberByRefs(nodeIds: set<Id>, wayIds: set<Id>, members: seq<Member>)
    ensures HasPrimaryMember(nodeIds, wayIds, members) <==>
              Refs(members, NodeType) * nodeIds != {} || Refs(members, WayType) * wayIds != {}
  {
    RefsMembers(members, NodeType);
    RefsMembers(members, WayType);
    if HasPrimaryMember(nodeIds, wayIds, members) {
      var m :| m in members && IsPrimaryMember(nodeIds, wayIds, m);
      assert m.ref in Refs(members, m.kind);
    }
    if Refs(members, NodeType) * nodeIds != {} {
      var x :| x in Refs(members, NodeType) * nodeIds;
      assert IsPrimaryMember(nodeIds, wayIds, Member(NodeType, x));
    }
    if Refs(members, WayType) * wayIds != {} {
      var x :| x in Refs(members, WayType) * wayIds;
      assert IsPrimaryMember(nodeIds, wayIds, Member(WayType, x));
    }
  }

  /** The IDs of the relations with a primary node or way member. */
  function HitRelations(nodeIds: set<Id>, wayIds: set<Id>, relations: seq<Relation>): (r: set<Id>)
  {
    if relations == [] then {}
    else
      var last := relations[|relations| - 1];
      assert relations == relations[..|relations| - 1] + [last];
      HitRelations(nodeIds, wayIds, relations[..|relations| - 1])
        + (if HasPrimaryMember(nodeIds, wayIds, last.members) then {last.id} else {})
  }

  lemma {:induction false} HitRelationsMembers(nodeIds: set<Id>, wayIds: set<Id>, relations: seq<Relation>)
    ensures forall id :: id in HitRelations(nodeIds, wayIds, relations) <==>
              exists rel :: rel in relations && HasPrimaryMember(nodeIds, wayIds, rel.members) && rel.id == id
  {
    if relations != [] {
      var prefix := relations[..|relations| - 1];
      HitRelationsMembers(nodeIds, wayIds, prefix);
      assert relations == prefix + [relations[|relations| - 1]];
    }
  }

  /** The nodes of the ways whose ID is in `wayIds`. */
  function WayNodes(wayIds: set<Id>, ways: seq<Way>): (r: set<Id>)
  {
    if ways == [] then {}
    else
      var last := ways[|ways| - 1];
      assert ways == ways[..|ways| - 1] + [last];
      WayNodes(wayIds, ways[..|ways| - 1]) + (if last.id in wayIds then NodeSet(last.nodes) else {})
  }

  lemma {:induction false} WayNodesMembers(wayIds: set<Id>, ways: seq<Way>)
    ensures forall x :: x in WayNodes(wayIds, ways) <==> exists w :: w in ways && w.id in wayIds && x in w.nodes
  {
    if ways != [] {
      var prefix := ways[..|ways| - 1];
      WayNodesMembers(wayIds, prefix);
      assert ways == prefix + [ways[|ways| - 1]];
    }
  }

  /** Pass 1 node callback: a node the region contains becomes primary. */
  method Pass1Node(d: Data, node: Node)
    modifies d`nodeIds
    ensures d.nodeIds == old(d.nodeIds) + (if d.region.contains(node.location) then {node.id} else {})
  {
    if d.region.contains(node.location) {
      d.nodeIds := d.nodeIds + {node.id};
    }
  }

  /** The node part of pass 1 for one extract. */
  method Pass1Nodes(d: Data, nodes: seq<Node>)
    modifies d`nodeIds
    ensures d.nodeIds == old(d.nodeIds) + ContainedNodes(d.region, nodes)
  {
    for i := 0 to |nodes|
      invariant d.nodeIds == old(d.nodeIds) + ContainedNodes(d.region, nodes[..i])
    {
      assert nodes[..i + 1] == nodes[..i] + [nodes[i]];
      Pass1Node(d, nodes[i]);
    }
    assert nodes[..|nodes|] == nodes;
  }

  /** The nodes the writing pass hands to the writer, in input order. */
  function WrittenNodes(s: IdSets, nodes: seq<Node>): (r: seq<Item>)
    ensures |r| <= |nodes|
    ensures forall x :: x in r <==> x.NodeItem? && x.node in nodes && (x.node.id in s.nodeIds || x.node.id in s.extraNodeIds)
  {
    if nodes == [] then []
    else
      var last := nodes[|nodes| - 1];
      assert nodes == nodes[..|nodes| - 1] + [last];
      WrittenNodes(s, nodes[..|nodes| - 1])
        + (if last.id in s.nodeIds || last.id in s.extraNodeIds then [NodeItem(last)] else [])
  }

  function WrittenWays(s: IdSets, ways: seq<Way>): (r: seq<Item>)
    ensures |r| <= |ways|
    ensures forall x :: x in r <==> x.WayItem? && x.way in ways && (x.way.id in s.wayIds || x.way.id in s.extraWayIds)
  {
    if ways == [] then []
    else
      var last := ways[|ways| - 1];
      assert ways == ways[..|ways| - 1] + [last];
      WrittenWays(s, ways[..|ways| - 1])
        + (if last.id in s.wayIds || last.id in s.extraWayIds then [WayItem(last)] else [])
  }

  function WrittenRelations(s: IdSets, relations: seq<Relation>): (r: seq<Item>)
    ensures |r| <= |relations|
    ensures forall x :: x in r <==>
              x.RelationItem? && x.relation in relations
              && (x.relation.id in s.relationIds || x.relation.id in s.extraRelationIds)
  {
    if relations == [] then []
    else
      var last := relations[|relations| - 1];
      assert relations == relations[..|relations| - 1] + [last];
      WrittenRelations(s, relations[..|relations| - 1])
        + (if last.id in s.relationIds || last.id in s.extraRelationIds then [RelationItem(last)] else [])
  }

  /** Everything the writing pass writes: wanted nodes, then ways, then relations. */
  function Written(s: IdSets, input: Input): seq<Item> {
    WrittenNodes(s, input.nodes) + WrittenWays(s, input.ways) + WrittenRelations(s, input.relations)
  }

  /** An item is written iff it is in the input and its ID is in the primary or extra set of its type. */
  lemma WrittenExactly(s: IdSets, input: Input, x: Item)
    ensures x in Written(s, input) <==>
              match x
              case NodeItem(n) => n in input.nodes && (n.id in s.nodeIds || n.id in s.extraNodeIds)
              case WayItem(w) => w in input.ways && (w.id in s.wayIds || w.id in s.extraWayIds)
              case RelationItem(r) => r in input.relations && (r.id in s.relationIds || r.id in s.extraRelationIds)
  {
  }

  method WriteNode(d: Data, node: Node)
    modifies d`output
    ensures d.output == old(d.output) + (if node.id in d.nodeIds || node.id in d.extraNodeIds then [NodeItem(node)] else [])
  {
    if node.id in d.nodeIds || node.id in d.extraNodeIds {
      d.output := d.output + [NodeItem(node)];
    }
  }

  method WriteWay(d: Data, way: Way)
    modifies d`output
    ensures d.output == old(d.output) + (if way.id in d.wayIds || way.id in d.extraWayIds then [WayItem(way)] else [])
  {
    if way.id in d.wayIds || way.id in d.extraWayIds {
      d.output := d.output + [WayItem(way)];
    }
  }

  method WriteRelation(d: Data, relation: Relation)
    modifies d`output
    ensures d.output == old(d.output)
                        + (if relation.id in d.relationIds || relation.id in d.extraRelationIds
                           then [RelationItem(relation)] else [])
  {
    if relation.id in d.relationIds || relation.id in d.extraRelationIds {
      d.output := d.output + [RelationItem(relation)];
    }
  }

  method WriteNodes(d: Data, nodes: seq<Node>)
    modifies d`output
    ensures d.output == old(d.output) + WrittenNodes(d.State(), nodes)
  {
    for i := 0 to |nodes|
      invariant d.output == old(d.output) + WrittenNodes(d.State(), nodes[..i])
    {
      assert nodes[..i + 1][..i] == nodes[..i];
      WriteNode(d, nodes[i]);
    }
    assert nodes[..|nodes|] == nodes;
  }

  method WriteWays(d: Data, ways: seq<Way>)
    modifies d`output
    ensures d.output == old(d.output) + WrittenWays(d.State(), ways)
  {
    for i := 0 to |ways|
      invariant d.output == old(d.output) + WrittenWays(d.State(), ways[..i])
    {
      assert ways[..i + 1][..i] == ways[..i];
      WriteWay(d, ways[i]);
    }
    assert ways[..|ways|] == ways;
  }

  method WriteRelations(d: Data, relations: seq<Relation>)
    modifies d`output
    ensures d.output == old(d.output) + WrittenRelations(d.State(), relations)
  {
    for i := 0 to |relations|
      invariant d.output == old(d.output) + WrittenRelations(d.State(), relations[..i])
    {
      assert relations[..i + 1][..i] == relations[..i];
      WriteRelation(d, relations[i]);
    }
    assert relations[..|relations|] == relations;
  }

  /** The writing pass over the whole input for one extract. */
  method WritePass(d: Data, input: Input)
    modifies d`output
    ensures d.output == old(d.output) + Written(d.State(), input)
  {
    WriteNodes(d, input.nodes);
    WriteWays(d, input.ways);
    WriteRelations(d, input.relations);
  }
}
