/**
 * The OpenStreetMap values the extract strategies read: nodes, ways and
 * relations with their tags, and relation members typed by item kind.
 * Object IDs are naturals: the strategies only ever use `positive_id()` and
 * `positive_ref()`.
 */
module Osm {

  type Id = nat

  /** The item kinds a relation member can have (osmium::item_type). */
  datatype ItemType = NodeType | WayType | RelationType

  datatype Member = Member(kind: ItemType, ref: Id)

  datatype Tag = Tag(key: string, value: string)

  /** A node location; the coordinates are only ever passed to the region's containment test. */
  datatype Location = Location(x: int, y: int)

  datatype Node = Node(id: Id, location: Location, tags: seq<Tag>)

  datatype Way = Way(id: Id, nodes: seq<Id>, tags: seq<Tag>)

  datatype Relation = Relation(id: Id, members: seq<Member>, tags: seq<Tag>)

  /** What an extract's writer receives. */
  datatype Item = NodeItem(node: Node) | WayItem(way: Way) | RelationItem(relation: Relation)

  /**
   * One input file as the passes read it: all nodes, then all ways, then all
   * relations, each in file order. An empty file name stands for STDIN.
   */
  datatype Input = Input(filename: string, nodes: seq<Node>, ways: seq<Way>, relations: seq<Relation>)

  /** The order libosmium's CheckOrder handler enforces during the first pass: IDs strictly ascending per type. */
  ghost predicate Ascending(input: Input) {
    && (forall i, j :: 0 <= i < j < |input.nodes| ==> input.nodes[i].id < input.nodes[j].id)
    && (forall i, j :: 0 <= i < j < |input.ways| ==> input.ways[i].id < input.ways[j].id)
    && (forall i, j :: 0 <= i < j < |input.relations| ==> input.relations[i].id < input.relations[j].id)
  }

  /** Every way references at least one node, so that `way.nodes().front()` is defined. */
  ghost predicate NonEmptyWays(input: Input) {
    forall w :: w in input.ways ==> |w.nodes| > 0
  }

  /** The set of node IDs a way references. */
  function NodeSet(nodes: seq<Id>): set<Id> {
    set x | x in nodes
  }

  /** The IDs of the members of one kind, as a `switch (member.type())` case sees them. */
  function Refs(members: seq<Member>, kind: ItemType): set<Id> {
    if members == [] then {}
    else
      var last := members[|members| - 1];
      Refs(members[..|members| - 1], kind) + (if last.kind == kind then {last.ref} else {})
  }

  lemma {:induction false} RefsMembers(members: seq<Member>, kind: ItemType)
    ensures forall id :: id in Refs(members, kind) <==> Member(kind, id) in members
  {
    if members != [] {
      var prefix := members[..|members| - 1];
      RefsMembers(prefix, kind);
      assert members == prefix + [members[|members| - 1]];
    }
  }

  /** In ascending input, an ID names at most one way. */
  lemma UniqueWayIds(input: Input, w: Way, w': Way)
    requires Ascending(input)
    requires w in input.ways && w' in input.ways && w.id == w'.id
    ensures w == w'
  {
    var i :| 0 <= i < |input.ways| && input.ways[i] == w;
    var j :| 0 <= j < |input.ways| && input.ways[j] == w';
  }

  /** In ascending input, an ID names at most one relation. */
  lemma UniqueRelationIds(input: Input, r: Relation, r': Relation)
    requires Ascending(input)
    requires r in input.relations && r' in input.relations && r.id == r'.id
    ensures r == r'
  {
    var i :| 0 <= i < |input.relations| && input.relations[i] == r;
    var j :| 0 <= j < |input.relations| && input.relations[j] == r';
  }
}
