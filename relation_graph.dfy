/**
 * The relation index the first pass collects (libosmium's RelationsMapStash)
 * as a sequence of (parent, member) pairs, the two lookups the strategies
 * make on it, and reachability over it.
 */
module RelationGraph {
  import opened Osm

  /** Relation `parent` has relation `member` among its members. */
  datatype Edge = Edge(parent: Id, member: Id)

  /** The pairs `add_members` records for one relation: one per relation-typed member, in member order. */
  function EdgesFrom(parent: Id, members: seq<Member>): (r: seq<Edge>)
    ensures forall e :: e in r <==> e.parent == parent && Member(RelationType, e.member) in members
  {
    if members == [] then []
    else
      var last := members[|members| - 1];
      assert members == members[..|members| - 1] + [last];
      EdgesFrom(parent, members[..|members| - 1]) + (if last.kind == RelationType then [Edge(parent, last.ref)] else [])
  }

  /** The stash after `add_members` was called on each of `relations`, in order. */
  function Stash(relations: seq<Relation>): (r: seq<Edge>)
    ensures forall e :: e in r <==>
              exists rel :: rel in relations && e.parent == rel.id && Member(RelationType, e.member) in rel.members
  {
    if relations == [] then []
    else
      var last := relations[|relations| - 1];
      assert relations == relations[..|relations| - 1] + [last];
      Stash(relations[..|relations| - 1]) + EdgesFrom(last.id, last.members)
  }

  /** Every relation ID the index mentions. */
  function Endpoints(edges: seq<Edge>): set<Id> {
    (set e | e in edges :: e.parent) + (set e | e in edges :: e.member)
  }

  /** `for_each` on the member-to-parent index: the parents of `id`. */
  function ParentsOf(edges: seq<Edge>, id: Id): (r: seq<Id>)
    ensures forall p :: p in r <==> Edge(p, id) in edges
  {
    if edges == [] then []
    else
      var last := edges[|edges| - 1];
      assert edges == edges[..|edges| - 1] + [last];
      ParentsOf(edges[..|edges| - 1], id) + (if last.member == id then [last.parent] else [])
  }

  /** `for_each` on the parent-to-member index: the relation members of `id`. */
  function MembersOf(edges: seq<Edge>, id: Id): (r: seq<Id>)
    ensures forall m :: m in r <==> Edge(id, m) in edges
  {
    if edges == [] then []
    else
      var last := edges[|edges| - 1];
      assert edges == edges[..|edges| - 1] + [last];
      MembersOf(edges[..|edges| - 1], id) + (if last.parent == id then [last.member] else [])
  }

  /** Which way a traversal follows the index: upwards only, or both ways. */
  datatype Links = ParentsOnly | ParentsAndMembers

  /** `y` is a neighbour of `x`: a parent of it, or (following both ways) one of its relation members. */
  ghost predicate Linked(edges: seq<Edge>, links: Links, x: Id, y: Id) {
    Edge(y, x) in edges || (links == ParentsAndMembers && Edge(x, y) in edges)
  }

  /** What one call of the traversal queues for `x`: its parents, then (both ways) its members. */
  function Neighbours(edges: seq<Edge>, links: Links, x: Id): (r: seq<Id>)
    ensures forall y :: y in r <==> Linked(edges, links, x, y)
    ensures forall y :: y in r ==> y in Endpoints(edges)
  {
    ParentsOf(edges, x) + (if links == ParentsAndMembers then MembersOf(edges, x) else [])
  }

  ghost predicate IsWalk(edges: seq<Edge>, links: Links, w: seq<Id>) {
    |w| > 0 && forall i :: 0 <= i < |w| - 1 ==> Linked(edges, links, w[i], w[i + 1])
  }

  /** `y` can be reached from some seed by following links. */
  ghost predicate Reachable(edges: seq<Edge>, links: Links, seeds: set<Id>, y: Id) {
    exists w :: IsWalk(edges, links, w) && w[0] in seeds && w[|w| - 1] == y
  }

  /** No link leads out of `s`. */
  ghost predicate Closed(edges: seq<Edge>, links: Links, s: set<Id>) {
    forall x, y :: x in s && Linked(edges, links, x, y) ==> y in s
  }

  /** The seeds together with everything reachable from them. */
  ghost function Closure(edges: seq<Edge>, links: Links, seeds: set<Id>): set<Id> {
    set y | y in seeds + Endpoints(edges) && Reachable(edges, links, seeds, y)
  }

  lemma ReachableSeed(edges: seq<Edge>, links: Links, seeds: set<Id>, x: Id)
    requires x in seeds
    ensures Reachable(edges, links, seeds, x)
  {
    assert IsWalk(edges, links, [x]);
  }

  lemma ReachableStep(edges: seq<Edge>, links: Links, seeds: set<Id>, x: Id, y: Id)
    requires Reachable(edges, links, seeds, x) && Linked(edges, links, x, y)
    ensures Reachable(edges, links, seeds, y)
  {
    var w :| IsWalk(edges, links, w) && w[0] in seeds && w[|w| - 1] == x;
    var w' := w + [y];
    assert forall i :: 0 <= i < |w| ==> w'[i] == w[i];
    assert IsWalk(edges, links, w');
  }

  /** Reachability composes: what is reachable from a reachable ID is reachable from the seeds. */
  lemma ReachableVia(edges: seq<Edge>, links: Links, seeds: set<Id>, mid: Id, y: Id)
    requires Reachable(edges, links, seeds, mid) && Reachable(edges, links, {mid}, y)
    ensures Reachable(edges, links, seeds, y)
  {
    var w1 :| IsWalk(edges, links, w1) && w1[0] in seeds && w1[|w1| - 1] == mid;
    var w2 :| IsWalk(edges, links, w2) && w2[0] in {mid} && w2[|w2| - 1] == y;
    var w := w1 + w2[1..];
    assert forall i :: 0 <= i < |w1| ==> w[i] == w1[i];
    assert forall i :: |w1| <= i < |w| ==> w[i] == w2[i - |w1| + 1];
    assert IsWalk(edges, links, w);
    assert w[|w| - 1] == y;
  }

  /** A reachable ID is a seed or is mentioned by the index. */
  lemma ReachableEndpoint(edges: seq<Edge>, links: Links, seeds: set<Id>, y: Id)
    requires Reachable(edges, links, seeds, y)
    ensures y in seeds + Endpoints(edges)
  {
    var w :| IsWalk(edges, links, w) && w[0] in seeds && w[|w| - 1] == y;
    if |w| > 1 {
      assert Linked(edges, links, w[|w| - 2], y);
      if Edge(y, w[|w| - 2]) in edges {
        assert y in set e | e in edges :: e.parent;
      } else {
        assert y in set e | e in edges :: e.member;
      }
    }
  }

  lemma {:induction false} WalkStaysIn(edges: seq<Edge>, links: Links, s: set<Id>, w: seq<Id>, k: nat)
    requires IsWalk(edges, links, w) && w[0] in s && Closed(edges, links, s)
    requires k < |w|
    ensures w[k] in s
  {
    if k > 0 {
      WalkStaysIn(edges, links, s, w, k - 1);
      assert Linked(edges, links, w[k - 1], w[k]);
    }
  }

  /** A closed set that holds the seeds holds everything reachable from them. */
  lemma ClosedContainsReachable(edges: seq<Edge>, links: Links, seeds: set<Id>, s: set<Id>, y: Id)
    requires seeds <= s && Closed(edges, links, s)
    requires Reachable(edges, links, seeds, y)
    ensures y in s
  {
    var w :| IsWalk(edges, links, w) && w[0] in seeds && w[|w| - 1] == y;
    WalkStaysIn(edges, links, s, w, |w| - 1);
  }

  /**
   * The closure is the only closed set that holds the seeds and holds only
   * reachable IDs; this is what a traversal's result is checked against.
   */
  lemma ClosureUnique(edges: seq<Edge>, links: Links, seeds: set<Id>, s: set<Id>)
    requires seeds <= s && Closed(edges, links, s)
    requires forall y :: y in s ==> Reachable(edges, links, seeds, y)
    ensures s == Closure(edges, links, seeds)
  {
    forall y | y in s ensures y in Closure(edges, links, seeds) {
      ReachableEndpoint(edges, links, seeds, y);
    }
    forall y | y in Closure(edges, links, seeds) ensures y in s {
      ClosedContainsReachable(edges, links, seeds, s, y);
    }
  }

  /** The closure is closed, holds the seeds and nothing unreachable. */
  lemma ClosureIsClosed(edges: seq<Edge>, links: Links, seeds: set<Id>)
    ensures seeds <= Closure(edges, links, seeds)
    ensures Closed(edges, links, Closure(edges, links, seeds))
  {
    var c := Closure(edges, links, seeds);
    forall x | x in seeds ensures x in c {
      ReachableSeed(edges, links, seeds, x);
    }
    forall x, y | x in c && Linked(edges, links, x, y) ensures y in c {
      ReachableStep(edges, links, seeds, x, y);
      ReachableEndpoint(edges, links, seeds, y);
    }
  }

  /**
   * What a traversal from `seeds` leaves in `found` (reachable, not a seed,
   * and no link leading out of seeds and found together) is exactly the rest
   * of the closure.
   */
  lemma TraversalIsClosure(edges: seq<Edge>, links: Links, seeds: set<Id>, found: set<Id>)
    requires forall x :: x in found ==> x !in seeds && Reachable(edges, links, seeds, x)
    requires forall x, y :: (x in seeds + found && Linked(edges, links, x, y)) ==> y in seeds + found
    ensures found == Closure(edges, links, seeds) - seeds
  {
    forall y | y in seeds + found ensures Reachable(edges, links, seeds, y) {
      if y in seeds {
        ReachableSeed(edges, links, seeds, y);
      }
    }
    ClosureUnique(edges, links, seeds, seeds + found);
  }
}
