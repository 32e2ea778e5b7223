/**
 * The per-extract logic of the `smart_by_first_node_and_tags` strategy:
 * option handling, the three relation checks, member pull-in, the upward
 * parent walk and the callbacks of passes 1 and 2 (pass 3 is the shared
 * writing pass).
 */
module SmartByFirstNodeAndTags {
  import opened Wrappers
  import opened Osm
  import opened TagsFilter
  import opened RelationGraph
  import opened ExtractData

  /**
   * The strategy's configuration: the relation types to complete (empty for
   * any), the percentage of members that completes a partial relation, and
   * the tag rules a completed relation must match.
   */
  datatype Config = Config(types: seq<string>, percentage: nat, filter: Filter)

  /** The percentage when `complete-partial-relations` is not given: partial relations are not completed. */
  const DefaultPercentage: nat := 100

  const DefaultConfig := Config(["multipolygon"], DefaultPercentage, EmptyFilter)

  const KnownOptions: set<string> := {"types", "complete-partial-relations", "tags"}

  /** The values of `types` that accept every relation type. */
  predicate AcceptsAnyType(value: string) {
    value == "" || value == "any" || value == "true"
  }

  /** A parsed percentage outside 1..100 is stored as 100. */
  function ClampPercentage(parsed: int): (p: nat)
    ensures 1 <= p <= 100
    ensures 1 <= parsed <= 100 ==> p == parsed
    ensures (parsed <= 0 || parsed > 100) ==> p == 100
  {
    if parsed <= 0 || parsed > 100 then 100 else parsed
  }

  /** What the constructor's option loop leaves behind once it has seen the keys in `done`. */
  predicate AppliedSoFar(options: map<string, string>, done: set<string>, split: string -> seq<string>,
                         toInt: string -> int, config: Config, ignored: set<string>)
    requires done <= options.Keys
  {
    && ("types" in done && AcceptsAnyType(options["types"]) ==> config.types == [])
    && ("types" in done && !AcceptsAnyType(options["types"]) ==> config.types == split(options["types"]))
    && ("types" !in done ==> config.types == ["multipolygon"])
    && ("complete-partial-relations" in done && options["complete-partial-relations"] != "" ==>
          config.percentage == ClampPercentage(toInt(options["complete-partial-relations"])))
    && (("complete-partial-relations" in done ==> options["complete-partial-relations"] == "") ==>
          config.percentage == DefaultPercentage)
    && ("tags" in done ==> BuiltFrom(config.filter, split(options["tags"]), '='))
    && ("tags" !in done ==> config.filter == EmptyFilter)
    && ignored == done - KnownOptions
  }

  /** What the constructor's option loop leaves behind for a given option map. */
  predicate OptionsApplied(options: map<string, string>, split: string -> seq<string>, toInt: string -> int,
                           config: Config, ignored: set<string>) {
    AppliedSoFar(options, options.Keys, split, toInt, config, ignored)
  }

  /** One turn of the constructor's option loop: handling `key` extends what was applied by that key. */
  lemma AppliedStep(options: map<string, string>, done: set<string>, key: string, split: string -> seq<string>,
                    toInt: string -> int, config: Config, ignored: set<string>, config': Config, ignored': set<string>)
    requires done <= options.Keys && key in options.Keys && key !in done
    requires AppliedSoFar(options, done, split, toInt, config, ignored)
    requires key == "types" ==>
               && config' == config.(types := if AcceptsAnyType(options[key]) then [] else split(options[key]))
               && ignored' == ignored
    requires key == "complete-partial-relations" ==>
               && config' == (if options[key] == "" then config
                              else config.(percentage := ClampPercentage(toInt(options[key]))))
               && ignored' == ignored
    requires key == "tags" ==>
               && config' == config.(filter := config'.filter)
               && BuiltFrom(config'.filter, split(options[key]), '=')
               && ignored' == ignored
    requires key !in KnownOptions ==> config' == config && ignored' == ignored + {key}
    ensures AppliedSoFar(options, done + {key}, split, toInt, config', ignored')
  {
    assert "types" != "tags" by {
      assert "types"[1] != "tags"[1];
    }
  }

  /**
   * The constructor's loop over the options. `split` stands for splitting on
   * commas, `toInt` for the integer parse of the percentage.
   */
  method ParseOptions(options: map<string, string>, split: string -> seq<string>, toInt: string -> int)
    returns (config: Config, ignored: set<string>)
    ensures OptionsApplied(options, split, toInt, config, ignored)
    ensures 1 <= config.percentage <= 100
  {
    config, ignored := DefaultConfig, {};
    var todo := options.Keys;
    while todo != {}
      invariant todo <= options.Keys
      invariant 1 <= config.percentage <= 100
      invariant AppliedSoFar(options, options.Keys - todo, split, toInt, config, ignored)
      decreases todo
    {
      var key :| key in todo;
      var value := options[key];
      ghost var (config0, ignored0) := (config, ignored);
      if key == "types" {
        if AcceptsAnyType(value) {
          config := config.(types := []);
        } else {
          config := config.(types := split(value));
        }
      } else if key == "complete-partial-relations" {
        if value != "" {
          config := config.(percentage := ClampPercentage(toInt(value)));
        }
      } else if key == "tags" {
        assert config.filter == EmptyFilter;
        var f := AddFilterRules(config.filter, split(value), '=');
        config := config.(filter := f);
      } else {
        ignored := ignored + {key};
      }
      AppliedStep(options, options.Keys - todo, key, split, toInt, config0, ignored0, config, ignored);
      assert options.Keys - (todo - {key}) == (options.Keys - todo) + {key};
      todo := todo - {key};
    }
  }

  /** check_members_count: enough of the members are in the extract. */
  predicate CheckMembersCount(percentage: nat, size: nat, wanted: nat) {
    wanted * 100 >= size * percentage
  }

  /** At the default percentage a relation counts as complete only when all its members are wanted. */
  lemma DefaultPercentageNeedsAll(size: nat, wanted: nat)
    ensures CheckMembersCount(DefaultPercentage, size, wanted) <==> wanted >= size
  {
  }

  /** The count test is monotone: more wanted members never fail where fewer pass. */
  lemma CheckMembersCountMonotone(percentage: nat, size: nat, wanted: nat, more: nat)
    requires wanted <= more && CheckMembersCount(percentage, size, wanted)
    ensures CheckMembersCount(percentage, size, more)
  {
  }

  /**
   * check_type: any type when the list is empty; otherwise the value of the
   * first `type` tag must be in the list, and a relation without one fails.
   */
  function CheckType(config: Config, relation: Relation): (r: bool)
    ensures config.types == [] ==> r
    ensures config.types != [] && (forall t :: t in relation.tags ==> t.key != "type") ==> !r
    ensures config.types != [] ==>
              (r <==> exists i :: 0 <= i < |relation.tags| && relation.tags[i].key == "type"
                                  && (forall j :: 0 <= j < i ==> relation.tags[j].key != "type")
                                  && relation.tags[i].value in config.types)
  {
    if config.types == [] then true
    else
      match GetValue(relation.tags, "type")
      case None => false
      case Some(t) => t in config.types
  }

  predicate CheckTags(config: Config, relation: Relation) {
    MatchAnyOf(relation.tags, config.filter)
  }

  /** The number of node and way members of `members` the extract holds primarily. */
  function WantedMembers(nodeIds: set<Id>, wayIds: set<Id>, members: seq<Member>): (r: nat)
    ensures r <= |members|
    ensures r == 0 <==> !HasPrimaryMember(nodeIds, wayIds, members)
  {
    if members == [] then 0
    else
      var last := members[|members| - 1];
      assert members == members[..|members| - 1] + [last];
      WantedMembers(nodeIds, wayIds, members[..|members| - 1]) + (if IsPrimaryMember(nodeIds, wayIds, last) then 1 else 0)
  }

  /** Every member is counted exactly when every member is a primary node or way. */
  lemma {:induction false} WantedMembersAll(nodeIds: set<Id>, wayIds: set<Id>, members: seq<Member>)
    ensures WantedMembers(nodeIds, wayIds, members) == |members| <==>
              forall m :: m in members ==> IsPrimaryMember(nodeIds, wayIds, m)
  {
    if members != [] {
      var prefix := members[..|members| - 1];
      var last := members[|members| - 1];
      WantedMembersAll(nodeIds, wayIds, prefix);
      assert members == prefix + [last];
    }
  }

  /** Whether pass 1 pulls in the members of a relation. */
  predicate PullsMembers(config: Config, nodeIds: set<Id>, wayIds: set<Id>, relation: Relation) {
    && CheckTags(config, relation)
    && ((HasPrimaryMember(nodeIds, wayIds, relation.members) && CheckType(config, relation))
        || CheckMembersCount(config.percentage, |relation.members|, WantedMembers(nodeIds, wayIds, relation.members)))
  }

  /**
   * The extra set of one kind after Data::add_relation_members: the old
   * extras and every member of that kind, primary or not.
   */
  function AddMembers(extra: set<Id>, members: seq<Member>, kind: ItemType): (r: set<Id>)
    ensures extra <= r
    ensures forall id :: id in r <==> id in extra || Member(kind, id) in members
  {
    RefsMembers(members, kind);
    extra + Refs(members, kind)
  }

  /** Data::add_relation_members: every node and way member becomes extra, primary or not. */
  method AddRelationMembers(d: Data, relation: Relation)
    modifies d`extraNodeIds, d`extraWayIds
    ensures d.extraNodeIds == AddMembers(old(d.extraNodeIds), relation.members, NodeType)
    ensures d.extraWayIds == AddMembers(old(d.extraWayIds), relation.members, WayType)
  {
    var members := relation.members;
    for i := 0 to |members|
      invariant d.extraNodeIds == old(d.extraNodeIds) + Refs(members[..i], NodeType)
      invariant d.extraWayIds == old(d.extraWayIds) + Refs(members[..i], WayType)
    {
      assert members[..i + 1][..i] == members[..i];
      var member := members[i];
      match member.kind
      case NodeType =>
        d.extraNodeIds := d.extraNodeIds + {member.ref};
      case WayType =>
        d.extraWayIds := d.extraWayIds + {member.ref};
      case RelationType =>
    }
    assert members[..|members|] == members;
  }

  /** Pulling in the members of the same relation a second time changes nothing. */
  lemma AddMembersIdempotent(extra: set<Id>, members: seq<Member>, kind: ItemType)
    ensures AddMembers(AddMembers(extra, members, kind), members, kind) == AddMembers(extra, members, kind)
  {
  }

  /** Pass 1 way callback: the way is primary by the first-node rule; no node is added. */
  method Pass1Way(d: Data, way: Way)
    requires |way.nodes| > 0
    modifies d`wayIds
    ensures d.wayIds == old(d.wayIds) + (if FirstNodeRule(d.region, d.nodeIds, way) then {way.id} else {})
  {
    var firstNode := way.nodes[0];
    if (firstNode in d.nodeIds && !d.region.hasConflictingTags(way.tags)) || d.region.hasMatchingTags(way.tags) {
      d.wayIds := d.wayIds + {way.id};
      return;
    }
  }

  /**
   * Pass 1 relation callback. The relation becomes primary at its first
   * primary node or way member; if it then has the wanted type and tags its
   * members are pulled in at once. Otherwise the primary members are counted
   * and the members are pulled in when the count test and the tags pass.
   */
  method Pass1Relation(d: Data, config: Config, relation: Relation)
    modifies d`relationIds, d`extraNodeIds, d`extraWayIds
    ensures d.relationIds == old(d.relationIds)
                             + (if HasPrimaryMember(d.nodeIds, d.wayIds, relation.members) then {relation.id} else {})
    ensures d.extraNodeIds == if PullsMembers(config, d.nodeIds, d.wayIds, relation)
                              then AddMembers(old(d.extraNodeIds), relation.members, NodeType) else old(d.extraNodeIds)
    ensures d.extraWayIds == if PullsMembers(config, d.nodeIds, d.wayIds, relation)
                             then AddMembers(old(d.extraWayIds), relation.members, WayType) else old(d.extraWayIds)
  {
    var members := relation.members;
    var wanted: nat := 0;
    for i := 0 to |members|
      invariant wanted == WantedMembers(d.nodeIds, d.wayIds, members[..i])
      invariant d.relationIds == old(d.relationIds) + (if wanted > 0 then {relation.id} else {})
      invariant wanted > 0 ==> !(CheckType(config, relation) && CheckTags(config, relation))
      invariant d.extraNodeIds == old(d.extraNodeIds) && d.extraWayIds == old(d.extraWayIds)
    {
      assert members[..i + 1][..i] == members[..i];
      var member := members[i];
      if IsPrimaryMember(d.nodeIds, d.wayIds, member) {
        if wanted == 0 {
          d.relationIds := d.relationIds + {relation.id};
          if CheckType(config, relation) && CheckTags(config, relation) {
            assert members[i] in members;
            AddRelationMembers(d, relation);
            return;
          }
        }
        wanted := wanted + 1;
      }
    }
    assert members[..|members|] == members;
    if CheckMembersCount(config.percentage, |members|, wanted) && CheckTags(config, relation) {
      AddRelationMembers(d, relation);
    }
  }

  lemma {:induction false} SubsetSmaller(a: set<Id>, b: set<Id>)
    requires a <= b
    ensures |a| <= |b|
    decreases b
  {
    if b != {} {
      var x :| x in b;
      SubsetSmaller(a - {x}, b - {x});
      if x in a {
        assert a == (a - {x}) + {x};
      } else {
        assert a - {x} == a;
      }
      assert b == (b - {x}) + {x};
    }
  }

  /** Every relation in `r` but not in `r0` is outside `xr` and reachable upwards from `from`. */
  ghost predicate AddedUpwards(edges: seq<Edge>, from: Id, r0: set<Id>, r: set<Id>, xr: set<Id>) {
    forall x :: x in r - r0 ==> x !in xr && Reachable(edges, ParentsOnly, {from}, x)
  }

  /** Every parent of a relation in `s` is in `r` or in `xr`. */
  ghost predicate ParentsCovered(edges: seq<Edge>, s: set<Id>, r: set<Id>, xr: set<Id>) {
    forall x, y :: x in s && Linked(edges, ParentsOnly, x, y) ==> y in r + xr
  }

  /**
   * The loop of add_relation_parents over the parents of `id`, after `i` of
   * them: what was added came from `id`, and the parents of the added
   * relations and the first `i` parents of `id` are all in one of the sets.
   */
  ghost predicate ParentLoop(edges: seq<Edge>, id: Id, parents: seq<Id>, i: nat, r0: set<Id>, r: set<Id>, xr: set<Id>) {
    && i <= |parents|
    && r0 <= r
    && AddedUpwards(edges, id, r0, r, xr)
    && ParentsCovered(edges, r - r0, r, xr)
    && forall j :: 0 <= j < i ==> parents[j] in r + xr
  }

  /** What the recursive call for `parents[i]` adds keeps the loop's facts about `id`. */
  lemma ParentStep(edges: seq<Edge>, id: Id, parents: seq<Id>, i: nat, r0: set<Id>, mid: set<Id>, before: set<Id>,
                   after: set<Id>, xr: set<Id>)
    requires i < |parents| && ParentLoop(edges, id, parents, i, r0, mid, xr)
    requires parents[i] !in mid && parents[i] !in xr && before == mid + {parents[i]} && before <= after
    requires Edge(parents[i], id) in edges
    requires AddedUpwards(edges, parents[i], before, after, xr)
    requires ParentsCovered(edges, (after - before) + {parents[i]}, after, xr)
    ensures ParentLoop(edges, id, parents, i + 1, r0, after, xr)
  {
    var parent := parents[i];
    ReachableSeed(edges, ParentsOnly, {id}, id);
    ReachableStep(edges, ParentsOnly, {id}, id, parent);
    forall x | x in after - r0 ensures x !in xr && Reachable(edges, ParentsOnly, {id}, x) {
      if x in after - before {
        ReachableVia(edges, ParentsOnly, {id}, parent, x);
      }
    }
  }

  /**
   * Data::add_relation_parents: every parent of `id` that is in neither
   * relation set becomes primary, and its parents are added in turn. Only
   * relations reachable upwards from `id` are added, and afterwards every
   * parent of `id` and of every added relation is in one of the two sets.
   */
  method AddRelationParents(d: Data, id: Id, edges: seq<Edge>)
    modifies d`relationIds
    decreases |Endpoints(edges) - d.relationIds|
    ensures old(d.relationIds) <= d.relationIds
    ensures AddedUpwards(edges, id, old(d.relationIds), d.relationIds, d.extraRelationIds)
    ensures ParentsCovered(edges, (d.relationIds - old(d.relationIds)) + {id}, d.relationIds, d.extraRelationIds)
  {
    ghost var r0 := d.relationIds;
    var parents := ParentsOf(edges, id);
    for i := 0 to |parents|
      invariant ParentLoop(edges, id, parents, i, r0, d.relationIds, d.extraRelationIds)
    {
      var parent := parents[i];
      if parent !in d.relationIds && parent !in d.extraRelationIds {
        ghost var mid := d.relationIds;
        d.relationIds := d.relationIds + {parent};
        assert |Endpoints(edges) - d.relationIds| < |Endpoints(edges) - r0| by {
          assert parent in Endpoints(edges) by {
            assert Linked(edges, ParentsAndMembers, id, parent);
          }
          ghost var left := Endpoints(edges) - r0;
          assert Endpoints(edges) - d.relationIds <= left - {parent};
          SubsetSmaller(Endpoints(edges) - d.relationIds, left - {parent});
          assert |left - {parent}| < |left|;
        }
        ghost var before := d.relationIds;
        AddRelationParents(d, parent, edges);
        ParentStep(edges, id, parents, i, r0, mid, before, d.relationIds, d.extraRelationIds);
      }
    }
    forall y | Linked(edges, ParentsOnly, id, y) ensures y in d.relationIds + d.extraRelationIds {
      assert y in parents;
    }
  }

  /**
   * The loop of run over one extract's relation IDs (taken as they are when
   * the loop starts): afterwards every parent of a primary relation is in one
   * of the two relation sets, and only relations reachable upwards from the
   * original ones were added.
   */
  method AddAllRelationParents(d: Data, edges: seq<Edge>)
    modifies d`relationIds
    ensures old(d.relationIds) <= d.relationIds
    ensures forall x :: x in d.relationIds - old(d.relationIds) ==>
              x !in d.extraRelationIds && Reachable(edges, ParentsOnly, old(d.relationIds), x)
    ensures forall x, y :: (x in d.relationIds && Linked(edges, ParentsOnly, x, y)) ==> y in d.relationIds + d.extraRelationIds
  {
    ghost var r0 := d.relationIds;
    var todo := d.relationIds;
    while todo != {}
      invariant todo <= r0 <= d.relationIds
      invariant forall x :: x in d.relationIds - r0 ==> x !in d.extraRelationIds && Reachable(edges, ParentsOnly, r0, x)
      invariant forall x, y :: (x in (r0 - todo) + (d.relationIds - r0) && Linked(edges, ParentsOnly, x, y)) ==>
                  y in d.relationIds + d.extraRelationIds
      decreases todo
    {
      var id :| id in todo;
      ghost var before := d.relationIds;
      AddRelationParents(d, id, edges);
      ReachableSeed(edges, ParentsOnly, r0, id);
      forall x | x in d.relationIds - before ensures Reachable(edges, ParentsOnly, r0, x) {
        ReachableVia(edges, ParentsOnly, r0, id, x);
      }
      todo := todo - {id};
    }
  }

  /** Pass 2 way callback: every node of a primary or extra way becomes extra. */
  method Pass2Way(d: Data, way: Way)
    modifies d`extraNodeIds
    ensures d.extraNodeIds == if way.id in d.wayIds + d.extraWayIds then old(d.extraNodeIds) + NodeSet(way.nodes)
                              else old(d.extraNodeIds)
  {
    if way.id in d.wayIds || way.id in d.extraWayIds {
      for i := 0 to |way.nodes|
        invariant d.extraNodeIds == old(d.extraNodeIds) + NodeSet(way.nodes[..i])
      {
        assert way.nodes[..i + 1] == way.nodes[..i] + [way.nodes[i]];
        d.extraNodeIds := d.extraNodeIds + {way.nodes[i]};
      }
      assert way.nodes[..|way.nodes|] == way.nodes;
    }
  }
}
