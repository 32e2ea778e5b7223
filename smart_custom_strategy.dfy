/**
 * Strategy::run of `smart_custom`: the strategy object holding the extracts
 * and the parsed options, the four passes over all extracts and the tests
 * that decide whether passes 2 and 3 run.
 */
module SmartCustomStrategy {
  import opened Wrappers
  import opened Osm
  import opened RelationGraph
  import opened ExtractData
  import opened SmartCustom
  import opened SmartCustomRun

  /** Which of the optional passes a run executed. */
  datatype PassesRun = PassesRun(pass2: bool, pass3: bool)

  class Strategy {
    const extracts: seq<Data>
    const config: Config
    /** The option keys the constructor warned about and ignored. */
    const ignoredOptions: set<string>

    ghost function Repr(): set<Data>
      reads this
    {
      set e | e in extracts
    }

    /** The extracts are distinct objects. */
    ghost predicate Valid()
      reads this
    {
      forall i, j :: 0 <= i < j < |extracts| ==> extracts[i] != extracts[j]
    }

    /** No pass has run yet. */
    ghost predicate Initial()
      reads this, Repr()
    {
      forall e :: e in extracts ==> e.State() == NoIds && e.output == []
    }

    /**
     * The constructor: one empty extract per region and the options applied.
     * `split` stands for splitting an option value on commas.
     */
    constructor (regions: seq<Region>, options: map<string, string>, split: string -> seq<string>)
      ensures |extracts| == |regions| && forall i :: 0 <= i < |regions| ==> extracts[i].region == regions[i]
      ensures fresh(Repr()) && Valid() && Initial()
      ensures OptionsApplied(options, split, config, ignoredOptions)
    {
      var es := NewExtracts(regions);
      var c, ignored := ParseOptions(options, split);
      extracts, config, ignoredOptions := es, c, ignored;
    }

    /** The first find_if of run: does some extract have extra relations? */
    method HasExtraRelations() returns (b: bool)
      ensures b <==> exists e :: e in extracts && e.extraRelationIds != {}
    {
      for i := 0 to |extracts|
        invariant forall k :: 0 <= k < i ==> extracts[k].extraRelationIds == {}
      {
        if extracts[i].extraRelationIds != {} {
          return true;
        }
      }
      return false;
    }

    /** The second find_if of run: does some extract have extra ways? */
    method HasExtraWays() returns (b: bool)
      ensures b <==> exists e :: e in extracts && e.extraWayIds != {}
    {
      for i := 0 to |extracts|
        invariant forall k :: 0 <= k < i ==> extracts[k].extraWayIds == {}
      {
        if extracts[i].extraWayIds != {} {
          return true;
        }
      }
      return false;
    }

    /** Pass 1 for every extract. */
    method Pass1(input: Input)
      requires Valid()
      requires config.byFirstNode ==> NonEmptyWays(input)
      modifies Repr()
      ensures forall e :: e in extracts ==>
                e.State() == AfterPass1(config, e.region, input, old(e.State())) && e.output == old(e.output)
    {
      for i := 0 to |extracts|
        invariant forall k :: 0 <= k < i ==>
                    extracts[k].State() == AfterPass1(config, extracts[k].region, input, old(extracts[k].State()))
        invariant forall k :: i <= k < |extracts| ==> extracts[k].State() == old(extracts[k].State())
        invariant forall k :: 0 <= k < |extracts| ==> extracts[k].output == old(extracts[k].output)
      {
        RunPass1(extracts[i], config, input);
      }
    }

    /** relation(): the relations of a relevant relation system are added to the index, in order. */
    method CollectStash(relations: seq<Relation>) returns (edges: seq<Edge>)
      ensures edges == StashedEdges(config, relations)
    {
      edges := [];
      for i := 0 to |relations|
        invariant edges == StashedEdges(config, relations[..i])
      {
        assert relations[..i + 1][..i] == relations[..i];
        ghost var before := SystemRelations(config, relations[..i]);
        if IsPartOfRelevantRelationSystem(config, relations[i]) {
          assert SystemRelations(config, relations[..i + 1]) == before + [relations[i]];
          assert (before + [relations[i]])[..|before|] == before;
          assert Stash(before + [relations[i]]) == Stash(before) + EdgesFrom(relations[i].id, relations[i].members);
          edges := edges + EdgesFrom(relations[i].id, relations[i].members);
        } else {
          assert SystemRelations(config, relations[..i + 1]) == before;
        }
      }
      assert relations[..|relations|] == relations;
    }

    /** add_relation_network for every extract. */
    method AddRelationNetworks(edges: seq<Edge>)
      requires Valid()
      modifies Repr()
      ensures forall e :: e in extracts ==>
                && e.relationIds == old(e.relationIds)
                && old(e.extraRelationIds) <= e.extraRelationIds
                && (forall x :: x in e.extraRelationIds - old(e.extraRelationIds) ==>
                      x !in e.relationIds && Reachable(edges, ParentsAndMembers, e.relationIds, x))
                && (forall x, y :: (x in e.relationIds + (e.extraRelationIds - old(e.extraRelationIds))
                                    && Linked(edges, ParentsAndMembers, x, y)) ==> y in e.relationIds + e.extraRelationIds)
      ensures forall e :: e in extracts ==> e.State() == old(e.State()).(extraRelationIds := e.extraRelationIds)
      ensures forall e :: e in extracts ==> e.output == old(e.output)
    {
      for i := 0 to |extracts|
        invariant forall k :: 0 <= k < i ==>
                    var e := extracts[k];
                    && old(e.extraRelationIds) <= e.extraRelationIds
                    && (forall x :: x in e.extraRelationIds - old(e.extraRelationIds) ==>
                          x !in e.relationIds && Reachable(edges, ParentsAndMembers, e.relationIds, x))
                    && (forall x, y :: (x in e.relationIds + (e.extraRelationIds - old(e.extraRelationIds))
                                        && Linked(edges, ParentsAndMembers, x, y)) ==> y in e.relationIds + e.extraRelationIds)
        invariant forall k :: i <= k < |extracts| ==> extracts[k].State() == old(extracts[k].State())
        invariant forall k :: 0 <= k < |extracts| ==>
                    extracts[k].State() == old(extracts[k].State()).(extraRelationIds := extracts[k].extraRelationIds)
                    && extracts[k].output == old(extracts[k].output)
      {
        AddRelationNetwork(extracts[i], edges);
      }
    }

    method Pass2(relations: seq<Relation>)
      requires Valid()
      modifies Repr()
      ensures forall e :: e in extracts ==>
                e.State() == AfterPass2(config, relations, old(e.State())) && e.output == old(e.output)
    {
      for i := 0 to |extracts|
        invariant forall k :: 0 <= k < i ==> extracts[k].State() == AfterPass2(config, relations, old(extracts[k].State()))
        invariant forall k :: i <= k < |extracts| ==> extracts[k].State() == old(extracts[k].State())
        invariant forall k :: 0 <= k < |extracts| ==> extracts[k].output == old(extracts[k].output)
      {
        RunPass2(extracts[i], config, relations);
      }
    }

    method Pass3(ways: seq<Way>)
      requires Valid()
      modifies Repr()
      ensures forall e :: e in extracts ==> e.State() == AfterPass3(ways, old(e.State())) && e.output == old(e.output)
    {
      for i := 0 to |extracts|
        invariant forall k :: 0 <= k < i ==> extracts[k].State() == AfterPass3(ways, old(extracts[k].State()))
        invariant forall k :: i <= k < |extracts| ==> extracts[k].State() == old(extracts[k].State())
        invariant forall k :: 0 <= k < |extracts| ==> extracts[k].output == old(extracts[k].output)
      {
        RunPass3(extracts[i], ways);
      }
    }

    /** Pass 4: every extract writes what its sets select. */
    method Pass4(input: Input)
      requires Valid()
      modifies Repr()
      ensures forall e :: e in extracts ==> e.State() == old(e.State()) && e.output == old(e.output) + Written(e.State(), input)
    {
      for i := 0 to |extracts|
        invariant forall k :: 0 <= k < i ==>
                    extracts[k].output == old(extracts[k].output) + Written(extracts[k].State(), input)
        invariant forall k :: i <= k < |extracts| ==> extracts[k].output == old(extracts[k].output)
        invariant forall k :: 0 <= k < |extracts| ==> extracts[k].State() == old(extracts[k].State())
      {
        WritePass(extracts[i], input);
      }
    }

    /** The relation networks of a run, from extracts without extra relations: the closure of each relation set. */
    method IdentifyRelations(edges: seq<Edge>)
      requires Valid()
      requires forall e :: e in extracts ==> e.extraRelationIds == {}
      modifies Repr()
      ensures forall e :: e in extracts ==>
                && e.State() == old(e.State()).(extraRelationIds :=
                                  Closure(edges, ParentsAndMembers, e.relationIds) - e.relationIds)
                && e.output == old(e.output)
    {
      AddRelationNetworks(edges);
      forall e | e in extracts
        ensures e.extraRelationIds == Closure(edges, ParentsAndMembers, e.relationIds) - e.relationIds
      {
        TraversalIsClosure(edges, ParentsAndMembers, e.relationIds, e.extraRelationIds);
      }
    }

    /** Pass 2 when some extract has extra relations; skipping it changes nothing. */
    method OptionalPass2(relations: seq<Relation>) returns (ran: bool)
      requires Valid()
      modifies Repr()
      ensures ran <==> exists e :: e in extracts && old(e.extraRelationIds) != {}
      ensures forall e :: e in extracts ==>
                e.State() == AfterPass2(config, relations, old(e.State())) && e.output == old(e.output)
    {
      ran := HasExtraRelations();
      if ran {
        Pass2(relations);
      } else {
        forall e | e in extracts ensures AfterPass2(config, relations, e.State()) == e.State() {
          Pass2Skippable(config, relations, e.State());
        }
      }
    }

    /** Pass 3 when some extract has extra ways; skipping it changes nothing. */
    method OptionalPass3(ways: seq<Way>) returns (ran: bool)
      requires Valid()
      modifies Repr()
      ensures ran <==> exists e :: e in extracts && old(e.extraWayIds) != {}
      ensures forall e :: e in extracts ==> e.State() == AfterPass3(ways, old(e.State())) && e.output == old(e.output)
    {
      ran := HasExtraWays();
      if ran {
        Pass3(ways);
      } else {
        forall e | e in extracts ensures AfterPass3(ways, e.State()) == e.State() {
          Pass3Skippable(ways, e.State());
        }
      }
    }

    /** Pass 1 and the relation networks, from empty extracts. */
    method FirstPassAndNetworks(input: Input)
      requires Valid() && Initial()
      requires config.byFirstNode ==> NonEmptyWays(input)
      modifies Repr()
      ensures forall e :: e in extracts ==> e.State() == AfterNetwork(config, e.region, input) && e.output == []
    {
      Pass1(input);
      var edges := CollectStash(input.relations);
      IdentifyRelations(edges);
    }

    /** Passes 2 and 3, each run only when some extract needs it. */
    method OptionalPasses(input: Input) returns (pass2: bool, pass3: bool)
      requires Valid()
      requires forall e :: e in extracts ==> e.State() == AfterNetwork(config, e.region, input) && e.output == []
      modifies Repr()
      ensures forall e :: e in extracts ==> e.State() == Expected(config, e.region, input) && e.output == []
      ensures pass2 <==> exists e :: e in extracts && AfterNetwork(config, e.region, input).extraRelationIds != {}
      ensures pass3 <==> exists e :: e in extracts
                                   && AfterPass2(config, input.relations, AfterNetwork(config, e.region, input)).extraWayIds != {}
    {
      pass2 := OptionalPass2(input.relations);
      pass3 := OptionalPass3(input.ways);
    }

    /**
     * Strategy::run: reading from STDIN is refused; otherwise pass 1, the
     * relation networks, pass 2 if some extract has extra relations, pass 3
     * if some extract has extra ways, and the writing pass. Every extract
     * ends with the sets of `Expected` and writes exactly what they select.
     */
    method Run(input: Input) returns (r: Result<PassesRun, RunError>)
      requires Valid() && Initial()
      requires config.byFirstNode ==> NonEmptyWays(input)
      modifies Repr()
      ensures input.filename == [] ==> r == Failure(StdinNotSupported) && unchanged(Repr())
      ensures input.filename != [] ==> r.Success?
      ensures r.Success? ==> forall e :: e in extracts ==>
                e.State() == Expected(config, e.region, input) && e.output == Written(e.State(), input)
      ensures r.Success? ==>
                (r.value.pass2 <==> exists e :: e in extracts && AfterNetwork(config, e.region, input).extraRelationIds != {})
      ensures r.Success? ==>
                (r.value.pass3 <==> exists e :: e in extracts
                                        && AfterPass2(config, input.relations, AfterNetwork(config, e.region, input)).extraWayIds != {})
    {
      if input.filename == [] {
        return Failure(StdinNotSupported);
      }
      FirstPassAndNetworks(input);
      var pass2, pass3 := OptionalPasses(input);
      Pass4(input);
      r := Success(PassesRun(pass2, pass3));
    }
  }

  /** Pass 2 changes nothing for an extract without extra relations. */
  lemma Pass2Skippable(config: Config, relations: seq<Relation>, s: IdSets)
    requires s.extraRelationIds == {}
    ensures AfterPass2(config, relations, s) == s
  {
    SystemMembersMembers(config, s.extraRelationIds, relations, NodeType);
    SystemMembersMembers(config, s.extraRelationIds, relations, WayType);
  }

  /** Pass 3 changes nothing for an extract without extra ways. */
  lemma Pass3Skippable(ways: seq<Way>, s: IdSets)
    requires s.extraWayIds == {}
    ensures AfterPass3(ways, s) == s
  {
    WayNodesMembers(s.extraWayIds, ways);
  }
}
