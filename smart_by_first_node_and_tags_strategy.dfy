/**
 * Strategy::run of `smart_by_first_node_and_tags`: the strategy object
 * holding the extracts and the parsed options, and its three passes with the
 * parent walk between the first and the second.
 */
module SmartByFirstNodeAndTagsStrategy {
  import opened Wrappers
  import opened Osm
  import opened RelationGraph
  import opened ExtractData
  import opened SmartByFirstNodeAndTags
  import opened SmartByFirstNodeAndTagsRun

  class Strategy {
    const extracts: seq<Data>
    const config: Config
    /** The option keys the constructor warned about and ignored. */
    const ignoredOptions: set<string>

    ghost function Repr(): set<Data>
      reads this
    {
      set e | e in extracts
    }

    /** The extracts are distinct objects. */
    ghost predicate Valid()
      reads this
    {
      forall i, j :: 0 <= i < j < |extracts| ==> extracts[i] != extracts[j]
    }

    /** No pass has run yet. */
    ghost predicate Initial()
      reads this, Repr()
    {
      forall e :: e in extracts ==> e.State() == NoIds && e.output == []
    }

    /**
     * The constructor: one empty extract per region and the options applied.
     * `split` stands for splitting an option value on commas, `toInt` for
     * parsing the percentage.
     */
    constructor (regions: seq<Region>, options: map<string, string>, split: string -> seq<string>, toInt: string -> int)
      ensures |extracts| == |regions| && forall i :: 0 <= i < |regions| ==> extracts[i].region == regions[i]
      ensures fresh(Repr()) && Valid() && Initial()
      ensures OptionsApplied(options, split, toInt, config, ignoredOptions)
      ensures 1 <= config.percentage <= 100
    {
      var es := NewExtracts(regions);
      var c, ignored := ParseOptions(options, split, toInt);
      extracts, config, ignoredOptions := es, c, ignored;
    }

    /** relation(): every relation is added to the index, in order. */
    method CollectStash(relations: seq<Relation>) returns (edges: seq<Edge>)
      ensures edges == Stash(relations)
    {
      edges := [];
      for i := 0 to |relations|
        invariant edges == Stash(relations[..i])
      {
        assert relations[..i + 1][..i] == relations[..i];
        edges := edges + EdgesFrom(relations[i].id, relations[i].members);
      }
      assert relations[..|relations|] == relations;
    }

    /** Pass 1 for every extract. */
    method Pass1(input: Input)
      requires Valid() && NonEmptyWays(input)
      modifies Repr()
      ensures forall e :: e in extracts ==>
                e.State() == AfterPass1(config, e.region, input, old(e.State())) && e.output == old(e.output)
    {
      for i := 0 to |extracts|
        invariant forall k :: 0 <= k < i ==>
                    extracts[k].State() == AfterPass1(config, extracts[k].region, input, old(extracts[k].State()))
        invariant forall k :: i <= k < |extracts| ==> extracts[k].State() == old(extracts[k].State())
        invariant forall k :: 0 <= k < |extracts| ==> extracts[k].output == old(extracts[k].output)
      {
        RunPass1(extracts[i], config, input);
      }
    }

    /** The parent walk for every extract. */
    method AddParents(edges: seq<Edge>)
      requires Valid()
      requires forall e :: e in extracts ==> e.extraRelationIds == {}
      modifies Repr()
      ensures forall e :: e in extracts ==>
                e.State() == old(e.State()).(relationIds := Closure(edges, ParentsOnly, old(e.relationIds)))
                && e.output == old(e.output)
    {
      for i := 0 to |extracts|
        invariant forall k :: 0 <= k < i ==>
                    extracts[k].State() == old(extracts[k].State()).(relationIds := Closure(edges, ParentsOnly, old(extracts[k].relationIds)))
        invariant forall k :: i <= k < |extracts| ==> extracts[k].State() == old(extracts[k].State())
        invariant forall k :: 0 <= k < |extracts| ==> extracts[k].output == old(extracts[k].output)
      {
        RunParents(extracts[i], edges);
      }
    }

    method Pass2(ways: seq<Way>)
      requires Valid()
      modifies Repr()
      ensures forall e :: e in extracts ==> e.State() == AfterPass2(ways, old(e.State())) && e.output == old(e.output)
    {
      for i := 0 to |extracts|
        invariant forall k :: 0 <= k < i ==> extracts[k].State() == AfterPass2(ways, old(extracts[k].State()))
        invariant forall k :: i <= k < |extracts| ==> extracts[k].State() == old(extracts[k].State())
        invariant forall k :: 0 <= k < |extracts| ==> extracts[k].output == old(extracts[k].output)
      {
        RunPass2(extracts[i], ways);
      }
    }

    /** Pass 3: every extract writes what its sets select. */
    method Pass3(input: Input)
      requires Valid()
      modifies Repr()
      ensures forall e :: e in extracts ==> e.State() == old(e.State()) && e.output == old(e.output) + Written(e.State(), input)
    {
      for i := 0 to |extracts|
        invariant forall k :: 0 <= k < i ==>
                    extracts[k].output == old(extracts[k].output) + Written(extracts[k].State(), input)
        invariant forall k :: i <= k < |extracts| ==> extracts[k].output == old(extracts[k].output)
        invariant forall k :: 0 <= k < |extracts| ==> extracts[k].State() == old(extracts[k].State())
      {
        WritePass(extracts[i], input);
      }
    }

    /** Pass 1 and the parent walk, from empty extracts. */
    method FirstPassAndParents(input: Input)
      requires Valid() && Initial() && NonEmptyWays(input)
      modifies Repr()
      ensures forall e :: e in extracts ==> e.State() == AfterParents(config, e.region, input) && e.output == []
    {
      Pass1(input);
      var edges := CollectStash(input.relations);
      AddParents(edges);
    }

    /**
     * Strategy::run: reading from STDIN is refused; otherwise all three
     * passes run, and every extract ends with the sets of `Expected` and
     * writes exactly what they select.
     */
    method Run(input: Input) returns (r: Result<(), RunError>)
      requires Valid() && Initial() && NonEmptyWays(input)
      modifies Repr()
      ensures input.filename == [] ==> r == Failure(StdinNotSupported) && unchanged(Repr())
      ensures input.filename != [] ==> r.Success?
      ensures r.Success? ==> forall e :: e in extracts ==>
                e.State() == Expected(config, e.region, input) && e.output == Written(e.State(), input)
    {
      if input.filename == [] {
        return Failure(StdinNotSupported);
      }
      FirstPassAndParents(input);
      Pass2(input.ways);
      Pass3(input);
      r := Success(());
    }
  }
}
