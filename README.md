# Two smart extract strategies of osmium-tool, modelled in Dafny

`osmium extract` cuts regions out of an OpenStreetMap file. It reads the
file several times ("passes"). In each pass it records, per region
("extract"), which object IDs belong to that extract. This project models
the per-extract membership logic of two of those strategies:

- **`smart_custom`** (`src/extract/strategy_smart_custom.cpp`). It has four passes:
  - Pass 1 marks nodes inside the region and selects ways. The way rule is
    one of two: "any node inside", or, with `by-first-node`, "first node
    inside and no conflicting tags, or matching tags". Relations with a
    primary node or way member are marked. A relation that matches the
    `relations` rules or the `relation-system` rules has its non-primary
    members pulled in as *extra* IDs.
  - Between passes 1 and 2, `add_relation_network` adds to the extra
    relations everything connected to a primary relation in the relation
    index. The traversal goes in both directions, parents and members.
  - Pass 2 runs only if some extract has extra relations. It pulls in the
    members of extra relations of a relation system.
  - Pass 3 runs only if some extract has extra ways. It adds the missing
    nodes of extra ways.
  - Pass 4 writes every object whose ID is primary or extra.
- **`smart_by_first_node_and_tags`**
  (`src/extract/strategy_smart_by_first_node_and_tags.cpp`). It has three passes:
  - Ways are selected by the first-node rule only; the pass-1 way rule adds no nodes.
  - A relation is marked at its first primary member. Its members are pulled
    in at that point if `check_type` and `check_tags` both hold. Otherwise
    the primary node and way members are counted, and the members are
    pulled in if `check_members_count` and `check_tags` hold.
  - After pass 1, every transitive parent of a primary relation becomes
    primary (`add_relation_parents`).
  - Pass 2 adds every node of every primary or extra way.
  - Pass 3 writes.

Each extract is a `Data` object (`extract_data.dfy`). It holds six ID sets,
updated in place by the pass callbacks. It also holds the sequence of items
handed to its writer. The callbacks are methods with `modifies` on exactly
the fields they set, and their loops are proved against specification
functions.

For each strategy there are three layers:
- A ghost function per pass describes the state that pass leaves, from
  `AfterPass1` to `Expected`.
- Each pass runner is proved to produce that state.
- The properties of `Expected` are proved as lemmas. They differ per
  strategy:
  - `smart_custom`: the primary sets are the ones the pass-1 rules select;
    no ID is both primary and extra; written ways and pulled-in relations
    are complete; primary plus extra relations are closed under the
    relation-system links, and every extra relation is reachable from a
    primary one.
  - `smart_by_first_node_and_tags`: the primary nodes and ways are the ones
    the pass-1 rules select; there are no extra relations, and the primary
    relations are the hit ones closed under the parent link; written ways
    and pulled-in relations are complete. Extras may hold primary IDs here,
    because `add_relation_members` and pass 2 add members and way nodes
    whether or not they are primary.

`Strategy.Run` ties these together. It returns an error for STDIN. Otherwise
it ends with every extract in its `Expected` state, having written exactly
what that state selects. For `smart_custom` it also reports that pass 2 and
pass 3 ran exactly when the source's gating tests say so.

What the model takes as parameters instead of modelling:
- The region predicates (`contains`, `has_conflicting_tags`,
  `has_matching_tags`, `src/extract/extract.hpp:104-108`) are functions
  stored in `Region`.
- Splitting an option value on commas is a parameter `split`.
- Parsing the percentage is a parameter `toInt`.
- The relation index (`RelationsMapStash`) is a sequence of (parent, member)
  edges.

Files:
- `osm.dfy`: OSM values.
- `tags_filter.dfy`: rule parsing and tag matching.
- `relation_graph.dfy`: the relation index, reachability and closure.
- `extract_data.dfy`: the extract state and the shared pass callbacks.
- `smart_custom*.dfy` and `smart_by_first_node_and_tags*.dfy`: the two strategies.
- `wrappers.dfy`: `Option` and `Result`.

## Model

| member | source | states |
|---|---|---|
| Osm.RefsMembers | src/extract/strategy_smart_custom.cpp:46-61 | an ID is among the IDs a member switch sees for a kind iff a member of that kind with that ref exists |
| RelationGraph.EdgesFrom | src/extract/strategy_smart_custom.cpp:204-205 | the index records for a relation exactly one (relation, member) edge per relation-typed member |
| RelationGraph.Stash | src/extract/strategy_smart_by_first_node_and_tags.cpp:193-196 | an edge is in the index iff some stashed relation has that ID and that relation member |
| RelationGraph.ParentsOf | src/extract/strategy_smart_by_first_node_and_tags.cpp:51 | the member-to-parent lookup yields exactly the parents of an ID |
| RelationGraph.MembersOf | src/extract/strategy_smart_custom.cpp:72 | the parent-to-member lookup yields exactly the relation members of an ID |
| RelationGraph.Neighbours | src/extract/strategy_smart_custom.cpp:70-73 | what is queued for an ID is exactly its linked relations (parents, and members when following both ways), all of them in the index |
| RelationGraph.ClosureIsClosed | src/extract/strategy_smart_custom.cpp:65-85 | the closure of the seeds contains them and no link leads out of it |
| RelationGraph.TraversalIsClosure | src/extract/strategy_smart_custom.cpp:74-84 | a set of reachable non-seeds out of which, together with the seeds, no link leads is exactly the closure minus the seeds |
| TagsFilter.MatchAnyOf | src/extract/strategy_smart_custom.cpp:129-131 | the relation matches iff some tag passes the filter |
| TagsFilter.FindFirst | src/extract/strategy_smart_custom.cpp:114 | no position iff the separator is absent; otherwise the position holds the separator and none comes before it |
| TagsFilter.ParseMatcher | src/extract/strategy_smart_custom.cpp:114-121 | a rule without the separator is a key-only matcher; otherwise the key is the text before the first separator (so it contains none) and the value the text after it |
| TagsFilter.ParseMatcherText | src/extract/strategy_smart_custom.cpp:114-121 | parsing the text of a rule whose key has no separator gives the rule back |
| TagsFilter.AddFilterRules | src/extract/strategy_smart_custom.cpp:110-123 | default result false, earlier rules kept, one parsed rule appended per part in order |
| TagsFilter.BuiltFilterMatches | src/extract/strategy_smart_custom.cpp:110-131 | a filter built from option parts matches a tag list iff some tag matches some parsed rule |
| TagsFilter.GetValue | src/extract/strategy_smart_by_first_node_and_tags.cpp:114 | none iff no tag has the key; otherwise the value of the first tag with that key |
| ExtractData.FirstNodeRule | src/extract/strategy_smart_by_first_node_and_tags.cpp:186-187 | a way is selected when its first node is primary and its tags do not conflict with the region, or when its tags match the region |
| ExtractData.IsPrimaryMember | src/extract/strategy_smart_by_first_node_and_tags.cpp:201-227 | a node member is primary iff its node is; a way member iff its way is; a relation member never |
| ExtractData.HasPrimaryMember | src/extract/strategy_smart_custom.cpp:210-233 | a relation is hit iff some member is a primary node or way member |
| ExtractData.HasPrimaryMemberByRefs | src/extract/strategy_smart_custom.cpp:210-233 | a relation has a primary member iff one of its node refs is a primary node or one of its way refs a primary way; relation members never count |
| ExtractData.HitRelationsMembers | src/extract/strategy_smart_custom.cpp:209-234 | an ID is marked by the relation rule iff some relation with that ID has a primary member |
| ExtractData.WayNodesMembers | src/extract/strategy_smart_custom.cpp:267-275 | a node is collected iff it is referenced by a way whose ID is in the given set |
| ExtractData.Pass1Node | src/extract/strategy_smart_custom.cpp:166-170 | a node becomes primary iff the region contains its location; only node_ids changes |
| ExtractData.Pass1Nodes | src/extract/strategy_smart_by_first_node_and_tags.cpp:175-179 | after the node part of pass 1 the primary nodes grew by exactly the contained nodes |
| ExtractData.WrittenNodes | src/extract/strategy_smart_custom.cpp:287-292 | a node is written iff it is in the input and primary or extra |
| ExtractData.WrittenWays | src/extract/strategy_smart_custom.cpp:294-299 | a way is written iff it is in the input and primary or extra |
| ExtractData.WrittenRelations | src/extract/strategy_smart_custom.cpp:301-306 | a relation is written iff it is in the input and primary or extra |
| ExtractData.WrittenExactly | src/extract/strategy_smart_by_first_node_and_tags.cpp:269-288 | an item is written iff it is in the input and its ID is in the primary or extra set of its type |
| ExtractData.WriteNode | src/extract/strategy_smart_custom.cpp:287-292 | the node is appended to the output iff its ID is primary or extra |
| ExtractData.WriteWay | src/extract/strategy_smart_custom.cpp:294-299 | the way is appended to the output iff its ID is primary or extra |
| ExtractData.WriteRelation | src/extract/strategy_smart_custom.cpp:301-306 | the relation is appended to the output iff its ID is primary or extra |
| ExtractData.WriteNodes | src/extract/strategy_smart_custom.cpp:287-292 | the output grows by exactly the written nodes, in input order |
| ExtractData.WriteWays | src/extract/strategy_smart_custom.cpp:294-299 | the output grows by exactly the written ways, in input order |
| ExtractData.WriteRelations | src/extract/strategy_smart_custom.cpp:301-306 | the output grows by exactly the written relations, in input order |
| ExtractData.WritePass | src/extract/strategy_smart_custom.cpp:287-306 | the writing pass appends the written nodes, then ways, then relations; the ID sets are untouched |
| SmartCustom.ParseOptions | src/extract/strategy_smart_custom.cpp:94-108 | each rule list is built from its option (default: empty filter); by_first_node holds iff the option is given as empty, `true` or `yes`; exactly the unknown keys are ignored |
| SmartCustom.IsRelevantRelation | src/extract/strategy_smart_custom.cpp:129-131 | a relation is relevant iff its tags match some rule of the `relations` filter |
| SmartCustom.IsPartOfRelevantRelationSystem | src/extract/strategy_smart_custom.cpp:133-135 | a relation belongs to a relation system iff its tags match some rule of the `relation-systems` filter |
| SmartCustom.WaySelected | src/extract/strategy_smart_custom.cpp:176-200 | with by_first_node the first-node rule decides; otherwise a way is selected iff one of its nodes is primary |
| SmartCustom.PullsMembers | src/extract/strategy_smart_custom.cpp:215-216 | a hit relation has its members pulled in iff it is relevant or part of a relation system |
| SmartCustom.PullIn | src/extract/strategy_smart_custom.cpp:45-63 | pulling in keeps the old extras, adds every non-primary reference, and adds nothing else |
| SmartCustom.PullInIdempotent | src/extract/strategy_smart_custom.cpp:45-63 | pulling in the same references twice equals pulling them in once |
| SmartCustom.AddRelationMembers | src/extract/strategy_smart_custom.cpp:45-63 | extra nodes and ways gain exactly the non-primary node and way members; relation members and every other set are untouched |
| SmartCustom.SeedQueue | src/extract/strategy_smart_custom.cpp:74-76 | every neighbour of a primary relation is queued, and everything queued is reachable from a primary relation |
| SmartCustom.NothingNewWhenClosed | src/extract/strategy_smart_custom.cpp:77-84 | on a closed set the traversal cannot add anything |
| SmartCustom.VisitKeeps | src/extract/strategy_smart_custom.cpp:77-84 | one turn of the queue loop keeps queue reachability, added reachability and the frontier |
| SmartCustom.AddRelationNetwork | src/extract/strategy_smart_custom.cpp:65-85 | relation_ids unchanged; it only adds reachable non-primary relations; every neighbour of a primary or added relation ends up included (so a second run adds nothing); a closed start is left unchanged |
| SmartCustom.AddWayNodes | src/extract/strategy_smart_custom.cpp:181-185 | extra nodes gain exactly the way's non-primary nodes |
| SmartCustom.Pass1Way | src/extract/strategy_smart_custom.cpp:176-200 | the way becomes primary iff the configured rule selects it; if so its non-primary nodes become extra, otherwise nothing changes |
| SmartCustom.Pass1Relation | src/extract/strategy_smart_custom.cpp:209-234 | the relation becomes primary iff it has a primary node or way member; its members are pulled in iff it is also relevant or part of a relation system |
| SmartCustom.Pass2Relation | src/extract/strategy_smart_custom.cpp:250-255 | members are pulled in iff the relation is extra and part of a relation system |
| SmartCustom.Pass3Way | src/extract/strategy_smart_custom.cpp:267-275 | the non-primary nodes of an extra way become extra; other ways change nothing |
| SmartCustomRun.SelectedWaysMembers | src/extract/strategy_smart_custom.cpp:176-200 | a way ID is selected in pass 1 iff some way with that ID meets the way rule |
| SmartCustomRun.SelectedWayNodesMembers | src/extract/strategy_smart_custom.cpp:181-195 | a node is added by the pass 1 way rule iff it is not primary and belongs to a selected way |
| SmartCustomRun.PulledMembersMembers | src/extract/strategy_smart_custom.cpp:209-234 | a ref is pulled in by pass 1 iff it is a member of a hit relation that is relevant or part of a relation system |
| SmartCustomRun.SystemMembersMembers | src/extract/strategy_smart_custom.cpp:250-255 | a ref is pulled in by pass 2 iff it is a member of an extra relation of a relation system |
| SmartCustomRun.SystemRelationsMembers | src/extract/strategy_smart_custom.cpp:202-207 | a relation goes into the index iff it is part of a relevant relation system |
| SmartCustomRun.RunPass1Ways | src/extract/strategy_smart_custom.cpp:176-200 | the way part of pass 1 leaves the state AfterWays1 of the old state |
| SmartCustomRun.RunPass1Relations | src/extract/strategy_smart_custom.cpp:209-234 | the relation part of pass 1 leaves the state AfterRelations1 of the old state |
| SmartCustomRun.RunPass1 | src/extract/strategy_smart_custom.cpp:166-234 | pass 1 for one extract leaves AfterPass1 |
| SmartCustomRun.RunPass2 | src/extract/strategy_smart_custom.cpp:250-255 | pass 2 for one extract leaves AfterPass2 |
| SmartCustomRun.RunPass3 | src/extract/strategy_smart_custom.cpp:267-275 | pass 3 for one extract leaves AfterPass3 |
| ExtractData.NewExtracts | src/extract/strategy_smart_custom.cpp:89-92 | one fresh, distinct, empty extract per region, in order |
| SmartCustomStrategy.Strategy.constructor | src/extract/strategy_smart_custom.cpp:87-108 | extracts as above, and the configuration is what the option loop produces |
| SmartCustomStrategy.Strategy.HasExtraRelations | src/extract/strategy_smart_custom.cpp:331-332 | true iff some extract has an extra relation |
| SmartCustomStrategy.Strategy.HasExtraWays | src/extract/strategy_smart_custom.cpp:342-343 | true iff some extract has an extra way |
| SmartCustomStrategy.Strategy.Pass1 | src/extract/strategy_smart_custom.cpp:319-321 | every extract moves to AfterPass1 of its old state; outputs untouched |
| SmartCustomStrategy.Strategy.CollectStash | src/extract/strategy_smart_custom.cpp:202-207 | the index is that of the relation-system relations, in input order |
| SmartCustomStrategy.Strategy.AddRelationNetworks | src/extract/strategy_smart_custom.cpp:326-329 | every extract gets add_relation_network's guarantees; nothing but the extra relations changes |
| SmartCustomStrategy.Strategy.Pass2 | src/extract/strategy_smart_custom.cpp:336-337 | every extract moves to AfterPass2 of its old state |
| SmartCustomStrategy.Strategy.Pass3 | src/extract/strategy_smart_custom.cpp:347-348 | every extract moves to AfterPass3 of its old state |
| SmartCustomStrategy.Strategy.Pass4 | src/extract/strategy_smart_custom.cpp:355-356 | each extract's output grows by exactly what its sets select; the sets are untouched |
| SmartCustomStrategy.Strategy.IdentifyRelations | src/extract/strategy_smart_custom.cpp:325-329 | starting without extras, each extract's extra relations become the closure of its primary relations minus those |
| SmartCustomStrategy.Strategy.OptionalPass2 | src/extract/strategy_smart_custom.cpp:331-340 | pass 2 runs iff some extract has extra relations, and skipping it leaves the same state as running it |
| SmartCustomStrategy.Strategy.OptionalPass3 | src/extract/strategy_smart_custom.cpp:342-351 | pass 3 runs iff some extract has extra ways, and skipping it leaves the same state as running it |
| SmartCustomStrategy.Strategy.FirstPassAndNetworks | src/extract/strategy_smart_custom.cpp:319-329 | from empty extracts, pass 1 and the networks leave AfterNetwork |
| SmartCustomStrategy.Strategy.OptionalPasses | src/extract/strategy_smart_custom.cpp:331-351 | from AfterNetwork the extracts reach Expected, with both gating iffs |
| SmartCustomStrategy.Strategy.Run | src/extract/strategy_smart_custom.cpp:310-360 | STDIN is refused with nothing changed; otherwise every extract ends in Expected and writes exactly what it selects, and passes 2 and 3 ran iff their gating test held |
| SmartCustomStrategy.Pass2Skippable | src/extract/strategy_smart_custom.cpp:331-340 | pass 2 changes nothing for an extract without extra relations |
| SmartCustomStrategy.Pass3Skippable | src/extract/strategy_smart_custom.cpp:342-351 | pass 3 changes nothing for an extract without extra ways |
| SmartCustomProperties.StashedEdgesExactly | src/extract/strategy_smart_custom.cpp:202-207 | the index holds exactly the relation members of relation-system relations |
| SmartCustomProperties.ExpectedPrimarySets | src/extract/strategy_smart_custom.cpp:166-234 | final primary nodes are the contained ones; primary ways and relations are exactly those selected by the pass 1 rules |
| SmartCustomProperties.ExpectedExtrasDisjoint | src/extract/strategy_smart_custom.cpp:45-63 | no ID is both primary and extra, for nodes, ways and relations |
| SmartCustomProperties.ExpectedWaysComplete | src/extract/strategy_smart_custom.cpp:176-200 | on ascending input every written way has all its nodes written |
| SmartCustomProperties.ExpectedRelationsComplete | src/extract/strategy_smart_custom.cpp:209-234 | on ascending input every relation whose members are pulled in (pass 1 or pass 2) has every node and way member written |
| SmartCustomProperties.ExpectedRelationSystemClosed | src/extract/strategy_smart_custom.cpp:65-85 | primary plus extra relations are closed under both links, and every extra relation is reachable from a primary one |
| SmartByFirstNodeAndTags.ClampPercentage | src/extract/strategy_smart_by_first_node_and_tags.cpp:76-80 | a value in 1..100 is kept and anything else becomes 100, so the result is in 1..100 |
| SmartByFirstNodeAndTags.AppliedStep | src/extract/strategy_smart_by_first_node_and_tags.cpp:67-98 | handling one option key extends what the loop has applied by that key |
| SmartByFirstNodeAndTags.ParseOptions | src/extract/strategy_smart_by_first_node_and_tags.cpp:66-98 | types default to multipolygon, cleared by an empty value, `any` or `true`, split otherwise; the percentage defaults to 100 and is clamped when given; the tag filter is built on `=`; exactly the unknown keys are ignored; the percentage is in 1..100 |
| SmartByFirstNodeAndTags.DefaultPercentageNeedsAll | src/extract/strategy_smart_by_first_node_and_tags.cpp:105-107 | at percentage 100 the count test holds iff wanted is at least the member count |
| SmartByFirstNodeAndTags.CheckMembersCountMonotone | src/extract/strategy_smart_by_first_node_and_tags.cpp:105-107 | more wanted members never fail the count test where fewer pass |
| SmartByFirstNodeAndTags.CheckMembersCount | src/extract/strategy_smart_by_first_node_and_tags.cpp:105-107 | the count test passes iff 100 times the wanted members reach the member count times the percentage |
| SmartByFirstNodeAndTags.CheckTags | src/extract/strategy_smart_by_first_node_and_tags.cpp:122-124 | the tag test passes iff the relation's tags match some rule of the `tags` filter |
| SmartByFirstNodeAndTags.CheckType | src/extract/strategy_smart_by_first_node_and_tags.cpp:109-120 | true for an empty type list; false without a `type` tag; otherwise true iff the first `type` value is listed |
| SmartByFirstNodeAndTags.WantedMembers | src/extract/strategy_smart_by_first_node_and_tags.cpp:199-229 | the count is at most the member count, and zero iff no node or way member is primary |
| SmartByFirstNodeAndTags.WantedMembersAll | src/extract/strategy_smart_by_first_node_and_tags.cpp:199-233 | every member is counted iff every member is a primary node or way member |
| SmartByFirstNodeAndTags.PullsMembers | src/extract/strategy_smart_by_first_node_and_tags.cpp:198-234 | members are pulled in iff the tags match and either (a primary member exists and the type matches) or the count test passes |
| SmartByFirstNodeAndTags.AddRelationMembers | src/extract/strategy_smart_by_first_node_and_tags.cpp:34-48 | every node and way member becomes extra, primary or not; relation members and other sets untouched |
| SmartByFirstNodeAndTags.AddMembers | src/extract/strategy_smart_by_first_node_and_tags.cpp:34-48 | the extras of one kind after adding a relation's members: the old extras plus every member of that kind, and nothing else |
| SmartByFirstNodeAndTags.AddMembersIdempotent | src/extract/strategy_smart_by_first_node_and_tags.cpp:34-48 | adding the members of the same relation a second time leaves the extras unchanged |
| SmartByFirstNodeAndTags.Pass1Way | src/extract/strategy_smart_by_first_node_and_tags.cpp:185-191 | the way becomes primary iff the first-node rule holds; no node set changes |
| SmartByFirstNodeAndTags.Pass1Relation | src/extract/strategy_smart_by_first_node_and_tags.cpp:198-234 | the relation becomes primary iff it has a primary node or way member; members are pulled in iff the tags match and either (a primary member exists and the type matches) or the count test passes |
| SmartByFirstNodeAndTags.ParentStep | src/extract/strategy_smart_by_first_node_and_tags.cpp:51-56 | the recursive call for one parent keeps the walk's facts about the current relation |
| SmartByFirstNodeAndTags.AddRelationParents | src/extract/strategy_smart_by_first_node_and_tags.cpp:50-58 | terminates; it only adds relations reachable upwards that are not extra; every parent of the start and of each added relation ends up in one of the two sets |
| SmartByFirstNodeAndTags.AddAllRelationParents | src/extract/strategy_smart_by_first_node_and_tags.cpp:309-311 | afterwards every parent of a primary relation is primary or extra, and only relations reachable upwards were added |
| SmartByFirstNodeAndTags.Pass2Way | src/extract/strategy_smart_by_first_node_and_tags.cpp:250-257 | every node of a primary or extra way becomes extra; other ways change nothing |
| SmartByFirstNodeAndTagsRun.FirstNodeWaysMembers | src/extract/strategy_smart_by_first_node_and_tags.cpp:185-191 | a way ID is selected iff some way with that ID meets the first-node rule |
| SmartByFirstNodeAndTagsRun.PulledMembersMembers | src/extract/strategy_smart_by_first_node_and_tags.cpp:198-234 | a ref is pulled in by pass 1 iff it is a member of a relation whose members pass 1 pulls in |
| SmartByFirstNodeAndTagsRun.RunPass1Ways | src/extract/strategy_smart_by_first_node_and_tags.cpp:185-191 | the way part of pass 1 leaves AfterWays1 |
| SmartByFirstNodeAndTagsRun.RunPass1Relations | src/extract/strategy_smart_by_first_node_and_tags.cpp:198-234 | the relation part of pass 1 leaves AfterRelations1 |
| SmartByFirstNodeAndTagsRun.RunPass1 | src/extract/strategy_smart_by_first_node_and_tags.cpp:175-234 | pass 1 for one extract leaves AfterPass1 |
| SmartByFirstNodeAndTagsRun.RunParents | src/extract/strategy_smart_by_first_node_and_tags.cpp:308-312 | for an extract without extra relations, the primary relations become their upward closure; nothing else changes |
| SmartByFirstNodeAndTagsRun.RunPass2 | src/extract/strategy_smart_by_first_node_and_tags.cpp:250-257 | pass 2 for one extract leaves AfterPass2 |
| SmartByFirstNodeAndTagsStrategy.Strategy.constructor | src/extract/strategy_smart_by_first_node_and_tags.cpp:60-99 | one empty extract per region, and the configuration is what the option loop produces |
| SmartByFirstNodeAndTagsStrategy.Strategy.CollectStash | src/extract/strategy_smart_by_first_node_and_tags.cpp:193-196 | every relation goes into the index, in input order |
| SmartByFirstNodeAndTagsStrategy.Strategy.Pass1 | src/extract/strategy_smart_by_first_node_and_tags.cpp:301-304 | every extract moves to AfterPass1 of its old state |
| SmartByFirstNodeAndTagsStrategy.Strategy.AddParents | src/extract/strategy_smart_by_first_node_and_tags.cpp:306-312 | every extract's primary relations become their upward closure in the index |
| SmartByFirstNodeAndTagsStrategy.Strategy.Pass2 | src/extract/strategy_smart_by_first_node_and_tags.cpp:315-318 | every extract moves to AfterPass2 of its old state |
| SmartByFirstNodeAndTagsStrategy.Strategy.Pass3 | src/extract/strategy_smart_by_first_node_and_tags.cpp:321-323 | each extract's output grows by exactly what its sets select |
| SmartByFirstNodeAndTagsStrategy.Strategy.FirstPassAndParents | src/extract/strategy_smart_by_first_node_and_tags.cpp:301-312 | from empty extracts, pass 1 and the parent walk leave AfterParents |
| SmartByFirstNodeAndTagsStrategy.Strategy.Run | src/extract/strategy_smart_by_first_node_and_tags.cpp:292-326 | STDIN is refused with nothing changed; otherwise every extract ends in Expected and writes exactly what it selects |
| SmartByFirstNodeAndTagsProperties.ExpectedPrimarySets | src/extract/strategy_smart_by_first_node_and_tags.cpp:175-191 | final primary nodes are the contained ones; primary ways are exactly those meeting the first-node rule |
| SmartByFirstNodeAndTagsProperties.ExpectedRelations | src/extract/strategy_smart_by_first_node_and_tags.cpp:306-312 | no extra relations; the relations hit in pass 1 are primary; primary relations are closed upwards and each is reachable upwards from a hit one |
| SmartByFirstNodeAndTagsProperties.ExpectedWaysComplete | src/extract/strategy_smart_by_first_node_and_tags.cpp:250-257 | every node of every written way is extra, hence written |
| SmartByFirstNodeAndTagsProperties.ExpectedRelationsComplete | src/extract/strategy_smart_by_first_node_and_tags.cpp:198-234 | a relation whose members pass 1 pulls in has its nodes, its ways and their nodes extra |
| SmartByFirstNodeAndTagsProperties.PullsAtDefaultPercentage | src/extract/strategy_smart_by_first_node_and_tags.cpp:231-233 | at percentage 100 members are pulled in iff the tags match and either a primary member exists and the type matches, or every member is a primary node or way |
| SmartByFirstNodeAndTagsProperties.NoTagsPullsNothing | src/extract/strategy_smart_by_first_node_and_tags.cpp:122-124 | without tag rules check_tags always fails, so no relation has its members pulled in |

## Left out

- File and stream I/O are not modelled. This covers reading the input, the progress bar, `vout` messages, `show_arguments`, `name()`, file sizes and the text of the unknown-option warning. The ignored keys are kept as `ignoredOptions` instead.
- Writing is reduced to appending an item to the extract's `output` sequence.
- `CheckOrder` is left out. The model does not reject unordered input. Ascending IDs are instead a precondition of the lemmas that need them (`SmartCustomProperties.ExpectedWaysComplete` and `SmartCustomProperties.ExpectedRelationsComplete`).
- The `RelationsMapStash` implementation is left out. Its sorting, its index layout and the order in which `for_each` visits parents are not modelled. The index is the sequence of edges in stash order, and the results are proved independent of visiting order.
- `osmium::split_string` and `str_to_int` are parameters (`split`, `toInt`). String parsing is not modelled.
- The option map is a Dafny `map`, so each key appears once. The loop visits keys in an unspecified order, as the source's result does not depend on it.
- ID sets are Dafny sets of naturals. The model does not capture signed object IDs, nor the difference between `positive_ref()` and `ref()` in pass 2 of the tags strategy.
- Integers are unbounded. `SmartByFirstNodeAndTags.CheckMembersCount` does not model `size_t` overflow of `wanted * 100` or `size * percentage`.
- The model swaps the loop nesting of each pass: it runs every extract over the whole input in turn. The source feeds each object to every extract in turn. The extracts share no state, so the final states are the same.
- In the tags strategy's `run`, the loop over `relation_ids` is modelled as iterating over the set as it was when the loop started. Relations the walk adds are not visited by the outer loop. The recursion already covers their parents, and the proved result (the upward closure) does not depend on this choice.
- `SmartCustom.Pass1Way`, `SmartByFirstNodeAndTags.Pass1Way` and both `Strategy.Run`: these require that ways read by the first-node rule have at least one node, because `way.nodes().front()` on an empty way is undefined behaviour in the source.
- Both `Strategy.Run` methods require a freshly constructed strategy (`Initial()`): all extracts empty. A second `run` on the same object is not modelled.
- Three defaults come from class headers that are not part of this model: percentage 100, `by_first_node` false, and a filter default result of false. They are taken as stated.
- The tag lists kept for display (`m_relation_tags`, `m_relation_system_tags`, `m_filter_tags`) are not modelled. Only the filters built from them are.
- The libosmium `TagsFilter` and `TagMatcher` are reduced to exact key and key/value rules that each yield `true`. These are the only rules the two strategies add.
