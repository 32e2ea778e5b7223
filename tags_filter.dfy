/**
 * Tag matching as the two strategies use it: a filter made of key-only or
 * key/value rules, each of which yields `true`, over a default result, and
 * the parsing of one rule from its option text.
 */
module TagsFilter {
  import opened Wrappers
  import opened Osm

  /** osmium::TagMatcher restricted to what the strategies build: a key alone, or an exact key and value. */
  datatype TagMatcher = KeyMatcher(key: string) | KeyValueMatcher(key: string, value: string)

  predicate Matches(m: TagMatcher, tag: Tag) {
    match m
    case KeyMatcher(k) => tag.key == k
    case KeyValueMatcher(k, v) => tag.key == k && tag.value == v
  }

  /** An osmium::TagsFilter all of whose rules were added with result `true`. */
  datatype Filter = Filter(defaultResult: bool, rules: seq<TagMatcher>)

  /** A default-constructed osmium::TagsFilter: no rules, default result false. */
  const EmptyFilter := Filter(false, [])

  /** The filter applied to one tag: the first matching rule's result (always true), otherwise the default. */
  predicate Passes(f: Filter, tag: Tag) {
    (exists i :: 0 <= i < |f.rules| && Matches(f.rules[i], tag)) || f.defaultResult
  }

  /** osmium::tags::match_any_of: does the filter pass some tag of the list? */
  function MatchAnyOf(tags: seq<Tag>, f: Filter): (r: bool)
    ensures r <==> exists i :: 0 <= i < |tags| && Passes(f, tags[i])
  {
    if tags == [] then false
    else Passes(f, tags[0]) || MatchAnyOf(tags[1..], f)
  }

  /** std::string::find for one character: the first position of `c` in `s`, if any. */
  function FindFirst(s: string, c: char): (r: Option<nat>)
    ensures r.None? <==> c !in s
    ensures r.Some? ==> r.value < |s| && s[r.value] == c && c !in s[..r.value]
  {
    if s == [] then None
    else if s[0] == c then Some(0)
    else
      match FindFirst(s[1..], c)
      case None => None
      case Some(i) =>
        assert s[..i + 1] == [s[0]] + s[1..][..i];
        Some(i + 1)
  }

  /**
   * One rule of an option value: without `sep` the whole text is a key;
   * otherwise the key is the text before the first `sep` and the value the
   * text after it.
   */
  function ParseMatcher(text: string, sep: char): (m: TagMatcher)
    ensures sep !in text ==> m == KeyMatcher(text)
    ensures sep in text ==> m.KeyValueMatcher? && sep !in m.key && text == m.key + [sep] + m.value
  {
    match FindFirst(text, sep)
    case None => KeyMatcher(text)
    case Some(pos) =>
      assert text == text[..pos] + [sep] + text[pos + 1..];
      KeyValueMatcher(text[..pos], text[pos + 1..])
  }

  /** The option text a rule is written as. */
  function MatcherText(m: TagMatcher, sep: char): string {
    match m
    case KeyMatcher(k) => k
    case KeyValueMatcher(k, v) => k + [sep] + v
  }

  /** Parsing gives back every rule whose key does not contain the separator (the value may). */
  lemma ParseMatcherText(m: TagMatcher, sep: char)
    requires sep !in m.key
    ensures ParseMatcher(MatcherText(m, sep), sep) == m
  {
    match m
    case KeyMatcher(k) =>
    case KeyValueMatcher(k, v) =>
      var text := k + [sep] + v;
      assert text[|k|] == sep;
      var p := ParseMatcher(text, sep);
      assert |p.key| == |k|;
      assert p.key == text[..|k|] == k;
      assert p.value == text[|k| + 1..] == v;
  }

  /** The filter holds exactly the rules parsed from `parts`, in order, over default false. */
  predicate BuiltFrom(f: Filter, parts: seq<string>, sep: char) {
    && !f.defaultResult
    && |f.rules| == |parts|
    && forall i :: 0 <= i < |parts| ==> f.rules[i] == ParseMatcher(parts[i], sep)
  }

  /**
   * The rule-adding loop of both strategies' option handling: set the default
   * result to false, then add one rule (with result true) per part.
   */
  method AddFilterRules(filter: Filter, parts: seq<string>, sep: char) returns (r: Filter)
    ensures !r.defaultResult
    ensures |r.rules| == |filter.rules| + |parts|
    ensures r.rules[..|filter.rules|] == filter.rules
    ensures forall i :: 0 <= i < |parts| ==> r.rules[|filter.rules| + i] == ParseMatcher(parts[i], sep)
  {
    r := filter.(defaultResult := false);
    for i := 0 to |parts|
      invariant !r.defaultResult
      invariant |r.rules| == |filter.rules| + i
      invariant r.rules[..|filter.rules|] == filter.rules
      invariant forall j :: 0 <= j < i ==> r.rules[|filter.rules| + j] == ParseMatcher(parts[j], sep)
    {
      r := r.(rules := r.rules + [ParseMatcher(parts[i], sep)]);
    }
  }

  /** A filter built from option parts matches a tag list iff some tag matches some parsed rule. */
  lemma BuiltFilterMatches(f: Filter, parts: seq<string>, sep: char, tags: seq<Tag>)
    requires BuiltFrom(f, parts, sep)
    ensures MatchAnyOf(tags, f) <==>
              exists i, j :: 0 <= i < |tags| && 0 <= j < |parts| && Matches(ParseMatcher(parts[j], sep), tags[i])
  {
    if MatchAnyOf(tags, f) {
      var i :| 0 <= i < |tags| && Passes(f, tags[i]);
      var j :| 0 <= j < |f.rules| && Matches(f.rules[j], tags[i]);
      assert Matches(ParseMatcher(parts[j], sep), tags[i]);
    }
    if exists i, j :: 0 <= i < |tags| && 0 <= j < |parts| && Matches(ParseMatcher(parts[j], sep), tags[i]) {
      var i, j :| 0 <= i < |tags| && 0 <= j < |parts| && Matches(ParseMatcher(parts[j], sep), tags[i]);
      assert Matches(f.rules[j], tags[i]);
      assert Passes(f, tags[i]);
    }
  }

  /** osmium::TagList::operator[]: the value of the first tag with `key`, if any. */
  function GetValue(tags: seq<Tag>, key: string): (r: Option<string>)
    ensures r.None? <==> forall i :: 0 <= i < |tags| ==> tags[i].key != key
    ensures r.Some? ==> exists i :: 0 <= i < |tags| && tags[i] == Tag(key, r.value) && forall j :: 0 <= j < i ==> tags[j].key != key
  {
    if tags == [] then None
    else if tags[0].key == key then Some(tags[0].value)
    else
      var r := GetValue(tags[1..], key);
      assert r.Some? ==> exists i :: 0 <= i < |tags| - 1 && tags[1..][i] == Tag(key, r.value) && forall j :: 0 <= j < i ==> tags[1..][j].key != key;
      if r.Some? then
        var i :| 0 <= i < |tags| - 1 && tags[1..][i] == Tag(key, r.value) && forall j :: 0 <= j < i ==> tags[1..][j].key != key;
        assert tags[i + 1] == Tag(key, r.value);
        assert forall j :: 0 <= j < i + 1 ==> tags[j].key != key by {
          forall j | 0 <= j < i + 1 ensures tags[j].key != key {
            if j > 0 { assert tags[j] == tags[1..][j - 1]; }
          }
        }
        r
      else
        assert forall i :: 1 <= i < |tags| ==> tags[i] == tags[1..][i - 1];
        r
  }
}
