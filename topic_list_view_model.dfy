/** The topic search of viewmodels/TopicListViewModel.js: the loaded topics
    whose lowercased topic contains the lowercased search text. The search
    text is neither trimmed nor tested for emptiness. */
module TopicListViewModel {
  import opened Text
  import opened Seqs
  import opened Storage

  predicate TopicContains(item: GrammarUnit, search: string) {
    Contains(ToLower(item.topic), ToLower(search))
  }

  /** `filteredTopics`. */
  function FilteredTopics(topics: seq<GrammarUnit>, search: string): (r: seq<GrammarUnit>)
    ensures Subseq(r, topics)
    ensures forall i :: 0 <= i < |r| ==> TopicContains(r[i], search)
    ensures forall i :: 0 <= i < |topics| && TopicContains(topics[i], search) ==> topics[i] in r
    ensures multiset(r) <= multiset(topics)
    ensures forall i :: 0 <= i < |topics| ==>
              multiset(r)[topics[i]] == if TopicContains(topics[i], search) then multiset(topics)[topics[i]] else 0
  {
    var p := (item: GrammarUnit) => TopicContains(item, search);
    FilterCounts(topics, p);
    Filter(topics, p)
  }

  /** The empty text occurs in every string, so an empty search keeps all
      topics. */
  lemma EmptySearchKeepsAll(topics: seq<GrammarUnit>)
    ensures FilteredTopics(topics, "") == topics
  {
    forall i | 0 <= i < |topics| ensures TopicContains(topics[i], "") {
      assert OccursAt(ToLower(topics[i].topic), ToLower(""), 0);
    }
    FilterKeepsAll(topics, (item: GrammarUnit) => TopicContains(item, ""));
  }

  /** A topic of the list is shown exactly when its lowercased topic contains
      the lowercased search. */
  lemma ShownIffContains(topics: seq<GrammarUnit>, search: string, item: GrammarUnit)
    requires item in topics
    ensures item in FilteredTopics(topics, search) <==> TopicContains(item, search)
  {
    var r := FilteredTopics(topics, search);
    if item in r {
      var i :| 0 <= i < |r| && r[i] == item;
    } else {
      var i :| 0 <= i < |topics| && topics[i] == item;
    }
  }

  /** Lower-casing keeps whitespace, so a text containing a whitespace
      character still does after lower-casing. */
  lemma ToLowerKeepsSpaceAt(s: string, k: nat)
    requires k < |s| && IsSpace(s[k])
    ensures IsSpace(ToLower(s)[k])
  {
    LowerCharKeepsSpace(s[k]);
  }

  /** The search text is not trimmed: a search made only of whitespace hides
      every topic without whitespace. */
  lemma BlankSearchHidesTopicsWithoutSpace(topics: seq<GrammarUnit>, search: string, i: nat)
    requires |search| > 0 && IsBlank(search)
    requires i < |topics| && forall k :: 0 <= k < |topics[i].topic| ==> !IsSpace(topics[i].topic[k])
    ensures topics[i] !in FilteredTopics(topics, search)
  {
    var item := topics[i];
    if item in FilteredTopics(topics, search) {
      ShownIffContains(topics, search, item);
      var t, q := ToLower(item.topic), ToLower(search);
      var j :| 0 <= j <= |t| && OccursAt(t, q, j);
      assert t[j..j + |q|][0] == t[j];
      ToLowerKeepsSpaceAt(search, 0);
      LowerCharKeepsSpace(item.topic[j]);
      assert false;
    }
  }
}
