/** The grammar-unit filter of models/storage.js, over a plain list of units:
    a case-insensitive topic keyword and a case-insensitive difficulty, each
    applied only when it is non-empty. */
module Storage {
  import opened Wrappers
  import opened Text
  import opened Seqs

  /** The fields of a grammar unit the filters look at. */
  datatype GrammarUnit = GrammarUnit(id: string, topic: string, difficulty: string)

  /** `konuEslesiyor`: no keyword, or the lowercased topic contains the
      lowercased keyword. */
  predicate TopicMatches(u: GrammarUnit, keyword: string) {
    keyword == "" || Contains(ToLower(u.topic), ToLower(keyword))
  }

  /** `zorlukEslesiyor`: no difficulty, or the lowercased difficulties are equal. */
  predicate DifficultyMatches(u: GrammarUnit, difficulty: string) {
    difficulty == "" || ToLower(u.difficulty) == ToLower(difficulty)
  }

  predicate Keeps(u: GrammarUnit, keyword: string, difficulty: string) {
    TopicMatches(u, keyword) && DifficultyMatches(u, difficulty)
  }

  /** `gramerVerileriniFiltrele(veri, konuAnahtarKelimesi, zorluk)`; a missing
      `veri` is `None`. The result keeps exactly the units that pass both
      tests, in their order. */
  function FilterUnits(veri: Option<seq<GrammarUnit>>, keyword: string, difficulty: string)
    : (r: seq<GrammarUnit>)
    ensures veri.None? || |veri.value| == 0 ==> r == []
    ensures veri.Some? ==> Subseq(r, veri.value)
    ensures forall i :: 0 <= i < |r| ==> Keeps(r[i], keyword, difficulty)
    ensures keyword != "" ==>
              forall i :: 0 <= i < |r| ==> Contains(ToLower(r[i].topic), ToLower(keyword))
    ensures difficulty != "" ==>
              forall i :: 0 <= i < |r| ==> ToLower(r[i].difficulty) == ToLower(difficulty)
    ensures veri.Some? ==>
              forall i :: 0 <= i < |veri.value| && Keeps(veri.value[i], keyword, difficulty) ==>
                veri.value[i] in r
    ensures veri.Some? ==>
              && multiset(r) <= multiset(veri.value)
              && forall i :: 0 <= i < |veri.value| ==>
                   multiset(r)[veri.value[i]] ==
                     if Keeps(veri.value[i], keyword, difficulty) then multiset(veri.value)[veri.value[i]] else 0
  {
    if veri.None? || |veri.value| == 0 then []
    else
      var p := (u: GrammarUnit) => Keeps(u, keyword, difficulty);
      FilterCounts(veri.value, p);
      Filter(veri.value, p)
  }

  /** With both filters empty the input list comes back unchanged. */
  lemma FilterWithoutCriteria(units: seq<GrammarUnit>)
    ensures FilterUnits(Some(units), "", "") == units
  {
    FilterKeepsAll(units, (u: GrammarUnit) => Keeps(u, "", ""));
  }

  /** Filtering the result again with the same arguments changes nothing. */
  lemma FilterUnitsIdempotent(veri: Option<seq<GrammarUnit>>, keyword: string, difficulty: string)
    ensures FilterUnits(Some(FilterUnits(veri, keyword, difficulty)), keyword, difficulty)
            == FilterUnits(veri, keyword, difficulty)
  {
    var r := FilterUnits(veri, keyword, difficulty);
    FilterKeepsAll(r, (u: GrammarUnit) => Keeps(u, keyword, difficulty));
  }
}
