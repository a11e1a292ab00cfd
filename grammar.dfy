/** The grammar-unit filter of models/Grammar.js, whose input is an object
    holding the unit list under `units`. */
module Grammar {
  import opened Wrappers
  import opened Text
  import opened Seqs
  import opened Storage

  /** The loaded grammar data; a missing `units` field is `None`. */
  datatype GrammarData = GrammarData(units: Option<seq<GrammarUnit>>)

  /** `gramerVerileriniFiltrele(veri, konuAnahtarKelimesi, zorluk)` over
      `veri.units`; a missing `veri` is `None`. */
  function FilterGrammar(veri: Option<GrammarData>, keyword: string, difficulty: string)
    : (r: seq<GrammarUnit>)
    ensures veri.None? || veri.value.units.None? ==> r == []
    ensures veri.Some? && veri.value.units.Some? ==>
              && Subseq(r, veri.value.units.value)
              && forall i :: (0 <= i < |veri.value.units.value|
                                && Keeps(veri.value.units.value[i], keyword, difficulty)) ==>
                   veri.value.units.value[i] in r
    ensures veri.Some? && veri.value.units.Some? ==>
              var units := veri.value.units.value;
              && multiset(r) <= multiset(units)
              && forall i :: 0 <= i < |units| ==>
                   multiset(r)[units[i]] ==
                     if Keeps(units[i], keyword, difficulty) then multiset(units)[units[i]] else 0
    ensures keyword != "" ==>
              forall i :: 0 <= i < |r| ==> Contains(ToLower(r[i].topic), ToLower(keyword))
    ensures difficulty != "" ==>
              forall i :: 0 <= i < |r| ==> ToLower(r[i].difficulty) == ToLower(difficulty)
  {
    if veri.None? || veri.value.units.None? then []
    else
      var p := (u: GrammarUnit) => Keeps(u, keyword, difficulty);
      FilterCounts(veri.value.units.value, p);
      Filter(veri.value.units.value, p)
  }

  /** With both filters empty all units are returned. */
  lemma FilterGrammarWithoutCriteria(units: seq<GrammarUnit>)
    ensures FilterGrammar(Some(GrammarData(Some(units))), "", "") == units
  {
    FilterKeepsAll(units, (u: GrammarUnit) => Keeps(u, "", ""));
  }

  /** For data holding a unit list this filter is the plain-list filter of
      models/storage.js applied to that list. */
  lemma FilterGrammarAgreesWithStorage(units: seq<GrammarUnit>, keyword: string, difficulty: string)
    ensures FilterGrammar(Some(GrammarData(Some(units))), keyword, difficulty)
            == FilterUnits(Some(units), keyword, difficulty)
  {
    if |units| == 0 {
      assert Filter(units, (u: GrammarUnit) => Keeps(u, keyword, difficulty)) == [];
    }
  }
}
