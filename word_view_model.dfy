/** The word-list view-model (viewmodels/WordViewModel.js): the user and seed
    word lists loaded from the store, the category chips, and the list shown
    for the selected category and search text. */
module WordViewModel {
  import opened Wrappers
  import opened Text
  import opened Seqs
  import opened Database

  /** The chip that selects every category. */
  const AllCategories: string := "all"

  /** `word.category || 'Genel'`. */
  function CategoryLabel(w: Word): string {
    if w.category != "" then w.category else DefaultCategory
  }

  /** `wordsList.map(word => word.category || 'Genel')`. */
  function CategoryLabels(words: seq<Word>): seq<string> {
    seq(|words|, k requires 0 <= k < |words| => CategoryLabel(words[k]))
  }

  /** `updateCategories`: 'all' followed by the distinct labels. */
  function Categories(words: seq<Word>): (r: seq<string>)
    ensures |r| > 0 && r[0] == AllCategories
    ensures forall k :: 0 <= k < |words| ==> CategoryLabel(words[k]) in r
    ensures forall i :: 1 <= i < |r| ==> r[i] in CategoryLabels(words)
    ensures forall i, j :: 1 <= i < j < |r| ==> r[i] != r[j]
  {
    var labels := CategoryLabels(words);
    var d := Distinct(labels);
    assert forall k :: 0 <= k < |words| ==> labels[k] == CategoryLabel(words[k]) && labels[k] in d;
    [AllCategories] + d
  }

  /** The labels after 'all' come in the order in which they first appear. */
  lemma CategoriesInFirstAppearanceOrder(words: seq<Word>, i: nat, j: nat)
    requires 1 <= i < j < |Categories(words)|
    ensures Categories(words)[i] in CategoryLabels(words)
    ensures Categories(words)[j] in CategoryLabels(words)
    ensures FirstIndex(CategoryLabels(words), Categories(words)[i])
            < FirstIndex(CategoryLabels(words), Categories(words)[j])
  {
    DistinctAfterHeadFirstAppearance(AllCategories, CategoryLabels(words), i, j);
  }

  /** The search text as it is matched: `searchQuery.toLowerCase().trim()`. */
  function SearchKey(query: string): (key: string)
    ensures key == ToLower(Trim(query))
  {
    TrimToLower(query);
    Trim(ToLower(query))
  }

  predicate MatchesSearch(w: Word, key: string) {
    Contains(ToLower(w.word), key) || Contains(ToLower(w.meaning), key)
  }

  /** The category step of `filterWords`. */
  function ByCategory(words: seq<Word>, category: string): (r: seq<Word>)
    ensures Subseq(r, words)
    ensures category != AllCategories ==> forall i :: 0 <= i < |r| ==> r[i].category == category
    ensures category == AllCategories ==> r == words
    ensures multiset(r) <= multiset(words)
    ensures forall i :: 0 <= i < |words| ==>
              multiset(r)[words[i]] ==
                if category == AllCategories || words[i].category == category
                then multiset(words)[words[i]] else 0
  {
    SubseqReflexive(words);
    if category != AllCategories then
      var p := (w: Word) => w.category == category;
      FilterCounts(words, p);
      Filter(words, p)
    else words
  }

  /** The search step of `filterWords`. */
  function BySearch(words: seq<Word>, query: string): (r: seq<Word>)
    ensures Subseq(r, words)
    ensures !IsBlank(query) ==> forall i :: 0 <= i < |r| ==> MatchesSearch(r[i], SearchKey(query))
    ensures IsBlank(query) ==> r == words
    ensures multiset(r) <= multiset(words)
    ensures forall i :: 0 <= i < |words| ==>
              multiset(r)[words[i]] ==
                if IsBlank(query) || MatchesSearch(words[i], SearchKey(query))
                then multiset(words)[words[i]] else 0
  {
    SubseqReflexive(words);
    if |Trim(query)| > 0 then
      var key := SearchKey(query);
      var p := (w: Word) => MatchesSearch(w, key);
      FilterCounts(words, p);
      Filter(words, p)
    else words
  }

  /** A word passes both tests of `filterWords`. */
  predicate Shown(w: Word, category: string, query: string) {
    && (category == AllCategories || w.category == category)
    && (IsBlank(query) || MatchesSearch(w, SearchKey(query)))
  }

  /** The `filterWords` pipeline: the seed or the user list, then the category
      filter unless 'all' is selected, then the search filter unless the
      search text is blank. */
  function FilterWords(showSeed: bool, seedWords: seq<Word>, userWords: seq<Word>,
                       selectedCategory: string, searchQuery: string): (r: seq<Word>)
    ensures Subseq(r, if showSeed then seedWords else userWords)
    ensures selectedCategory != AllCategories ==>
              forall i :: 0 <= i < |r| ==> r[i].category == selectedCategory
    ensures !IsBlank(searchQuery) ==>
              forall i :: 0 <= i < |r| ==> MatchesSearch(r[i], SearchKey(searchQuery))
    ensures forall w :: w in (if showSeed then seedWords else userWords)
              && Shown(w, selectedCategory, searchQuery)
              ==> w in r
    ensures selectedCategory == AllCategories && IsBlank(searchQuery) ==>
              r == if showSeed then seedWords else userWords
    ensures var base := if showSeed then seedWords else userWords;
            && multiset(r) <= multiset(base)
            && forall i :: 0 <= i < |base| ==>
                 multiset(r)[base[i]] ==
                   if Shown(base[i], selectedCategory, searchQuery) then multiset(base)[base[i]] else 0
  {
    var base := if showSeed then seedWords else userWords;
    PipelineKeeps(base, selectedCategory, searchQuery);
    PipelineCounts(base, selectedCategory, searchQuery);
    BySearch(ByCategory(base, selectedCategory), searchQuery)
  }

  /** The two steps of `filterWords` keep order and keep only words that pass
      both tests. */
  lemma PipelineKeeps(base: seq<Word>, category: string, query: string)
    ensures var r := BySearch(ByCategory(base, category), query);
            && Subseq(r, base)
            && (category != AllCategories ==> forall i :: 0 <= i < |r| ==> r[i].category == category)
            && (!IsBlank(query) ==> forall i :: 0 <= i < |r| ==> MatchesSearch(r[i], SearchKey(query)))
            && (category == AllCategories && IsBlank(query) ==> r == base)
  {
    var byCategory := ByCategory(base, category);
    var r := BySearch(byCategory, query);
    SubseqTransitive(r, byCategory, base);
    assert forall i :: 0 <= i < |r| ==> r[i] in byCategory;
  }

  /** How often a word of the base list survives both steps of `filterWords`:
      as often as it occurs when it passes both tests, else never. */
  lemma PipelineCounts(base: seq<Word>, category: string, query: string)
    ensures var r := BySearch(ByCategory(base, category), query);
            && multiset(r) <= multiset(base)
            && (forall i :: 0 <= i < |base| ==>
                 multiset(r)[base[i]] ==
                   if Shown(base[i], category, query) then multiset(base)[base[i]] else 0)
            && (forall w :: w in base && Shown(w, category, query) ==> w in r)
  {
    var byCategory := ByCategory(base, category);
    var r := BySearch(byCategory, query);
    forall i | 0 <= i < |base|
      ensures multiset(r)[base[i]] ==
                if Shown(base[i], category, query) then multiset(base)[base[i]] else 0
    {
      var x := base[i];
      if x in byCategory {
        var j :| 0 <= j < |byCategory| && byCategory[j] == x;
      } else {
        assert multiset(byCategory)[x] == 0;
      }
    }
    forall w | w in base && Shown(w, category, query) ensures w in r {
      var i :| 0 <= i < |base| && base[i] == w;
      assert multiset(r)[base[i]] > 0;
    }
  }

  /** A word without a category is listed under the 'Genel' chip, yet selecting
      that chip does not show it: the chips use the fallback label, the filter
      compares the raw field. */
  lemma UncategorisedWordHiddenUnderDefaultChip(w: Word)
    requires w.category == ""
    ensures DefaultCategory in Categories([w])
    ensures FilterWords(false, [], [w], DefaultCategory, "") == []
  {
    assert Categories([w])[1..] == Distinct(CategoryLabels([w]));
    assert CategoryLabels([w])[0] == DefaultCategory;
  }

  datatype WordError = MissingWordOrMeaning

  /** The state of the `useWordViewModel` hook over a word store. */
  class WordList {
    const db: WordStore
    var userWords: seq<Word>
    var seedWords: seq<Word>
    var categories: seq<string>
    var selectedCategory: string
    var searchQuery: string
    var showSeed: bool

    constructor (db: WordStore)
      ensures this.db == db
      ensures userWords == [] && seedWords == [] && categories == []
      ensures selectedCategory == AllCategories && searchQuery == "" && !showSeed
    {
      this.db := db;
      userWords, seedWords, categories := [], [], [];
      selectedCategory, searchQuery, showSeed := AllCategories, "", false;
    }

    /** `displayWords`, which the effect on `filterWords` keeps up to date. */
    function DisplayWords(): seq<Word>
      reads this
    {
      FilterWords(showSeed, seedWords, userWords, selectedCategory, searchQuery)
    }

    method LoadUserWords()
      modifies this
      ensures userWords == UserWords(db.items) && categories == Categories(userWords)
      ensures seedWords == old(seedWords) && showSeed == old(showSeed)
      ensures selectedCategory == old(selectedCategory) && searchQuery == old(searchQuery)
    {
      var wordsFromDB := db.GetWords();
      userWords := wordsFromDB;
      categories := Categories(wordsFromDB);
    }

    /** `initializeDB`, without the `loading` flag. */
    method InitializeDB()
      modifies this, db
      ensures db.items == Init(old(db.items))
      ensures userWords == UserWords(db.items) && categories == Categories(userWords)
      ensures seedWords == old(seedWords) && showSeed == old(showSeed)
      ensures selectedCategory == old(selectedCategory) && searchQuery == old(searchQuery)
    {
      db.InitDatabase();
      LoadUserWords();
    }

    method LoadSeedWords(bundled: seq<Word>, freshIds: seq<string>)
      requires |freshIds| == |bundled|
      modifies this, db
      ensures SeedResult(db.items, seedWords) == AddSeeds(old(db.items), bundled, freshIds)
      ensures showSeed && categories == Categories(seedWords)
      ensures userWords == old(userWords)
      ensures selectedCategory == old(selectedCategory) && searchQuery == old(searchQuery)
    {
      var seeds := db.AddSeedWords(bundled, freshIds);
      seedWords := seeds;
      showSeed := true;
      categories := Categories(seeds);
    }

    /** `addNewWord`: a blank word or meaning throws before the store is
        touched; otherwise the entry is stored, the user list reloaded and the
        user list shown. */
    method AddNewWord(word: string, meaning: string, sentence: Option<string>,
                      category: Option<string>, freshId: string, now: int)
      returns (r: Outcome<WordError>)
      modifies this, db
      ensures r.Fail? <==> IsBlank(word) || IsBlank(meaning)
      ensures r.Fail? ==> r.error == MissingWordOrMeaning && unchanged(this, db)
      ensures r.Pass? ==>
                && db.items == AppendUser(old(db.items), NewUserWord(word, meaning, sentence, category, freshId, now))
                && userWords == UserWords(db.items) && categories == Categories(userWords)
                && userWords == UserWords(old(db.items)) + [Listed(NewUserWord(word, meaning, sentence, category, freshId, now))]
                && !showSeed && seedWords == old(seedWords)
                && selectedCategory == old(selectedCategory) && searchQuery == old(searchQuery)
    {
      if |Trim(word)| == 0 || |Trim(meaning)| == 0 {
        return Fail(MissingWordOrMeaning);
      }
      var _ := db.AddWord(word, meaning, sentence, category, freshId, now);
      AddedWordIsListedLast(old(db.items), NewUserWord(word, meaning, sentence, category, freshId, now));
      LoadUserWords();
      showSeed := false;
      r := Pass;
    }

    method RemoveSeedWords()
      modifies this, db
      ensures db.items == Clear(old(db.items), SeedKey)
      ensures seedWords == [] && !showSeed
      ensures userWords == UserWords(db.items) && categories == Categories(userWords)
      ensures selectedCategory == old(selectedCategory) && searchQuery == old(searchQuery)
    {
      db.RemoveAllSeedWords();
      seedWords := [];
      showSeed := false;
      LoadUserWords();
    }

    method RemoveWord(id: string)
      modifies this, db
      ensures db.items == Delete(old(db.items), id)
      ensures userWords == UserWords(db.items) && categories == Categories(userWords)
      ensures seedWords == old(seedWords) && showSeed == old(showSeed)
      ensures selectedCategory == old(selectedCategory) && searchQuery == old(searchQuery)
    {
      db.DeleteWord(id);
      LoadUserWords();
    }

    method SetSelectedCategory(category: string)
      modifies this
      ensures selectedCategory == category
      ensures userWords == old(userWords) && seedWords == old(seedWords) && showSeed == old(showSeed)
      ensures categories == old(categories) && searchQuery == old(searchQuery)
    {
      selectedCategory := category;
    }

    method SetSearchQuery(query: string)
      modifies this
      ensures searchQuery == query
      ensures userWords == old(userWords) && seedWords == old(seedWords) && showSeed == old(showSeed)
      ensures categories == old(categories) && selectedCategory == old(selectedCategory)
    {
      searchQuery := query;
    }
  }
}
