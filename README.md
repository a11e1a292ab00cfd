# kelimeapp core, modelled in Dafny

kelimeapp is a vocabulary app. A user keeps a list of words (word, meaning,
example sentence, category) next to a bundled list of seed words, browses
them by category and search text, and practises them in a quiz. The quiz has
a multiple-choice mode and a flashcard mode. It scores +10 per correct answer
and −5 per wrong one, never going below 0. It also tracks the current streak
of correct answers (the combo) and the best one (the max combo). Grammar
units can be filtered by topic keyword and difficulty.

The model has one module per core file, plus three shared modules:

- `QuizViewModel` (viewmodels/QuizViewModel.js):
  - the class `QuizSession` holds the hook's state fields. Each handler
    (`startQuiz`, `handleAnswer`, `nextQuestion`, `restartQuiz`,
    `switchWordSource`) is one method, an atomic step from the state before
    the call.
  - A ghost history of the multiple-choice answers ties the score, combo and
    max-combo fields to `Replay`, a pure function of that history.
    `Valid()` states this tie.
  - Lemmas prove what the combo and max combo mean: the trailing and the
    longest streak of correct answers.
  - `Shuffle` is the Fisher–Yates loop over an array copy. Its swap index is
    any index in range, and only the permutation property is proved.
- `Database` (models/Database.js):
  - AsyncStorage is the class `WordStore` over a map from key to stored
    value. A stored value is a JSON list of entries or text that fails to
    parse.
  - Each store operation is a method, specified by a pure function of the
    old map. Lemmas cover idempotent seeding, "the added word is listed
    last", and "deleting the listed id removes that entry".
- `WordViewModel` (viewmodels/WordViewModel.js):
  - the category chips and the `filterWords` pipeline are pure functions.
  - The hook's state is the class `WordList`, whose methods call the store.
- `Storage`, `Grammar` and `TopicListViewModel` (models/storage.js,
  models/Grammar.js, viewmodels/TopicListViewModel.js): the grammar-unit
  filters, which are order-preserving, case-insensitive filters.
- The shared modules:
  - `Wrappers` holds `Option` and `Outcome`;
  - `Text` models `toLowerCase`, `trim`, `includes` and `replace`;
  - `Seqs` models `filter`, `new Set(...)` and the subsequence order.

Modelling decisions:

- **Missing JavaScript fields.** A field missing from a JSON entry is the
  empty string, which is falsy as `undefined` is. `generateUniqueId()`,
  `Date.now()` and `Math.random()` become parameters or non-deterministic
  choices.
- **Thrown errors.** A thrown error becomes an `Outcome`/`QuizError` result.
  Where the source throws before changing anything, the model leaves the
  state unchanged.
- **No entry validation in the quiz.** `startQuiz` takes the selected
  collection as it is: entries missing a word or a meaning are not
  rejected, and the model does the same.
- **Quirk kept as written: uncategorised words.** A word without a category
  is listed under the 'Genel' chip. The category filter compares the raw
  field, though, so selecting that chip does not show the word
  (`UncategorisedWordHiddenUnderDefaultChip`).

## Model

| member | source | states |
|---|---|---|
| QuizViewModel.QuizSession.constructor | viewmodels/QuizViewModel.js:13-26 | the session starts valid with the given user and seed words, an empty quiz list, index 0, nothing revealed or finished, no selected answer or verdict, multiple-choice mode, the user source, and score, combo and max combo 0 |
| QuizViewModel.Shuffle | viewmodels/QuizViewModel.js:4-11 | the result is a permutation of the input: same length and same multiset of elements; the input is a value, so the caller's list is untouched |
| QuizViewModel.StartCheck | viewmodels/QuizViewModel.js:56-66 | start succeeds exactly when the selected collection is non-empty and, in multiple choice, has at least 4 words; an empty collection fails first, with the error naming the source; "too few for multiple choice" happens exactly for 1-3 words in that mode, so flashcards accept 1-3 words |
| QuizViewModel.QuizSession.StartQuiz | viewmodels/QuizViewModel.js:55-79 | returns the guard outcome; on success the session is fresh: mode and source recorded, quiz words a permutation of the chosen collection, index 0, score, combo and max combo 0, not finished, no selected answer or verdict, answer hidden; on failure nothing changes |
| QuizViewModel.ReplaySnoc | viewmodels/QuizViewModel.js:87-97 | one more answer moves the score, combo and max combo by exactly one scoring step: +10 and combo+1 (max combo raised to it when larger) when correct, max(0, score-5) and combo 0 when wrong |
| QuizViewModel.ScoreBounds | viewmodels/QuizViewModel.js:88-95 | the score is never negative, at most 10 per correct answer, and at least 10 per correct answer minus 5 per wrong one |
| QuizViewModel.ComboIsTrailingStreak | viewmodels/QuizViewModel.js:89-96 | the combo is the length of the longest run of correct answers ending at the last answer |
| QuizViewModel.MaxComboIsLongestStreak | viewmodels/QuizViewModel.js:89-93 | the max combo is at least the combo, no run of consecutive correct answers is longer than it, and some run has exactly its length |
| QuizViewModel.ScoringInvariants | viewmodels/QuizViewModel.js:87-97 | in every valid session score >= 0 and 0 <= combo <= max combo |
| QuizViewModel.ExampleTally | viewmodels/QuizViewModel.js:87-97 | answers correct, wrong, correct, correct, wrong give score 20, combo 0 and max combo 2 |
| QuizViewModel.QuizSession.RecordAnswer | viewmodels/QuizViewModel.js:83-97 | records the answer and its verdict, appends it to the history and advances score, combo and max combo by one step; all other fields are kept and the session stays valid |
| QuizViewModel.QuizSession.HandleAnswer | viewmodels/QuizViewModel.js:81-103 | in multiple choice, correctness is exact equality with the meaning of the question current before the call, and the scoring fields take one step from their values before the call; in any other mode only the answer is revealed; max combo never decreases |
| QuizViewModel.QuizSession.NextQuestion | viewmodels/QuizViewModel.js:105-115 | clears the revealed answer, selected answer and verdict; before the last question the index goes up by one, on the last one the quiz finishes and the index stays; the index stays in range, the progress target never goes down, and the score fields are unchanged |
| QuizViewModel.QuizSession.RestartQuiz | viewmodels/QuizViewModel.js:117 | exactly `startQuiz` with the session's own mode and source: the same outcome, a fresh session on success and no change on failure |
| QuizViewModel.QuizSession.SwitchWordSource | viewmodels/QuizViewModel.js:119-124 | the new source is recorded in every case; with no quiz running nothing else changes; otherwise the quiz restarts from the new source in the current mode, and if that start fails only the source has changed |
| QuizViewModel.QuizSession.SetQuizMode | viewmodels/QuizViewModel.js:20 | only the mode changes |
| QuizViewModel.QuizSession.SetShowAnswer | viewmodels/QuizViewModel.js:16 | only the revealed flag changes |
| QuizViewModel.QuizSession.CurrentQuestion | viewmodels/QuizViewModel.js:126 | the word at the current index, or the empty placeholder when the index does not address a word; in a valid session the current question is one of the quiz words exactly when there are quiz words, so the placeholder appears only for an empty quiz |
| QuizViewModel.ProgressFraction | viewmodels/QuizViewModel.js:39-41 | (index+1)/length lies in (0, 1] for an index in range and equals 1 exactly on the last question |
| QuizViewModel.ProgressMonotone | viewmodels/QuizViewModel.js:41 | a later question never has a smaller progress target |
| QuizViewModel.QuizSession.ProgressTarget | viewmodels/QuizViewModel.js:38-47 | a target exists exactly when there are quiz words; in a valid session it lies in (0, 1] and is 1 exactly on the last question |
| QuizViewModel.QuizSession.MultipleChoiceOptions | viewmodels/QuizViewModel.js:128-139 | with fewer than 4 quiz words the options are exactly the current meaning; otherwise they contain the correct meaning plus up to 3 meanings of words whose id differs from the current one, each used no more often than it occurs; with unique ids in a valid session there are exactly 4 options |
| QuizViewModel.ExampleSession | viewmodels/QuizViewModel.js:55-115 | five multiple-choice answers (correct, wrong, correct, correct, wrong), each followed by the next-question step, end with score 20, max combo 2 and the quiz finished |
| Database.SafeJsonParse | models/Database.js:12-19 | a missing or unparseable value reads as the empty list; a stored JSON list reads as exactly that list |
| Database.Read | models/Database.js:93-101 | a key holding a JSON list reads as exactly that list; a missing key or unparseable text reads as []; a non-empty read means the key holds that list |
| Database.Init | models/Database.js:27-45 | afterwards both keys exist, a key that existed keeps its value, and a key that was missing holds the empty list |
| Database.WordStore.InitDatabase | models/Database.js:27-45 | the store becomes `Init` of the old store |
| Database.PrefixSeeds | models/Database.js:54-57 | one entry per bundled entry, in order, each id with the seed prefix followed by the entry's own id, or by the generated id when it has none, every other field unchanged |
| Database.AddSeeds | models/Database.js:48-66 | with a non-empty stored seed list nothing is written and that list is returned; otherwise the prefixed bundled list is written and returned; the returned list is what the seed key reads afterwards; other keys are untouched |
| Database.AddSeedsIdempotent | models/Database.js:48-66 | a second call returns the same list and leaves the store as the first left it, whatever ids it would generate |
| Database.WordStore.AddSeedWords | models/Database.js:48-66 | the returned list and the new store are `AddSeeds` of the old store |
| Database.NewUserWord | models/Database.js:74-81 | the new entry has the given id and time, trimmed word and meaning, a trimmed sentence or "", and a trimmed category or 'Genel', which is never empty and never starts or ends with whitespace |
| Database.AppendUser | models/Database.js:83-84 | the user list reads as before with exactly the new entry appended; other keys are untouched |
| Database.WordStore.AddWord | models/Database.js:69-90 | the store gains the new entry at the end of the user list, and the returned record is that entry with the user prefix on its id |
| Database.ListedAll | models/Database.js:117 | the listed entries are the stored ones in order and count, each id prefixed with `user-`, every other field unchanged |
| Database.AddedWordIsListedLast | models/Database.js:85 | after `addWord`, `getWords` lists the old entries followed by exactly the record `addWord` returned |
| Database.WordStore.GetWords | models/Database.js:113-122 | returns the user list as listed (prefixed ids) |
| Database.WordStore.GetSeedWords | models/Database.js:93-101 | returns the stored seed list, or [] when missing or unparseable |
| Database.WithoutId | models/Database.js:129 | keeps, in order, exactly the entries whose id differs from the given one, each as often as it occurs, and drops every entry with that id |
| Database.WithoutUniqueId | models/Database.js:129 | with unique ids, dropping entry k's id removes exactly entry k |
| Database.Delete | models/Database.js:124-136 | the user list loses exactly the entries whose id equals the argument with its first `user-` removed; other keys are untouched |
| Database.DeleteListedWord | models/Database.js:128-129 | deleting the id `getWords` reported for entry k removes the entries with k's stored id, and with unique ids exactly entry k |
| Database.WordStore.DeleteWord | models/Database.js:124-136 | the store becomes `Delete` of the old store |
| Database.Clear | models/Database.js:138-145 | the cleared key reads as the empty list and every other key is untouched |
| Database.ClearKeepsOther | models/Database.js:103-111 | clearing the seed list leaves the user list as it was, and clearing the user list leaves the seed list |
| Database.WordStore.RemoveAllSeedWords | models/Database.js:103-111 | the seed key is cleared, nothing else changes |
| Database.WordStore.RemoveAllWords | models/Database.js:138-145 | the user key is cleared, nothing else changes |
| Text.ReplaceFirst | models/Database.js:128 | without an occurrence of the pattern the text is returned unchanged; with one, the first occurrence found by `IndexOf` is replaced and the text before and after it is kept, so the length changes by the replacement's length minus the pattern's |
| Text.IndexOf | models/Database.js:128 | finds the first occurrence of the pattern, and none exactly when the text does not contain it |
| Text.ReplacePrefixGivesRest | models/Database.js:128 | removing `user-` from `user-` + id gives back id, whatever id contains |
| Text.Trim | models/Database.js:76-79 | the trimmed text is the factor left after leading and trailing whitespace, starts and ends with non-whitespace, and is empty exactly when the text is all whitespace |
| Text.TrimToLower | viewmodels/WordViewModel.js:65 | trimming the lowercased text equals lowercasing the trimmed text |
| Seqs.Filter | models/storage.js:56-66 | `Array.prototype.filter`: an order-preserving subsequence of the input whose every element passes the predicate, and every input element that passes is in it |
| Seqs.FilterCounts | models/storage.js:56-66 | `filter` keeps every element that passes the predicate as often as it occurs and drops every other one; with the subsequence order this fixes the result |
| Seqs.Distinct | viewmodels/WordViewModel.js:53 | `new Set(list)` in iteration order: each element of the list exactly once, nothing else, as a subsequence |
| Seqs.DistinctFirstAppearance | viewmodels/WordViewModel.js:53 | the distinct elements come in the order of their first appearance |
| WordViewModel.Categories | viewmodels/WordViewModel.js:52-55 | 'all' first, then every word's category (or 'Genel') present, every chip after 'all' a label of some word, with no repeats after 'all' |
| WordViewModel.CategoriesInFirstAppearanceOrder | viewmodels/WordViewModel.js:53 | the chips after 'all' are category labels of the words, in the order in which they first appear |
| WordViewModel.SearchKey | viewmodels/WordViewModel.js:65 | the matched text `toLowerCase().trim()` equals the lowercased trimmed query |
| WordViewModel.ByCategory | viewmodels/WordViewModel.js:60-62 | an order-preserving subsequence; unless 'all', exactly the words whose category equals the selection, each as often as it occurs in the input; 'all' keeps the list |
| WordViewModel.BySearch | viewmodels/WordViewModel.js:64-71 | an order-preserving subsequence; for a non-blank query, exactly the words whose lowercased word or meaning contains the search key, each as often as it occurs in the input; a blank query keeps the list |
| WordViewModel.PipelineKeeps | viewmodels/WordViewModel.js:58-71 | the category step followed by the search step keeps order, keeps only words with the selected category (unless 'all') that match a non-blank query, and with 'all' and a blank query returns the list |
| WordViewModel.PipelineCounts | viewmodels/WordViewModel.js:58-71 | after both steps each word of the list occurs as often as in the list when it passes both tests and not at all otherwise |
| WordViewModel.FilterWords | viewmodels/WordViewModel.js:57-74 | the shown words are an order-preserving subsequence of the seed list when seeds are shown, else of the user list; each has the selected category unless 'all'; each matches a non-blank query; every word passing both tests is shown as often as it occurs in the list, and no other word; 'all' with a blank query shows the whole list |
| WordViewModel.UncategorisedWordHiddenUnderDefaultChip | viewmodels/WordViewModel.js:53 | a word without a category gets the 'Genel' chip, yet selecting 'Genel' does not show it |
| WordViewModel.WordList.constructor | viewmodels/WordViewModel.js:5-11 | empty lists, 'all' selected, empty search, user list shown |
| WordViewModel.WordList.LoadUserWords | viewmodels/WordViewModel.js:30-38 | the user list is what `getWords` returns and the chips are derived from it; the other fields are kept |
| WordViewModel.WordList.InitializeDB | viewmodels/WordViewModel.js:18-28 | the store is initialised, then the user list and chips are loaded |
| WordViewModel.WordList.LoadSeedWords | viewmodels/WordViewModel.js:40-50 | the seed list and store are those of `addSeedWords`, seeds are shown and the chips come from the seed list |
| WordViewModel.WordList.AddNewWord | viewmodels/WordViewModel.js:80-94 | fails, leaving the view-model and the store untouched, exactly when the word or meaning is blank; otherwise the entry is stored, the user list is the old one plus the new entry, and the user list is shown |
| WordViewModel.WordList.RemoveSeedWords | viewmodels/WordViewModel.js:96-106 | the stored seeds are cleared, the seed list is empty, the user list is shown and reloaded |
| WordViewModel.WordList.RemoveWord | viewmodels/WordViewModel.js:108-116 | the store loses the entry with the given id and the user list is reloaded |
| WordViewModel.WordList.SetSelectedCategory | viewmodels/WordViewModel.js:9 | only the selected category changes |
| WordViewModel.WordList.SetSearchQuery | viewmodels/WordViewModel.js:10 | only the search text changes |
| Storage.FilterUnits | models/storage.js:53-67 | a missing or empty list gives []; otherwise an order-preserving subsequence in which every unit passes the non-empty keyword test (lowercased topic contains the lowercased keyword) and the non-empty difficulty test (lowercased difficulties equal), and every passing unit is kept as often as it occurs |
| Storage.FilterWithoutCriteria | models/storage.js:57-63 | with both filters empty the list comes back unchanged |
| Storage.FilterUnitsIdempotent | models/storage.js:53-67 | filtering the result again with the same arguments changes nothing |
| Grammar.FilterGrammar | models/Grammar.js:48-55 | missing data or missing units give []; otherwise an order-preserving subsequence of the units, every unit passes both non-empty tests, and every passing unit is kept as often as it occurs |
| Grammar.FilterGrammarWithoutCriteria | models/Grammar.js:51-53 | with both filters empty all units are returned |
| Grammar.FilterGrammarAgreesWithStorage | models/Grammar.js:48-55 | for data holding a unit list, the result equals the models/storage.js filter applied to that list |
| TopicListViewModel.FilteredTopics | viewmodels/TopicListViewModel.js:28-30 | an order-preserving subsequence of the topics; every kept item's lowercased topic contains the lowercased search, and every such topic is kept as often as it occurs |
| TopicListViewModel.ShownIffContains | viewmodels/TopicListViewModel.js:28-30 | a topic of the list is shown exactly when its lowercased topic contains the lowercased search |
| TopicListViewModel.EmptySearchKeepsAll | viewmodels/TopicListViewModel.js:29 | an empty search keeps every topic |
| TopicListViewModel.BlankSearchHidesTopicsWithoutSpace | viewmodels/TopicListViewModel.js:29 | the search is not trimmed, so a whitespace-only search hides every topic with no whitespace in it |

## Left out

- Timers: the `setTimeout(nextQuestion, 500)` auto-advance after a multiple-choice answer, and its race with the manual next button, are concurrency. `NextQuestion` is an explicit step the caller takes.
- React machinery: the re-shuffle effect on a source change (viewmodels/QuizViewModel.js:31-36) is left out, so quiz words appear only after a successful `startQuiz`. The `Animated` progress object is left out too; only its numeric target is modelled. The `filterWords` effect is the derived function `WordList.DisplayWords`.
- The `loading` flags of both view-models are presentation state.
- `getAvailableWordCount` only reports a collection's length, and is not modelled.
- Persistence I/O: AsyncStorage becomes an in-memory map and JSON text becomes the `Stored` datatype.
- AsyncStorage failures and the catch-and-log paths are not modelled.
- A stored empty string is not modelled. JavaScript treats it as a missing value.
- The grammar load, save and clear functions of models/storage.js and models/Grammar.js are left out. This includes the re-save inside the Grammar.js load. The `loadTopics` effect of the topic list is left out too.
- `generateUniqueId`, `Date.now` and `Math.random` are parameters or non-deterministic choices. No uniqueness of generated ids is assumed, and no uniformity of the shuffle is claimed.
- QuizViewModel.Shuffle: proves only the permutation property, because the random swap index is an unconstrained choice.
- Text.ToLower: maps only 'A'-'Z'. JavaScript's Unicode case mapping is not modelled.
- Text.Trim: removes a fixed set of characters, the ECMAScript whitespace and line terminators, listed out.
- Errors from calling a string method on a missing field are not modelled. Examples are `word.trim()` on an `undefined` word and `unit.topic.toLowerCase()` on a unit without a topic. A missing field is the empty string.
- QuizViewModel.QuizSession.CurrentQuestion: the placeholder's id is the empty string rather than `undefined`. In a valid session the placeholder only appears when there are no quiz words, where the options take the short branch, so the difference is not observable there.
- QuizViewModel.QuizSession.MultipleChoiceOptions: fixes which meanings come out only up to the choice of shuffles, by stating membership and a multiset bound rather than one list.
- Views, navigation, App.js, viewmodels/TopicDetailViewModel.js and viewmodels/GrammarViewModel.js: TopicDetailViewModel is a lookup by id, and GrammarViewModel loads data and delegates to the Grammar.js filter.
- QuizViewModel.QuizSession: the user and seed word lists are fixed when the session is built. In the app they are hook arguments that change once the words load, and through the re-shuffle effect that would replace the quiz words; this model does not follow such changes.
- Stored text that parses as JSON but is not a list (`null`, an object) is not modelled: `Stored` is a list or unparseable text. With such a value `safeJsonParse` returns it as it is, so `addSeedWords` throws for `null` and returns an object unwritten. The app itself only ever writes lists.
