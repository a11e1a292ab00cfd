/** The word store (models/Database.js): two lists of word entries, the user's
    and the bundled seed words, kept under two keys of a key-value store whose
    values are JSON text. The store is a map from key to stored value; a value
    is either a JSON list of entries or text that does not parse as one. */
module Database {
  import opened Wrappers
  import opened Text
  import opened Seqs

  /** One word entry. A field the JSON object lacks is the empty string, which
      JavaScript treats as falsy just like a missing field. */
  datatype Word = Word(id: string, word: string, meaning: string, sentence: string,
                       category: string, createdAt: int)

  /** The value kept under one key. */
  datatype Stored = Json(records: seq<Word>) | Unparseable

  type Store = map<string, Stored>

  const UserKey: string := "words"
  const SeedKey: string := "seedWords"
  const UserPrefix: string := "user-"
  const SeedPrefix: string := "seed-"
  const DefaultCategory: string := "Genel"

  predicate HasPrefix(s: string, prefix: string) {
    |prefix| <= |s| && s[..|prefix|] == prefix
  }

  /** `safeJsonParse`: a missing value or one that does not parse reads as []. */
  function SafeJsonParse(data: Option<Stored>): (r: seq<Word>)
    ensures |r| > 0 ==> data == Some(Json(r))
    ensures data.None? || data == Some(Unparseable) ==> r == []
    ensures data.Some? && data.value.Json? ==> r == data.value.records
  {
    match data
    case Some(Json(rs)) => rs
    case _ => []
  }

  /** `AsyncStorage.getItem(key)` followed by `safeJsonParse`. */
  function Read(st: Store, key: string): (r: seq<Word>)
    ensures |r| > 0 ==> key in st && st[key] == Json(r)
    ensures key in st && st[key].Json? ==> r == st[key].records
    ensures key !in st || st[key] == Unparseable ==> r == []
  {
    SafeJsonParse(if key in st then Some(st[key]) else None)
  }

  /** `initDatabase`: an empty list is written under each of the two keys that
      is missing; a key that holds anything at all is left alone. */
  function Init(st: Store): (r: Store)
    ensures r.Keys == st.Keys + {UserKey, SeedKey}
    ensures forall k :: k in st ==> r[k] == st[k]
    ensures forall k :: k in r && k !in st ==> r[k] == Json([])
  {
    var st1 := if UserKey in st then st else st[UserKey := Json([])];
    if SeedKey in st1 then st1 else st1[SeedKey := Json([])]
  }

  /** One bundled seed entry as stored: its id (or a fresh one when it has
      none) gets the seed prefix; every other field is kept. */
  function SeedEntry(w: Word, freshId: string): Word {
    w.(id := SeedPrefix + (if w.id != "" then w.id else freshId))
  }

  /** The bundled list with prefixed ids; `freshIds[k]` is what
      `generateUniqueId` returns for entry k. */
  function PrefixSeeds(bundled: seq<Word>, freshIds: seq<string>): (r: seq<Word>)
    requires |freshIds| == |bundled|
    ensures |r| == |bundled|
    ensures forall k :: 0 <= k < |r| ==> HasPrefix(r[k].id, SeedPrefix)
    ensures forall k :: 0 <= k < |r| ==> r[k] == bundled[k].(id := r[k].id)
    ensures forall k :: 0 <= k < |r| && bundled[k].id != "" ==> r[k].id == SeedPrefix + bundled[k].id
    ensures forall k :: 0 <= k < |r| && bundled[k].id == "" ==> r[k].id == SeedPrefix + freshIds[k]
  {
    if |bundled| == 0 then []
    else [SeedEntry(bundled[0], freshIds[0])] + PrefixSeeds(bundled[1..], freshIds[1..])
  }

  datatype SeedResult = SeedResult(store: Store, seeds: seq<Word>)

  /** `addSeedWords`: the stored seed list when it is non-empty (nothing is
      written); otherwise the prefixed bundled list, which is written. */
  function AddSeeds(st: Store, bundled: seq<Word>, freshIds: seq<string>): (r: SeedResult)
    requires |freshIds| == |bundled|
    ensures Read(r.store, SeedKey) == r.seeds
    ensures |Read(st, SeedKey)| > 0 ==> r.store == st && r.seeds == Read(st, SeedKey)
    ensures |Read(st, SeedKey)| == 0 ==> r.seeds == PrefixSeeds(bundled, freshIds)
    ensures |Read(st, SeedKey)| == 0 ==> r.store == st[SeedKey := Json(PrefixSeeds(bundled, freshIds))]
    ensures forall k :: k != SeedKey ==> (k in r.store <==> k in st)
    ensures forall k :: k != SeedKey && k in st ==> r.store[k] == st[k]
  {
    var seeds := Read(st, SeedKey);
    if |seeds| == 0 then
      var prefixed := PrefixSeeds(bundled, freshIds);
      SeedResult(st[SeedKey := Json(prefixed)], prefixed)
    else SeedResult(st, seeds)
  }

  /** A second `addSeedWords` returns the same list and leaves the store as the
      first call left it, whatever ids the second call would generate. */
  lemma AddSeedsIdempotent(st: Store, bundled: seq<Word>, ids1: seq<string>, ids2: seq<string>)
    requires |ids1| == |bundled| && |ids2| == |bundled|
    ensures AddSeeds(AddSeeds(st, bundled, ids1).store, bundled, ids2) == AddSeeds(st, bundled, ids1)
  {
    var first := AddSeeds(st, bundled, ids1);
    if |first.seeds| == 0 {
      assert |bundled| == 0;
      assert first.store[SeedKey := Json([])] == first.store;
    }
  }

  /** `sentence?.trim() || fallback`: the trimmed text, or the fallback when
      the argument is missing or blank. */
  function TrimmedOr(s: Option<string>, fallback: string): string {
    match s
    case None => fallback
    case Some(v) => if |Trim(v)| == 0 then fallback else Trim(v)
  }

  /** The entry `addWord` builds; `id` and `now` stand for `generateUniqueId()`
      and `Date.now()`. */
  function NewUserWord(word: string, meaning: string, sentence: Option<string>,
                       category: Option<string>, id: string, now: int): (w: Word)
    ensures w.id == id && w.createdAt == now
    ensures w.word == Trim(word) && w.meaning == Trim(meaning)
    ensures w.sentence == TrimmedOr(sentence, "")
    ensures w.category == TrimmedOr(category, DefaultCategory)
    ensures |w.category| > 0 && !IsSpace(w.category[0]) && !IsSpace(w.category[|w.category| - 1])
  {
    Word(id, Trim(word), Trim(meaning), TrimmedOr(sentence, ""), TrimmedOr(category, DefaultCategory), now)
  }

  /** The user list written back by `addWord`: the entry pushed at the end. */
  function AppendUser(st: Store, w: Word): (r: Store)
    ensures Read(r, UserKey) == Read(st, UserKey) + [w]
    ensures forall k :: k != UserKey ==> (k in r <==> k in st)
    ensures forall k :: k != UserKey && k in st ==> r[k] == st[k]
  {
    st[UserKey := Json(Read(st, UserKey) + [w])]
  }

  /** An entry as `getWords` reports it: its id with the user prefix. */
  function Listed(w: Word): Word {
    w.(id := UserPrefix + w.id)
  }

  /** The `map` in `getWords`: same entries in the same order, ids prefixed. */
  function ListedAll(rs: seq<Word>): (r: seq<Word>)
    ensures |r| == |rs|
    ensures forall k :: 0 <= k < |rs| ==> r[k] == rs[k].(id := UserPrefix + rs[k].id)
  {
    if |rs| == 0 then [] else [Listed(rs[0])] + ListedAll(rs[1..])
  }

  /** `getWords`. */
  function UserWords(st: Store): seq<Word> {
    ListedAll(Read(st, UserKey))
  }

  /** The record `addWord` returns is the one `getWords` lists last afterwards. */
  lemma AddedWordIsListedLast(st: Store, w: Word)
    ensures UserWords(AppendUser(st, w)) == UserWords(st) + [Listed(w)]
  {
    var rs := Read(st, UserKey);
    assert ListedAll(rs + [w]) == ListedAll(rs) + [Listed(w)];
  }

  /** `id.toString().replace('user-', '')`. */
  function StripUserPrefix(id: string): string {
    ReplaceFirst(id, UserPrefix, "")
  }

  /** The entries whose id differs from `id`, in order. */
  function WithoutId(rs: seq<Word>, id: string): (r: seq<Word>)
    ensures Subseq(r, rs)
    ensures forall i :: 0 <= i < |r| ==> r[i].id != id && r[i] in rs
    ensures forall i :: 0 <= i < |rs| && rs[i].id != id ==> rs[i] in r
    ensures multiset(r) <= multiset(rs)
    ensures forall i :: 0 <= i < |rs| ==>
              multiset(r)[rs[i]] == if rs[i].id != id then multiset(rs)[rs[i]] else 0
  {
    var p := (w: Word) => w.id != id;
    FilterCounts(rs, p);
    Filter(rs, p)
  }

  predicate UniqueIds(rs: seq<Word>) {
    forall i, j :: 0 <= i < j < |rs| ==> rs[i].id != rs[j].id
  }

  /** With unique ids, dropping the id of entry k drops exactly entry k. */
  lemma WithoutUniqueId(rs: seq<Word>, k: nat)
    requires k < |rs| && UniqueIds(rs)
    ensures WithoutId(rs, rs[k].id) == rs[..k] + rs[k + 1..]
  {
    var id := rs[k].id;
    var p := (w: Word) => w.id != id;
    assert rs == rs[..k] + ([rs[k]] + rs[k + 1..]);
    FilterConcat(rs[..k], [rs[k]] + rs[k + 1..], p);
    FilterConcat([rs[k]], rs[k + 1..], p);
    FilterKeepsAll(rs[..k], p);
    FilterKeepsAll(rs[k + 1..], p);
  }

  /** `deleteWord`: the user list without the entries whose id equals the
      argument with its first `user-` removed. */
  function Delete(st: Store, id: string): (r: Store)
    ensures Read(r, UserKey) == WithoutId(Read(st, UserKey), StripUserPrefix(id))
    ensures forall k :: k != UserKey ==> (k in r <==> k in st)
    ensures forall k :: k != UserKey && k in st ==> r[k] == st[k]
  {
    st[UserKey := Json(WithoutId(Read(st, UserKey), StripUserPrefix(id)))]
  }

  /** Deleting the id `getWords` reported for entry k removes every stored entry
      with that entry's id, and with unique ids exactly entry k. */
  lemma DeleteListedWord(st: Store, k: nat)
    requires k < |UserWords(st)|
    ensures Read(Delete(st, UserWords(st)[k].id), UserKey)
            == WithoutId(Read(st, UserKey), Read(st, UserKey)[k].id)
    ensures UniqueIds(Read(st, UserKey)) ==>
            Read(Delete(st, UserWords(st)[k].id), UserKey)
            == Read(st, UserKey)[..k] + Read(st, UserKey)[k + 1..]
  {
    var rs := Read(st, UserKey);
    ReplacePrefixGivesRest(UserPrefix, rs[k].id);
    if UniqueIds(rs) { WithoutUniqueId(rs, k); }
  }

  /** `removeAllWords` / `removeAllSeedWords`: an empty list under `key`. */
  function Clear(st: Store, key: string): (r: Store)
    ensures Read(r, key) == []
    ensures forall k :: k != key ==> (k in r <==> k in st)
    ensures forall k :: k != key && k in st ==> r[k] == st[k]
  {
    st[key := Json([])]
  }

  /** Clearing one collection leaves what the other one reads unchanged. */
  lemma ClearKeepsOther(st: Store)
    ensures Read(Clear(st, UserKey), SeedKey) == Read(st, SeedKey)
    ensures Read(Clear(st, SeedKey), UserKey) == Read(st, UserKey)
  {
  }

  /** The key-value store as the application sees it. */
  class WordStore {
    var items: Store

    constructor (initial: Store)
      ensures items == initial
    {
      items := initial;
    }

    /** `AsyncStorage.getItem`. */
    function GetItem(key: string): Option<Stored>
      reads this
    {
      if key in items then Some(items[key]) else None
    }

    method InitDatabase()
      modifies this
      ensures items == Init(old(items))
    {
      var existingUser, existingSeed := GetItem(UserKey), GetItem(SeedKey);
      if existingUser.None? {
        items := items[UserKey := Json([])];
      }
      if existingSeed.None? {
        items := items[SeedKey := Json([])];
      }
    }

    method AddSeedWords(bundled: seq<Word>, freshIds: seq<string>) returns (seeds: seq<Word>)
      requires |freshIds| == |bundled|
      modifies this
      ensures SeedResult(items, seeds) == AddSeeds(old(items), bundled, freshIds)
    {
      seeds := SafeJsonParse(GetItem(SeedKey));
      if |seeds| == 0 {
        seeds := PrefixSeeds(bundled, freshIds);
        items := items[SeedKey := Json(seeds)];
      }
    }

    method AddWord(word: string, meaning: string, sentence: Option<string>,
                   category: Option<string>, freshId: string, now: int) returns (added: Word)
      modifies this
      ensures items == AppendUser(old(items), NewUserWord(word, meaning, sentence, category, freshId, now))
      ensures added == Listed(NewUserWord(word, meaning, sentence, category, freshId, now))
    {
      var words := SafeJsonParse(GetItem(UserKey));
      var newWord := NewUserWord(word, meaning, sentence, category, freshId, now);
      words := words + [newWord];
      items := items[UserKey := Json(words)];
      added := Listed(newWord);
    }

    method GetSeedWords() returns (seeds: seq<Word>)
      ensures seeds == Read(items, SeedKey)
    {
      seeds := SafeJsonParse(GetItem(SeedKey));
    }

    method RemoveAllSeedWords()
      modifies this
      ensures items == Clear(old(items), SeedKey)
    {
      items := items[SeedKey := Json([])];
    }

    method GetWords() returns (words: seq<Word>)
      ensures words == UserWords(items)
    {
      var stored := SafeJsonParse(GetItem(UserKey));
      words := ListedAll(stored);
    }

    method DeleteWord(id: string)
      modifies this
      ensures items == Delete(old(items), id)
    {
      var words := SafeJsonParse(GetItem(UserKey));
      var numericId := StripUserPrefix(id);
      var filtered := Filter(words, (w: Word) => w.id != numericId);
      items := items[UserKey := Json(filtered)];
    }

    method RemoveAllWords()
      modifies this
      ensures items == Clear(old(items), UserKey)
    {
      items := items[UserKey := Json([])];
    }
  }
}
