/** The quiz session engine (viewmodels/QuizViewModel.js): a shuffled list of
    words, the current question, scoring with a combo counter and its best
    value, the finished flag, the progress target and the multiple-choice
    options. Each handler is one atomic step from the state before the call. */
module QuizViewModel {
  import opened Wrappers
  import opened Database

  datatype Mode = MultipleChoice | Flashcard
  datatype Source = User | Seed

  /** The two errors `startQuiz` throws; the empty-collection message depends
      on the source. */
  datatype QuizError = NoUserWords | NoSeedWords | TooFewForMultipleChoice

  /** Multiple choice needs the correct meaning and three distractors. */
  const MinChoiceWords: nat := 4

  /** `currentQuestion` when the index does not address a word. */
  const Placeholder: Word := Word("", "", "", "", "", 0)

  function Max(a: int, b: int): int {
    if a < b then b else a
  }

  function Min(a: int, b: int): int {
    if a < b then a else b
  }

  /** `shuffleArray`: Fisher-Yates over a copy of the input. The swap partner
      `j` is any index in [0, i]; only the permutation property is claimed. */
  method Shuffle<T>(s: seq<T>) returns (r: seq<T>)
    ensures |r| == |s|
    ensures multiset(r) == multiset(s)
  {
    var arr := new T[|s|](k requires 0 <= k < |s| => s[k]);
    assert arr[..] == s;
    var i := arr.Length - 1;
    while i > 0
      invariant -1 <= i < arr.Length
      invariant multiset(arr[..]) == multiset(s)
    {
      var j :| 0 <= j <= i;
      arr[i], arr[j] := arr[j], arr[i];
      i := i - 1;
    }
    r := arr[..];
  }

  /** The guards of `startQuiz`, in their order: an empty collection first,
      then too few words for multiple choice. */
  function StartCheck(mode: Mode, source: Source, words: seq<Word>): (r: Outcome<QuizError>)
    ensures r.Pass? <==> |words| > 0 && (mode == MultipleChoice ==> |words| >= MinChoiceWords)
    ensures |words| == 0 ==> r == Fail(if source == User then NoUserWords else NoSeedWords)
    ensures r == Fail(TooFewForMultipleChoice) <==>
              0 < |words| < MinChoiceWords && mode == MultipleChoice
  {
    if |words| == 0 then Fail(if source == User then NoUserWords else NoSeedWords)
    else if mode == MultipleChoice && |words| < MinChoiceWords then Fail(TooFewForMultipleChoice)
    else Pass
  }

  // ---------------------------------------------------------------------
  // Scoring. The multiple-choice answers of a session (true = correct, oldest
  // first) determine the three scoring fields of the session.

  /** `detailedScore`, `combo` and `maxCombo`. */
  datatype Tally = Tally(score: int, combo: int, maxCombo: int)

  const FreshTally: Tally := Tally(0, 0, 0)

  /** What one answer does to the scoring fields: +10 and one more in the
      combo when correct, else -5 without going below 0 and the combo reset;
      the best combo follows the combo upwards. */
  function Step(t: Tally, correct: bool): Tally {
    if correct then Tally(t.score + 10, t.combo + 1, Max(t.maxCombo, t.combo + 1))
    else Tally(Max(0, t.score - 5), 0, t.maxCombo)
  }

  /** The scoring fields after the given answers, from a fresh session. */
  function Replay(answers: seq<bool>): Tally {
    if |answers| == 0 then FreshTally
    else Step(Replay(answers[..|answers| - 1]), answers[|answers| - 1])
  }

  /** Replaying one more answer is one more step. */
  lemma ReplaySnoc(answers: seq<bool>, correct: bool)
    ensures Replay(answers + [correct]) == Step(Replay(answers), correct)
  {
    assert (answers + [correct])[..|answers|] == answers;
  }

  /** How many of the answers equal `b`. */
  function Count(answers: seq<bool>, b: bool): nat {
    if |answers| == 0 then 0
    else Count(answers[..|answers| - 1], b) + (if answers[|answers| - 1] == b then 1 else 0)
  }

  /** The score is never negative, is at most ten per correct answer and at
      least the unfloored sum of +10 and -5. */
  lemma {:induction false} ScoreBounds(answers: seq<bool>)
    ensures 0 <= Replay(answers).score <= 10 * Count(answers, true)
    ensures Replay(answers).score >= 10 * Count(answers, true) - 5 * Count(answers, false)
  {
    if |answers| > 0 {
      ScoreBounds(answers[..|answers| - 1]);
    }
  }

  /** All answers in positions [i, j) are correct. */
  ghost predicate AllCorrect(answers: seq<bool>, i: int, j: int)
    requires 0 <= i <= j <= |answers|
  {
    forall k :: i <= k < j ==> answers[k]
  }

  /** A streak of `len` correct answers starts at position i. */
  ghost predicate StreakAt(answers: seq<bool>, i: int, len: int) {
    0 <= i && 0 <= len && i + len <= |answers| && AllCorrect(answers, i, i + len)
  }

  /** The combo is the longest streak of correct answers ending with the
      last answer. */
  lemma {:induction false} ComboIsTrailingStreak(answers: seq<bool>)
    ensures StreakAt(answers, |answers| - Replay(answers).combo, Replay(answers).combo)
    ensures forall i :: 0 <= i <= |answers| && AllCorrect(answers, i, |answers|) ==>
              |answers| - i <= Replay(answers).combo
  {
    if |answers| > 0 {
      var n := |answers|;
      var p := answers[..n - 1];
      ComboIsTrailingStreak(p);
      forall i | 0 <= i <= n && AllCorrect(answers, i, n)
        ensures n - i <= Replay(answers).combo
      {
        if i < n {
          assert AllCorrect(p, i, |p|) by {
            forall k | i <= k < |p| ensures p[k] { assert answers[k]; }
          }
        }
      }
      if answers[n - 1] {
        var c := Replay(answers).combo;
        assert AllCorrect(answers, n - c, n) by {
          forall k | n - c <= k < n ensures answers[k] {
            if k < |p| { assert p[k] == answers[k]; }
          }
        }
      }
    }
  }

  /** The best combo is the length of the longest streak of correct answers:
      some streak has that length and none is longer. It is never below the
      current combo. */
  lemma {:induction false} MaxComboIsLongestStreak(answers: seq<bool>)
    ensures Replay(answers).combo <= Replay(answers).maxCombo
    ensures forall i, j :: 0 <= i <= j <= |answers| && AllCorrect(answers, i, j) ==>
              j - i <= Replay(answers).maxCombo
    ensures exists i :: StreakAt(answers, i, Replay(answers).maxCombo)
  {
    if |answers| == 0 {
      assert StreakAt(answers, 0, 0);
    } else {
      var n := |answers|;
      var p := answers[..n - 1];
      var best := Replay(answers).maxCombo;
      MaxComboIsLongestStreak(p);
      ComboIsTrailingStreak(answers);
      forall i, j | 0 <= i <= j <= n && AllCorrect(answers, i, j)
        ensures j - i <= best
      {
        if j < n {
          assert AllCorrect(p, i, j) by {
            forall k | i <= k < j ensures p[k] { assert answers[k]; }
          }
        }
      }
      if best == Replay(p).maxCombo {
        var i :| StreakAt(p, i, best);
        assert StreakAt(answers, i, best) by {
          forall k | i <= k < i + best ensures answers[k] { assert p[k]; }
        }
      } else {
        assert StreakAt(answers, n - best, best);
      }
    }
  }

  /** The example of a five-question multiple-choice session: correct, wrong,
      correct, correct, wrong gives score 20, combo 0 and best combo 2. */
  lemma ExampleTally()
    ensures Replay([true, false, true, true, false]) == Tally(20, 0, 2)
  {
    var h0: seq<bool> := [];
    var h1 := h0 + [true];
    var h2 := h1 + [false];
    var h3 := h2 + [true];
    var h4 := h3 + [true];
    var h5 := h4 + [false];
    ReplaySnoc(h0, true);
    ReplaySnoc(h1, false);
    ReplaySnoc(h2, true);
    ReplaySnoc(h3, true);
    ReplaySnoc(h4, false);
    assert h5 == [true, false, true, true, false];
  }

  // ---------------------------------------------------------------------
  // Progress

  /** The value the progress bar animates to: (index + 1) / length. */
  function ProgressFraction(index: nat, total: nat): (r: real)
    requires total > 0
    ensures index < total ==> 0.0 < r <= 1.0
    ensures r == 1.0 <==> index + 1 == total
  {
    (index + 1) as real / total as real
  }

  /** Moving to a later question never moves the progress target back. */
  lemma ProgressMonotone(i: nat, j: nat, total: nat)
    requires i <= j && total > 0
    ensures ProgressFraction(i, total) <= ProgressFraction(j, total)
  {
    var t := total as real;
    assert (i + 1) as real <= (j + 1) as real;
    assert (i + 1) as real / t <= (j + 1) as real / t;
  }

  // ---------------------------------------------------------------------
  // Options

  /** `.map(w => w.meaning)`. */
  function Meanings(words: seq<Word>): seq<string> {
    seq(|words|, k requires 0 <= k < |words| => words[k].meaning)
  }

  /** A snapshot of the session fields other than `wordSource`. */
  datatype SessionView = SessionView(quizWords: seq<Word>, index: nat, showAnswer: bool,
                                     finished: bool, selectedAnswer: Option<string>,
                                     isCorrect: Option<bool>, mode: Mode, score: int,
                                     combo: int, maxCombo: int, answers: seq<bool>)

  /** The state of the `useQuizViewModel` hook for given user and seed words. */
  class QuizSession {
    const userWords: seq<Word>
    const seedWords: seq<Word>
    var quizWords: seq<Word>
    var currentQuestionIndex: nat
    var showAnswer: bool
    var quizFinished: bool
    var selectedAnswer: Option<string>
    var isCorrect: Option<bool>
    var quizMode: Mode
    var wordSource: Source
    var detailedScore: int
    var combo: int
    var maxCombo: int
    /** The multiple-choice answers of this session, oldest first. */
    ghost var answers: seq<bool>

    ghost predicate Valid()
      reads this
    {
      && (if |quizWords| == 0 then currentQuestionIndex == 0 else currentQuestionIndex < |quizWords|)
      && Replay(answers) == Tally(detailedScore, combo, maxCombo)
      && (selectedAnswer.Some? <==> isCorrect.Some?)
      && (isCorrect.Some? ==> |answers| > 0 && answers[|answers| - 1] == isCorrect.value)
    }

    ghost function State(): SessionView
      reads this
    {
      SessionView(quizWords, currentQuestionIndex, showAnswer, quizFinished, selectedAnswer,
                  isCorrect, quizMode, detailedScore, combo, maxCombo, answers)
    }

    constructor (userWords: seq<Word>, seedWords: seq<Word>)
      ensures Valid()
      ensures this.userWords == userWords && this.seedWords == seedWords
      ensures quizWords == [] && currentQuestionIndex == 0 && !showAnswer && !quizFinished
      ensures selectedAnswer.None? && isCorrect.None? && quizMode == MultipleChoice && wordSource == User
      ensures detailedScore == 0 && combo == 0 && maxCombo == 0
    {
      this.userWords := userWords;
      this.seedWords := seedWords;
      quizWords, currentQuestionIndex := [], 0;
      showAnswer, quizFinished := false, false;
      selectedAnswer, isCorrect := None, None;
      quizMode, wordSource := MultipleChoice, User;
      detailedScore, combo, maxCombo := 0, 0, 0;
      answers := [];
    }

    /** The collection a source selects. */
    function Words(source: Source): seq<Word> {
      if source == User then userWords else seedWords
    }

    /** `currentQuestion`: the word at the index, or the empty placeholder. */
    function CurrentQuestion(): (w: Word)
      reads this
      ensures currentQuestionIndex < |quizWords| ==> w == quizWords[currentQuestionIndex]
      ensures currentQuestionIndex >= |quizWords| ==> w == Placeholder
      ensures Valid() ==> (w in quizWords <==> |quizWords| > 0)
    {
      if currentQuestionIndex < |quizWords| then quizWords[currentQuestionIndex] else Placeholder
    }

    /** The progress target; there is none while the quiz list is empty. */
    function ProgressTarget(): (r: Option<real>)
      reads this
      ensures r.Some? <==> |quizWords| > 0
      ensures Valid() && r.Some? ==> 0.0 < r.value <= 1.0
      ensures Valid() && r.Some? ==> (r.value == 1.0 <==> currentQuestionIndex == |quizWords| - 1)
    {
      if |quizWords| > 0 then Some(ProgressFraction(currentQuestionIndex, |quizWords|)) else None
    }

    /** A session just started in `mode` from `source`. */
    ghost predicate FreshSession(mode: Mode, source: Source)
      reads this
    {
      && wordSource == source && quizMode == mode
      && |quizWords| == |Words(source)| && multiset(quizWords) == multiset(Words(source))
      && currentQuestionIndex == 0 && !showAnswer && !quizFinished
      && selectedAnswer.None? && isCorrect.None?
      && detailedScore == 0 && combo == 0 && maxCombo == 0 && answers == []
    }

    method StartQuiz(mode: Mode, source: Source) returns (r: Outcome<QuizError>)
      requires Valid()
      modifies this
      ensures Valid()
      ensures r == StartCheck(mode, source, Words(source))
      ensures r.Pass? ==> FreshSession(mode, source)
      ensures r.Fail? ==> unchanged(this)
    {
      var selectedWords := Words(source);
      r := StartCheck(mode, source, selectedWords);
      if r.Fail? {
        return;
      }
      var shuffled := Shuffle(selectedWords);
      wordSource, quizMode, quizWords := source, mode, shuffled;
      currentQuestionIndex, showAnswer, quizFinished := 0, false, false;
      selectedAnswer, isCorrect := None, None;
      detailedScore, combo, maxCombo, answers := 0, 0, 0, [];
    }

    /** The updates `handleAnswer` makes for a judged multiple-choice answer:
        the answer and its verdict are recorded and the scoring fields take
        one step. */
    method RecordAnswer(answer: string, correct: bool)
      requires Valid()
      modifies this
      ensures Valid()
      ensures wordSource == old(wordSource)
      ensures var t := Step(old(Tally(detailedScore, combo, maxCombo)), correct);
              State() == old(State()).(
                selectedAnswer := Some(answer), isCorrect := Some(correct),
                score := t.score, combo := t.combo, maxCombo := t.maxCombo,
                answers := old(answers) + [correct])
    {
      var t := Step(Tally(detailedScore, combo, maxCombo), correct);
      ReplaySnoc(answers, correct);
      selectedAnswer, isCorrect := Some(answer), Some(correct);
      detailedScore, combo, maxCombo := t.score, t.combo, t.maxCombo;
      answers := answers + [correct];
    }

    /** `handleAnswer`: in multiple choice the answer is judged against the
        current word's meaning and recorded; in flashcard mode the answer is
        only revealed. The best combo never decreases. */
    method HandleAnswer(answer: string)
      requires Valid()
      modifies this
      ensures Valid()
      ensures wordSource == old(wordSource)
      ensures maxCombo >= old(maxCombo)
      ensures old(quizMode) == MultipleChoice ==>
                var correct := answer == old(CurrentQuestion()).meaning;
                var t := Step(old(Tally(detailedScore, combo, maxCombo)), correct);
                State() == old(State()).(
                  selectedAnswer := Some(answer), isCorrect := Some(correct),
                  score := t.score, combo := t.combo, maxCombo := t.maxCombo,
                  answers := old(answers) + [correct])
      ensures old(quizMode) != MultipleChoice ==> State() == old(State()).(showAnswer := true)
    {
      if quizMode == MultipleChoice {
        var correct := answer == CurrentQuestion().meaning;
        RecordAnswer(answer, correct);
      } else {
        showAnswer := true;
      }
    }

    method NextQuestion()
      requires Valid()
      modifies this
      ensures Valid()
      ensures !showAnswer && selectedAnswer.None? && isCorrect.None?
      ensures old(currentQuestionIndex) < |quizWords| - 1 ==>
                currentQuestionIndex == old(currentQuestionIndex) + 1 && quizFinished == old(quizFinished)
      ensures old(currentQuestionIndex) >= |quizWords| - 1 ==>
                currentQuestionIndex == old(currentQuestionIndex) && quizFinished
      ensures |quizWords| > 0 ==> currentQuestionIndex < |quizWords|
      ensures |quizWords| > 0 ==>
                ProgressFraction(old(currentQuestionIndex), |quizWords|)
                <= ProgressFraction(currentQuestionIndex, |quizWords|)
      ensures quizWords == old(quizWords) && quizMode == old(quizMode) && wordSource == old(wordSource)
      ensures detailedScore == old(detailedScore) && combo == old(combo) && maxCombo == old(maxCombo)
      ensures answers == old(answers)
    {
      showAnswer := false;
      selectedAnswer := None;
      isCorrect := None;
      if currentQuestionIndex < |quizWords| - 1 {
        currentQuestionIndex := currentQuestionIndex + 1;
      } else {
        quizFinished := true;
      }
      if |quizWords| > 0 {
        ProgressMonotone(old(currentQuestionIndex), currentQuestionIndex, |quizWords|);
      }
    }

    /** `restartQuiz`: `startQuiz` with the session's own mode and source. */
    method RestartQuiz() returns (r: Outcome<QuizError>)
      requires Valid()
      modifies this
      ensures Valid()
      ensures r == StartCheck(old(quizMode), old(wordSource), Words(old(wordSource)))
      ensures r.Pass? ==> FreshSession(old(quizMode), old(wordSource))
      ensures r.Fail? ==> unchanged(this)
    {
      r := StartQuiz(quizMode, wordSource);
    }

    /** `switchWordSource`: the source is recorded first; a running session
        (non-empty quiz list) is then restarted from the new source. */
    method SwitchWordSource(source: Source) returns (r: Outcome<QuizError>)
      requires Valid()
      modifies this
      ensures Valid()
      ensures wordSource == source
      ensures old(|quizWords|) == 0 ==> r == Pass && State() == old(State())
      ensures old(|quizWords|) > 0 ==> r == StartCheck(old(quizMode), source, Words(source))
      ensures old(|quizWords|) > 0 && r.Pass? ==> FreshSession(old(quizMode), source)
      ensures r.Fail? ==> State() == old(State())
    {
      wordSource := source;
      r := Pass;
      if |quizWords| > 0 {
        r := StartQuiz(quizMode, source);
      }
    }

    method SetQuizMode(mode: Mode)
      requires Valid()
      modifies this
      ensures Valid()
      ensures quizMode == mode
      ensures State() == old(State()).(mode := mode) && wordSource == old(wordSource)
    {
      quizMode := mode;
    }

    method SetShowAnswer(show: bool)
      requires Valid()
      modifies this
      ensures Valid()
      ensures State() == old(State()).(showAnswer := show) && wordSource == old(wordSource)
    {
      showAnswer := show;
    }

    /** The meanings `getMultipleChoiceOptions` may draw distractors from:
        those of the quiz words whose id differs from the current one. */
    function DistractorPool(): seq<string>
      reads this
    {
      Meanings(WithoutId(quizWords, CurrentQuestion().id))
    }

    /** `getMultipleChoiceOptions`. */
    method MultipleChoiceOptions() returns (options: seq<string>)
      ensures |quizWords| < MinChoiceWords ==> options == [CurrentQuestion().meaning]
      ensures |quizWords| >= MinChoiceWords ==>
                && CurrentQuestion().meaning in options
                && |options| == 1 + Min(3, |DistractorPool()|)
                && multiset(options) <= multiset{CurrentQuestion().meaning} + multiset(DistractorPool())
      ensures Valid() && UniqueIds(quizWords) && |quizWords| >= MinChoiceWords ==> |options| == 4
    {
      var current := CurrentQuestion();
      if |quizWords| < MinChoiceWords {
        return [current.meaning];
      }
      var correctAnswer := current.meaning;
      var pool := Meanings(WithoutId(quizWords, current.id));
      var shuffled := Shuffle(pool);
      var otherMeanings := shuffled[..Min(3, |shuffled|)];
      assert shuffled == otherMeanings + shuffled[Min(3, |shuffled|)..];
      options := Shuffle([correctAnswer] + otherMeanings);
      assert correctAnswer in multiset(options);
      if Valid() && UniqueIds(quizWords) {
        WithoutUniqueId(quizWords, currentQuestionIndex);
      }
    }
  }

  /** In every valid session the score is never negative and the best combo
      is never below the current combo, which is never negative. */
  lemma ScoringInvariants(q: QuizSession)
    requires q.Valid()
    ensures q.detailedScore >= 0
    ensures 0 <= q.combo <= q.maxCombo
  {
    ScoreBounds(q.answers);
    ComboIsTrailingStreak(q.answers);
    MaxComboIsLongestStreak(q.answers);
  }

  /** The five-question example session, driven through the handlers: the
      answers correct, wrong, correct, correct, wrong end with score 20, best
      combo 2 and the session finished. */
  method ExampleSession(words: seq<Word>) returns (score: int, best: int, finished: bool)
    requires |words| == 5
    ensures score == 20 && best == 2 && finished
  {
    var quiz := new QuizSession(words, []);
    var started := quiz.StartQuiz(MultipleChoice, User);
    assert started == Pass;
    quiz.HandleAnswer(quiz.CurrentQuestion().meaning);
    quiz.NextQuestion();
    quiz.HandleAnswer(quiz.CurrentQuestion().meaning + "?");
    quiz.NextQuestion();
    quiz.HandleAnswer(quiz.CurrentQuestion().meaning);
    quiz.NextQuestion();
    quiz.HandleAnswer(quiz.CurrentQuestion().meaning);
    quiz.NextQuestion();
    quiz.HandleAnswer(quiz.CurrentQuestion().meaning + "?");
    quiz.NextQuestion();
    ExampleTally();
    score, best, finished := quiz.detailedScore, quiz.maxCombo, quiz.quizFinished;
  }
}
