/** The mental-health questionnaire of `MentalHealthAssessment`: a battery
    of questions, each option weighted by severity, scored as an inverted
    percentage (higher is better), banded into five interpretations and
    broken down per category.

    The scoring operations read the battery as their `questions` parameter
    (the `this.questions` the constructor fills); `Questions()` is the
    battery the constructor builds, and the lemmas at the end of the module
    state what the operations give for it. */
module Assessment {
  import opened Basics

  datatype Category = Mood | Anxiety | Stress | Sleep | Social | Energy | Coping | Overall

  /** One question: its id, its category and the weights of its options in
      display order (the `value` of each `{ text, value }` option). The
      option texts are in `OptionLabels`; the question wording is display
      text and is not modelled. */
  datatype Question = Question(id: int, category: Category, options: seq<int>)

  /** The category of the question at index `j` of the constructor's battery. */
  function CategoryAt(j: int): Category
  {
    match j
    case 0 => Mood
    case 1 => Mood
    case 2 => Anxiety
    case 3 => Anxiety
    case 4 => Stress
    case 5 => Sleep
    case 6 => Social
    case 7 => Energy
    case 8 => Coping
    case _ => Overall
  }

  /** The constructor's ten questions: ids 1 to 10; the first four are
      frequency questions weighted 0 to 3, the other six are five-point
      scales weighted 0 to 4. */
  function Questions(): (qs: seq<Question>)
    ensures |qs| == 10
  {
    seq(10, j => Question(j + 1, CategoryAt(j), if j < 4 then [0, 1, 2, 3] else [0, 1, 2, 3, 4]))
  }

  /** The option texts of question `id`, in the order of its weights
      (display only). */
  function OptionLabels(id: int): seq<string>
  {
    match id
    case 1 => ["Not at all", "Several days", "More than half the days", "Nearly every day"]
    case 2 => ["Not at all", "Several days", "More than half the days", "Nearly every day"]
    case 3 => ["Not at all", "Several days", "More than half the days", "Nearly every day"]
    case 4 => ["Not at all", "Several days", "More than half the days", "Nearly every day"]
    case 5 => ["Very low", "Low", "Moderate", "High", "Very high"]
    case 6 => ["Excellent", "Good", "Fair", "Poor", "Very poor"]
    case 7 => ["Very connected", "Somewhat connected", "Neutral", "Somewhat isolated", "Very isolated"]
    case 8 => ["Very high", "High", "Moderate", "Low", "Very low"]
    case 9 => ["Very well", "Well", "Okay", "Poorly", "Very poorly"]
    case 10 => ["Very satisfied", "Satisfied", "Neutral", "Dissatisfied", "Very dissatisfied"]
    case _ => []
  }

  /** Every option of the constructor's battery has a text. */
  lemma OptionsLabelled(j: nat)
    requires j < |Questions()|
    ensures |OptionLabels(Questions()[j].id)| == |Questions()[j].options|
  {
  }

  /** `Math.max(...options)` (`MaxValueSpec`). */
  function MaxValue(options: seq<int>): int
    requires |options| > 0
  {
    if |options| == 1 then options[0]
    else
      var rest := MaxValue(options[..|options| - 1]);
      var last := options[|options| - 1];
      if last > rest then last else rest
  }

  /** `MaxValue` is an upper bound of the options and one of them. */
  lemma {:induction false} MaxValueSpec(options: seq<int>)
    requires |options| > 0
    ensures forall i :: 0 <= i < |options| ==> options[i] <= MaxValue(options)
    ensures MaxValue(options) in options
  {
    if |options| > 1 {
      var init := options[..|options| - 1];
      MaxValueSpec(init);
      assert forall i :: 0 <= i < |init| ==> options[i] == init[i];
    }
  }

  /** A battery the scorer can divide by: at least one question, and every
      question has options, none weighted below 0, the heaviest above 0. */
  predicate Battery(questions: seq<Question>)
  {
    |questions| > 0 &&
    forall j :: 0 <= j < |questions| ==> WellWeighted(questions[j].options)
  }

  predicate WellWeighted(options: seq<int>)
  {
    |options| > 0 && MaxValue(options) > 0 && forall i :: 0 <= i < |options| ==> options[i] >= 0
  }

  /** The heaviest weight of question `j`. */
  function QuestionMax(questions: seq<Question>, j: nat): (m: int)
    requires Battery(questions) && j < |questions|
    ensures m > 0
  {
    MaxValue(questions[j].options)
  }

  /** `answers.reduce((sum, answer) => sum + answer.value, 0)`. */
  function Sum(s: seq<int>): int
  {
    if s == [] then 0 else Sum(s[..|s| - 1]) + s[|s| - 1]
  }

  /** The summed heaviest weights of the first `k` questions. */
  function SumOfMax(questions: seq<Question>, k: nat): (m: int)
    requires Battery(questions) && k <= |questions|
    ensures k > 0 ==> m > 0
  {
    if k == 0 then 0 else SumOfMax(questions, k - 1) + QuestionMax(questions, k - 1)
  }

  /** `maxPossibleScore`: what the answers sum to when every question is
      answered with its heaviest option. */
  function MaxPossibleScore(questions: seq<Question>): (m: int)
    requires Battery(questions)
    ensures m > 0
  {
    SumOfMax(questions, |questions|)
  }

  // ---------------------------------------------------------------------
  // Interpretation bands

  const Excellent: string := "Excellent mental health"
  const Good: string := "Good mental health"
  const Fair: string := "Fair mental health - consider some improvements"
  const Poor: string := "Poor mental health - seek support"
  const VeryPoor: string := "Very poor mental health - please seek professional help"

  /** `getInterpretation`: a descending chain of `>=` tests. */
  function Interpretation(percentage: int): (r: string)
    ensures r in [Excellent, Good, Fair, Poor, VeryPoor]
    ensures r == Excellent <==> percentage >= 80
    ensures r == Good <==> 60 <= percentage < 80
    ensures r == Fair <==> 40 <= percentage < 60
    ensures r == Poor <==> 20 <= percentage < 40
    ensures r == VeryPoor <==> percentage < 20
  {
    if percentage >= 80 then Excellent
    else if percentage >= 60 then Good
    else if percentage >= 40 then Fair
    else if percentage >= 20 then Poor
    else VeryPoor
  }

  // ---------------------------------------------------------------------
  // Category breakdown

  /** The categories of the first `k` questions in order of first
      appearance: the key order of the object `calculateCategoryScores`
      fills (string keys keep insertion order). */
  function CategoryOrder(questions: seq<Question>, k: nat): seq<Category>
    requires k <= |questions|
  {
    if k == 0 then []
    else
      var order := CategoryOrder(questions, k - 1);
      var c := questions[k - 1].category;
      if c in order then order else order + [c]
  }

  /** Each category of the first `k` questions appears in the order exactly
      once, and nothing else does. */
  lemma {:induction false} CategoryOrderSpec(questions: seq<Question>, k: nat)
    requires k <= |questions|
    ensures forall c :: c in CategoryOrder(questions, k) <==> exists j :: 0 <= j < k && questions[j].category == c
    ensures forall a, b :: 0 <= a < b < |CategoryOrder(questions, k)| ==>
      CategoryOrder(questions, k)[a] != CategoryOrder(questions, k)[b]
  {
    if k > 0 {
      CategoryOrderSpec(questions, k - 1);
      var order := CategoryOrder(questions, k - 1);
      forall c | c in CategoryOrder(questions, k) ensures exists j :: 0 <= j < k && questions[j].category == c {
        if c !in order {
          assert questions[k - 1].category == c;
        }
      }
    }
  }

  /** The summed answers of the first `k` questions that belong to `c`. */
  function CategoryTotal(questions: seq<Question>, answers: seq<int>, c: Category, k: nat): int
    requires k <= |questions| && k <= |answers|
  {
    if k == 0 then 0
    else CategoryTotal(questions, answers, c, k - 1) + (if questions[k - 1].category == c then answers[k - 1] else 0)
  }

  /** The summed heaviest weights of the first `k` questions that belong to `c`. */
  function CategoryMax(questions: seq<Question>, c: Category, k: nat): (m: int)
    requires Battery(questions) && k <= |questions|
    ensures m >= 0
  {
    if k == 0 then 0
    else CategoryMax(questions, c, k - 1) + (if questions[k - 1].category == c then QuestionMax(questions, k - 1) else 0)
  }

  /** How many of the first `k` questions belong to `c`. */
  function CategoryCount(questions: seq<Question>, c: Category, k: nat): nat
    requires k <= |questions|
  {
    if k == 0 then 0
    else CategoryCount(questions, c, k - 1) + (if questions[k - 1].category == c then 1 else 0)
  }

  /** A category that some question belongs to has a positive maximum, so
      its percentage is defined. */
  lemma {:induction false} CategoryMaxPositive(questions: seq<Question>, c: Category, k: nat)
    requires Battery(questions) && k <= |questions|
    requires c in CategoryOrder(questions, k)
    ensures CategoryMax(questions, c, k) > 0
  {
    var order := CategoryOrder(questions, k - 1);
    if c in order {
      CategoryMaxPositive(questions, c, k - 1);
    }
  }

  datatype CategoryScore = CategoryScore(category: Category, total: int, max: int, count: nat, percentage: int)

  /** The entry for category `c` once every question has been seen. */
  function CategoryScoreOf(questions: seq<Question>, answers: seq<int>, c: Category): CategoryScore
    requires Battery(questions) && |answers| >= |questions|
    requires c in CategoryOrder(questions, |questions|)
  {
    CategoryMaxPositive(questions, c, |questions|);
    var total := CategoryTotal(questions, answers, c, |questions|);
    var max := CategoryMax(questions, c, |questions|);
    CategoryScore(c, total, max, CategoryCount(questions, c, |questions|), Percentage(total, max))
  }

  /** What `calculateCategoryScores` returns: one entry per category, in
      first-appearance order. */
  function CategoryScoresOf(questions: seq<Question>, answers: seq<int>): seq<CategoryScore>
    requires Battery(questions) && |answers| >= |questions|
  {
    var order := CategoryOrder(questions, |questions|);
    seq(|order|, i requires 0 <= i < |order| => CategoryScoreOf(questions, answers, order[i]))
  }

  /** Every question's category is a key of the breakdown. */
  lemma {:induction false} OrderCovers(questions: seq<Question>, j: nat)
    requires j < |questions|
    ensures exists i :: 0 <= i < |CategoryOrder(questions, |questions|)| && CategoryOrder(questions, |questions|)[i] == questions[j].category
  {
    CategoryOrderSpec(questions, |questions|);
    var order := CategoryOrder(questions, |questions|);
    assert questions[j].category in order;
  }

  /** No key of the breakdown repeats. */
  lemma OrderDistinct(questions: seq<Question>)
    ensures var order := CategoryOrder(questions, |questions|);
      forall a, b :: 0 <= a < b < |order| ==> order[a] != order[b]
  {
    CategoryOrderSpec(questions, |questions|);
  }

  /** Every key of the breakdown is some question's category. */
  lemma {:induction false} OrderFromQuestions(questions: seq<Question>, i: nat)
    requires i < |CategoryOrder(questions, |questions|)|
    ensures exists j :: 0 <= j < |questions| && questions[j].category == CategoryOrder(questions, |questions|)[i]
  {
    CategoryOrderSpec(questions, |questions|);
    var order := CategoryOrder(questions, |questions|);
    assert order[i] in order;
  }

  /** The breakdown's entries follow the key order. */
  lemma CategoryScoresKeys(questions: seq<Question>, answers: seq<int>)
    requires Battery(questions) && |answers| >= |questions|
    ensures var r := CategoryScoresOf(questions, answers);
      && |r| == |CategoryOrder(questions, |questions|)|
      && forall i :: 0 <= i < |r| ==> r[i].category == CategoryOrder(questions, |questions|)[i]
  {
    var r := CategoryScoresOf(questions, answers);
    var order := CategoryOrder(questions, |questions|);
    forall i | 0 <= i < |r| ensures r[i].category == order[i] {
    }
  }

  /** The breakdown `calculateCategoryScores` returns, described without
      its key order: one entry per category that some question has, and no
      category twice. */
  lemma CategoryScoresCover(questions: seq<Question>, answers: seq<int>)
    requires Battery(questions) && |answers| >= |questions|
    ensures var r := CategoryScoresOf(questions, answers);
      && (forall a, b :: 0 <= a < b < |r| ==> r[a].category != r[b].category)
      && (forall j :: 0 <= j < |questions| ==> exists i :: 0 <= i < |r| && r[i].category == questions[j].category)
      && (forall i :: 0 <= i < |r| ==> exists j :: 0 <= j < |questions| && questions[j].category == r[i].category)
  {
    var r := CategoryScoresOf(questions, answers);
    CategoryScoresKeys(questions, answers);
    OrderDistinct(questions);
    assert forall a, b :: 0 <= a < b < |r| ==> r[a].category != r[b].category;
    EveryCategoryScored(questions, answers);
    OnlyAskedCategoriesScored(questions, answers);
  }

  lemma EveryCategoryScored(questions: seq<Question>, answers: seq<int>)
    requires Battery(questions) && |answers| >= |questions|
    ensures var r := CategoryScoresOf(questions, answers);
      forall j :: 0 <= j < |questions| ==> exists i :: 0 <= i < |r| && r[i].category == questions[j].category
  {
    var r := CategoryScoresOf(questions, answers);
    CategoryScoresKeys(questions, answers);
    forall j | 0 <= j < |questions| ensures exists i :: 0 <= i < |r| && r[i].category == questions[j].category {
      OrderCovers(questions, j);
    }
  }

  lemma OnlyAskedCategoriesScored(questions: seq<Question>, answers: seq<int>)
    requires Battery(questions) && |answers| >= |questions|
    ensures var r := CategoryScoresOf(questions, answers);
      forall i :: 0 <= i < |r| ==> exists j :: 0 <= j < |questions| && questions[j].category == r[i].category
  {
    var r := CategoryScoresOf(questions, answers);
    CategoryScoresKeys(questions, answers);
    forall i | 0 <= i < |r| ensures exists j :: 0 <= j < |questions| && questions[j].category == r[i].category {
      OrderFromQuestions(questions, i);
    }
  }

  /** Each entry of the breakdown holds its category's total, maximum and
      count, and the rounded inverted percentage of the total. */
  lemma CategoryScoresEntries(questions: seq<Question>, answers: seq<int>)
    requires Battery(questions) && |answers| >= |questions|
    ensures var r := CategoryScoresOf(questions, answers);
      forall i :: 0 <= i < |r| ==>
        && r[i].total == CategoryTotal(questions, answers, r[i].category, |questions|)
        && r[i].max == CategoryMax(questions, r[i].category, |questions|)
        && r[i].count == CategoryCount(questions, r[i].category, |questions|)
        && r[i].max > 0
        && 2 * r[i].max * r[i].percentage <= 200 * (r[i].max - r[i].total) + r[i].max < 2 * r[i].max * r[i].percentage + 2 * r[i].max
  {
    var r := CategoryScoresOf(questions, answers);
    var order := CategoryOrder(questions, |questions|);
    forall i | 0 <= i < |r|
      ensures r[i].category == order[i] && r[i].max > 0
    {
      CategoryMaxPositive(questions, order[i], |questions|);
    }
  }

  datatype ScoreError = MissingAnswer(index: nat)

  datatype Tally = Tally(total: int, max: int, count: nat)

  /** The tallies after the first `k` questions: the object the first loop
      of `calculateCategoryScores` builds. */
  function Tallies(questions: seq<Question>, answers: seq<int>, k: nat): map<Category, Tally>
    requires Battery(questions) && k <= |questions| && k <= |answers|
  {
    if k == 0 then map[]
    else
      var m := Tallies(questions, answers, k - 1);
      var c := questions[k - 1].category;
      var t := if c in m then m[c] else Tally(0, 0, 0);
      m[c := Tally(t.total + answers[k - 1], t.max + QuestionMax(questions, k - 1), t.count + 1)]
  }

  /** The tallies hold exactly the categories seen so far, each with its
      summed answers, summed maxima and question count. */
  lemma {:induction false} TalliesSpec(questions: seq<Question>, answers: seq<int>, k: nat)
    requires Battery(questions) && k <= |questions| && k <= |answers|
    ensures forall c :: c in Tallies(questions, answers, k) <==> c in CategoryOrder(questions, k)
    ensures forall c :: c in Tallies(questions, answers, k) ==>
      Tallies(questions, answers, k)[c]
        == Tally(CategoryTotal(questions, answers, c, k), CategoryMax(questions, c, k), CategoryCount(questions, c, k))
  {
    if k > 0 {
      var n := k - 1;
      TalliesSpec(questions, answers, n);
      CategoryOrderSpec(questions, n);
      var c := questions[n].category;
      if c !in CategoryOrder(questions, n) {
        CategoryUnseen(questions, answers, c, n);
      }
    }
  }

  /** A category none of the first `k` questions belongs to has nothing
      tallied. */
  lemma {:induction false} CategoryUnseen(questions: seq<Question>, answers: seq<int>, c: Category, k: nat)
    requires Battery(questions) && k <= |questions| && k <= |answers|
    requires forall j :: 0 <= j < k ==> questions[j].category != c
    ensures CategoryTotal(questions, answers, c, k) == 0
    ensures CategoryMax(questions, c, k) == 0
    ensures CategoryCount(questions, c, k) == 0
  {
    if k > 0 {
      CategoryUnseen(questions, answers, c, k - 1);
    }
  }

  /** `calculateCategoryScores`: a first loop accumulates a tally per
      category (creating it on first sight), a second fills in each tally's
      percentage, in key order. With fewer answers than questions the source
      fails reading the missing answer's value; that is the error result. */
  method CalculateCategoryScores(questions: seq<Question>, answers: seq<int>)
    returns (r: Result<seq<CategoryScore>, ScoreError>)
    requires Battery(questions)
    ensures r.Failure? <==> |answers| < |questions|
    ensures r.Failure? ==> r.error == MissingAnswer(|answers|)
    ensures r.Success? ==> r.value == CategoryScoresOf(questions, answers)
  {
    var keys: seq<Category> := [];
    var categories: map<Category, Tally> := map[];
    var index := 0;
    while index < |questions|
      invariant 0 <= index <= |questions| && index <= |answers|
      invariant keys == CategoryOrder(questions, index)
      invariant categories == Tallies(questions, answers, index)
      invariant forall c :: c in categories <==> c in keys
    {
      if index == |answers| {
        return Failure(MissingAnswer(index));
      }
      var category := questions[index].category;
      var t := Tally(0, 0, 0);
      if category in categories {
        t := categories[category];
      } else {
        keys := keys + [category];
      }
      categories := categories[category := Tally(t.total + answers[index], t.max + QuestionMax(questions, index), t.count + 1)];
      index := index + 1;
    }
    TalliesSpec(questions, answers, |questions|);
    var scores := FillPercentages(questions, answers, keys, categories);
    return Success(scores);
  }

  /** The second loop of `calculateCategoryScores`: each tally, in key
      order, with its percentage filled in. */
  method FillPercentages(questions: seq<Question>, answers: seq<int>, keys: seq<Category>, categories: map<Category, Tally>)
    returns (scores: seq<CategoryScore>)
    requires Battery(questions) && |answers| >= |questions|
    requires keys == CategoryOrder(questions, |questions|)
    requires forall c :: c in categories <==> c in keys
    requires forall c :: c in categories ==>
      categories[c] == Tally(CategoryTotal(questions, answers, c, |questions|),
                             CategoryMax(questions, c, |questions|),
                             CategoryCount(questions, c, |questions|))
    ensures scores == CategoryScoresOf(questions, answers)
  {
    scores := [];
    var i := 0;
    while i < |keys|
      invariant 0 <= i <= |keys|
      invariant |scores| == i
      invariant forall m :: 0 <= m < i ==> scores[m] == CategoryScoreOf(questions, answers, keys[m])
    {
      var c := keys[i];
      var cat := categories[c];
      CategoryMaxPositive(questions, c, |questions|);
      scores := scores + [CategoryScore(c, cat.total, cat.max, cat.count, Percentage(cat.total, cat.max))];
      i := i + 1;
    }
  }

  // ---------------------------------------------------------------------
  // The whole score

  datatype ScoreResult = ScoreResult(
    score: int,
    totalScore: int,
    maxPossibleScore: int,
    interpretation: string,
    categoryScores: seq<CategoryScore>)

  /** `calculateScore`. Every answer counts towards `totalScore`, but the
      category breakdown reads exactly one answer per question, so fewer
      answers than questions is an error. The score is the inverted
      percentage `Math.round((1 - totalScore / maxPossibleScore) * 100)`:
      the nearest integer, halves rounding up. */
  function CalculateScore(questions: seq<Question>, answers: seq<int>): (r: Result<ScoreResult, ScoreError>)
    requires Battery(questions)
    ensures r.Failure? <==> |answers| < |questions|
    ensures r.Failure? ==> r.error == MissingAnswer(|answers|)
    ensures r.Success? ==>
      var v := r.value;
      && v.totalScore == Sum(answers)
      && v.maxPossibleScore == MaxPossibleScore(questions)
      && v.maxPossibleScore > 0
      && 2 * v.maxPossibleScore * v.score <= 200 * (v.maxPossibleScore - v.totalScore) + v.maxPossibleScore
      && 200 * (v.maxPossibleScore - v.totalScore) + v.maxPossibleScore < 2 * v.maxPossibleScore * v.score + 2 * v.maxPossibleScore
      && v.interpretation == Interpretation(v.score)
      && v.categoryScores == CategoryScoresOf(questions, answers)
      && |v.categoryScores| == |CategoryOrder(questions, |questions|)|
    ensures ValidAnswers(questions, answers) ==>
      && r.Success?
      && 0 <= r.value.totalScore <= r.value.maxPossibleScore
      && 0 <= r.value.score <= 100
  {
    if |answers| < |questions| then Failure(MissingAnswer(|answers|))
    else
      var total := Sum(answers);
      var max := MaxPossibleScore(questions);
      var percentage := Percentage(total, max);
      ValidScoreBounds(questions, answers);
      Success(ScoreResult(percentage, total, max, Interpretation(percentage), CategoryScoresOf(questions, answers)))
  }

  /** One answer per question, each one of its question's option weights. */
  predicate ValidAnswers(questions: seq<Question>, answers: seq<int>)
  {
    |answers| == |questions| &&
    forall j :: 0 <= j < |questions| ==> answers[j] in questions[j].options
  }

  lemma WholePrefix(s: seq<int>)
    ensures s[..|s|] == s
  {
  }

  lemma {:induction false} SumWithinMax(questions: seq<Question>, answers: seq<int>, k: nat)
    requires Battery(questions) && ValidAnswers(questions, answers) && k <= |questions|
    ensures 0 <= Sum(answers[..k]) <= SumOfMax(questions, k)
  {
    if k > 0 {
      SumWithinMax(questions, answers, k - 1);
      assert answers[..k][..k - 1] == answers[..k - 1];
      assert WellWeighted(questions[k - 1].options);
      MaxValueSpec(questions[k - 1].options);
      assert 0 <= answers[k - 1] <= QuestionMax(questions, k - 1);
    }
  }

  /** For answers drawn from the options, the total lies between nothing
      and the maximum, so the score is a percentage. */
  lemma ValidScoreBounds(questions: seq<Question>, answers: seq<int>)
    requires Battery(questions)
    ensures ValidAnswers(questions, answers) ==>
      && 0 <= Sum(answers) <= MaxPossibleScore(questions)
      && 0 <= Percentage(Sum(answers), MaxPossibleScore(questions)) <= 100
  {
    if ValidAnswers(questions, answers) {
      SumWithinMax(questions, answers, |questions|);
      WholePrefix(answers);
      PercentageBounds(Sum(answers), MaxPossibleScore(questions));
    }
  }

  lemma {:induction false} SumOfZeros(s: seq<int>)
    requires forall j :: 0 <= j < |s| ==> s[j] == 0
    ensures Sum(s) == 0
  {
    if s != [] { SumOfZeros(s[..|s| - 1]); }
  }

  /** Answering the mildest option (weight 0) everywhere scores 100. */
  lemma AllMildestScoresHundred(questions: seq<Question>, answers: seq<int>)
    requires Battery(questions) && |answers| == |questions|
    requires forall j :: 0 <= j < |answers| ==> answers[j] == 0
    ensures CalculateScore(questions, answers).Success?
    ensures CalculateScore(questions, answers).value.score == 100
    ensures CalculateScore(questions, answers).value.interpretation == Excellent
  {
    SumOfZeros(answers);
    PercentageBounds(0, MaxPossibleScore(questions));
  }

  lemma {:induction false} SumOfMaxima(questions: seq<Question>, answers: seq<int>, k: nat)
    requires Battery(questions) && |answers| == |questions| && k <= |questions|
    requires forall j :: 0 <= j < |questions| ==> answers[j] == QuestionMax(questions, j)
    ensures Sum(answers[..k]) == SumOfMax(questions, k)
  {
    if k > 0 {
      SumOfMaxima(questions, answers, k - 1);
      assert answers[..k][..k - 1] == answers[..k - 1];
    }
  }

  /** Answering the most severe option everywhere scores 0. */
  lemma AllSeverestScoresZero(questions: seq<Question>, answers: seq<int>)
    requires Battery(questions) && |answers| == |questions|
    requires forall j :: 0 <= j < |questions| ==> answers[j] == QuestionMax(questions, j)
    ensures CalculateScore(questions, answers).Success?
    ensures CalculateScore(questions, answers).value.score == 0
    ensures CalculateScore(questions, answers).value.interpretation == VeryPoor
  {
    SumOfMaxima(questions, answers, |questions|);
    WholePrefix(answers);
    PercentageBounds(MaxPossibleScore(questions), MaxPossibleScore(questions));
  }

  lemma {:induction false} CategoryTotalWithin(questions: seq<Question>, answers: seq<int>, c: Category, k: nat)
    requires Battery(questions) && ValidAnswers(questions, answers) && k <= |questions|
    ensures 0 <= CategoryTotal(questions, answers, c, k) <= CategoryMax(questions, c, k)
  {
    if k > 0 {
      CategoryTotalWithin(questions, answers, c, k - 1);
      assert WellWeighted(questions[k - 1].options);
      MaxValueSpec(questions[k - 1].options);
      assert 0 <= answers[k - 1] <= QuestionMax(questions, k - 1);
    }
  }

  /** For answers drawn from the options every category entry is a
      percentage. */
  lemma CategoryPercentagesInRange(questions: seq<Question>, answers: seq<int>)
    requires Battery(questions) && ValidAnswers(questions, answers)
    ensures forall i :: 0 <= i < |CategoryScoresOf(questions, answers)| ==>
      0 <= CategoryScoresOf(questions, answers)[i].percentage <= 100
  {
    var r := CategoryScoresOf(questions, answers);
    forall i | 0 <= i < |r| ensures 0 <= r[i].percentage <= 100 {
      var order := CategoryOrder(questions, |questions|);
      CategoryTotalWithin(questions, answers, order[i], |questions|);
      CategoryMaxPositive(questions, order[i], |questions|);
      PercentageBounds(r[i].total, r[i].max);
    }
  }

  // ---------------------------------------------------------------------
  // The constructor's battery

  /** Every option weighs its position, so the heaviest is the last. */
  lemma ScaleMax(options: seq<int>)
    requires |options| > 0
    requires forall i :: 0 <= i < |options| ==> options[i] == i
    ensures MaxValue(options) == |options| - 1
  {
    MaxValueSpec(options);
    assert options[|options| - 1] == |options| - 1;
  }

  /** The constructor's battery is well formed: the first four questions
      weigh at most 3, the other six at most 4. */
  lemma TableWeights()
    ensures Battery(Questions())
    ensures forall j :: 0 <= j < 10 ==> QuestionMax(Questions(), j) == if j < 4 then 3 else 4
  {
    var qs := Questions();
    forall j | 0 <= j < 10
      ensures WellWeighted(qs[j].options) && MaxValue(qs[j].options) == if j < 4 then 3 else 4
    {
      ScaleMax(qs[j].options);
    }
  }

  /** `maxPossibleScore` is 36 for the constructor's battery. */
  lemma MaxPossibleScoreIs36()
    ensures Battery(Questions())
    ensures MaxPossibleScore(Questions()) == 36
  {
    TableWeights();
    var qs := Questions();
    assert SumOfMax(qs, 4) == 12;
    assert SumOfMax(qs, 7) == 24;
  }

  /** The four frequency questions cover mood, then anxiety. */
  lemma FrequencyCategoryOrder()
    ensures CategoryOrder(Questions(), 4) == [Mood, Anxiety]
  {
    var qs := Questions();
    assert CategoryOrder(qs, 1) == [Mood];
    assert CategoryOrder(qs, 2) == [Mood];
    assert CategoryOrder(qs, 3) == [Mood, Anxiety];
  }

  /** The constructor's battery has exactly eight categories, in this order. */
  lemma CategoryOrderTable()
    ensures CategoryOrder(Questions(), 10) == [Mood, Anxiety, Stress, Sleep, Social, Energy, Coping, Overall]
  {
    var qs := Questions();
    FrequencyCategoryOrder();
    assert CategoryOrder(qs, 5) == [Mood, Anxiety, Stress];
    assert CategoryOrder(qs, 6) == [Mood, Anxiety, Stress, Sleep];
    assert CategoryOrder(qs, 7) == [Mood, Anxiety, Stress, Sleep, Social];
    assert CategoryOrder(qs, 8) == [Mood, Anxiety, Stress, Sleep, Social, Energy];
    assert CategoryOrder(qs, 9) == [Mood, Anxiety, Stress, Sleep, Social, Energy, Coping];
  }

  /** Mood and anxiety hold two questions each, the other categories one. */
  lemma CategoryCountTable(c: Category)
    ensures CategoryCount(Questions(), c, 10) == if c == Mood || c == Anxiety then 2 else 1
  {
    var qs := Questions();
    assert CategoryCount(qs, c, 4) == if c == Mood || c == Anxiety then 2 else 0;
    assert CategoryCount(qs, c, 7) == if c == Mood || c == Anxiety then 2 else if c in {Stress, Sleep, Social} then 1 else 0;
  }

  /** Mood and anxiety have a maximum of 6, the other categories 4. */
  lemma CategoryMaxTable(c: Category)
    ensures Battery(Questions())
    ensures CategoryMax(Questions(), c, 10) == if c == Mood || c == Anxiety then 6 else 4
  {
    TableWeights();
    var qs := Questions();
    assert CategoryMax(qs, c, 4) == if c == Mood || c == Anxiety then 6 else 0;
    assert CategoryMax(qs, c, 7) == if c == Mood || c == Anxiety then 6 else if c in {Stress, Sleep, Social} then 4 else 0;
  }

  /** The breakdown entry of each category of the constructor's battery. */
  lemma CategoryEntry(answers: seq<int>, c: Category)
    requires |answers| >= 10
    ensures Battery(Questions()) && c in CategoryOrder(Questions(), 10)
    ensures CategoryScoreOf(Questions(), answers, c).count == if c == Mood || c == Anxiety then 2 else 1
    ensures CategoryScoreOf(Questions(), answers, c).max == if c == Mood || c == Anxiety then 6 else 4
  {
    CategoryOrderTable();
    CategoryCountTable(c);
    CategoryMaxTable(c);
  }

  /** For the constructor's battery the breakdown has the eight categories
      in question order, mood and anxiety over two questions (maximum 6),
      the rest over one (maximum 4). */
  lemma CategoryBreakdown(answers: seq<int>)
    requires |answers| >= 10
    ensures Battery(Questions())
    ensures |CategoryScoresOf(Questions(), answers)| == 8
    ensures forall i :: 0 <= i < 8 ==>
      && CategoryScoresOf(Questions(), answers)[i].category == [Mood, Anxiety, Stress, Sleep, Social, Energy, Coping, Overall][i]
      && CategoryScoresOf(Questions(), answers)[i].count == (if i < 2 then 2 else 1)
      && CategoryScoresOf(Questions(), answers)[i].max == (if i < 2 then 6 else 4)
  {
    TableWeights();
    CategoryOrderTable();
    var order := [Mood, Anxiety, Stress, Sleep, Social, Energy, Coping, Overall];
    var r := CategoryScoresOf(Questions(), answers);
    forall i | 0 <= i < 8
      ensures r[i].category == order[i] && r[i].count == (if i < 2 then 2 else 1) && r[i].max == (if i < 2 then 6 else 4)
    {
      CategoryEntry(answers, order[i]);
    }
  }

  /** The question counts of a breakdown, summed. */
  function CountSum(scores: seq<CategoryScore>): nat
  {
    if scores == [] then 0 else CountSum(scores[..|scores| - 1]) + scores[|scores| - 1].count
  }

  /** The breakdown of the constructor's battery accounts for each of its
      ten questions once. */
  lemma CountsSumToTen(answers: seq<int>)
    requires |answers| >= 10
    ensures Battery(Questions())
    ensures CountSum(CategoryScoresOf(Questions(), answers)) == 10
  {
    CategoryBreakdown(answers);
    EightCountsSum(CategoryScoresOf(Questions(), answers));
  }

  lemma EightCountsSum(r: seq<CategoryScore>)
    requires |r| == 8
    requires forall i :: 0 <= i < 8 ==> r[i].count == (if i < 2 then 2 else 1)
    ensures CountSum(r) == 10
  {
    assert r[..1][..0] == [] && r[..1][0] == r[0];
    assert CountSum(r[..1]) == 2;
    assert r[..2][..1] == r[..1] && r[..2][1] == r[1];
    assert CountSum(r[..2]) == 4;
    assert r[..3][..2] == r[..2] && r[..3][2] == r[2];
    assert CountSum(r[..3]) == 5;
    assert r[..4][..3] == r[..3] && r[..4][3] == r[3];
    assert CountSum(r[..4]) == 6;
    assert r[..5][..4] == r[..4] && r[..5][4] == r[4];
    assert CountSum(r[..5]) == 7;
    assert r[..6][..5] == r[..5] && r[..6][5] == r[5];
    assert CountSum(r[..6]) == 8;
    assert r[..7][..6] == r[..6] && r[..7][6] == r[6];
    assert CountSum(r[..7]) == 9;
    assert r[..8][..7] == r[..7] && r[..8][7] == r[7];
    assert CountSum(r[..8]) == 10;
    assert r[..8] == r;
  }

  /** For the constructor's battery, the mildest option everywhere scores
      100. */
  lemma BatteryMildest()
    ensures Battery(Questions())
    ensures CalculateScore(Questions(), seq(10, j => 0)).Success?
    ensures CalculateScore(Questions(), seq(10, j => 0)).value.score == 100
  {
    TableWeights();
    AllMildestScoresHundred(Questions(), seq(10, j => 0));
  }

  /** For the constructor's battery, the severest option everywhere sums to
      36 and scores 0. */
  lemma BatterySeverest()
    ensures Battery(Questions())
    ensures CalculateScore(Questions(), [3, 3, 3, 3, 4, 4, 4, 4, 4, 4]).Success?
    ensures CalculateScore(Questions(), [3, 3, 3, 3, 4, 4, 4, 4, 4, 4]).value.totalScore == 36
    ensures CalculateScore(Questions(), [3, 3, 3, 3, 4, 4, 4, 4, 4, 4]).value.score == 0
  {
    TableWeights();
    MaxPossibleScoreIs36();
    AllSeverestScoresZero(Questions(), [3, 3, 3, 3, 4, 4, 4, 4, 4, 4]);
  }
}
