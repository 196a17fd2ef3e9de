/**
 * The Executive questionnaire controller (components/ExecutiveAssessment.tsx): the role
 * filter over the flat question bank, the category list and completion check, the
 * session state driven by the handlers, and the scoring and classification pass.
 */
module ExecutiveAssessment {
  import opened Types
  import opened Bands
  import Constants

  // ---------------------------------------------------------------- filteredQuestions

  /** The questions of `qs` without a `role: 'csuite'` tag, in their original order. */
  function WithoutCSuite(qs: seq<ExecutiveQuestion>): (r: seq<ExecutiveQuestion>)
    ensures |r| <= |qs|
  {
    if |qs| == 0 then []
    else (if qs[0].csuiteOnly then [] else [qs[0]]) + WithoutCSuite(qs[1..])
  }

  /**
   * The questions a respondent sees: none before a role is chosen, the whole bank for
   * 'csuite', and for every other role the bank minus the 'csuite' questions. Neither the
   * industry nor the country tag is consulted.
   */
  function FilterQuestions(bank: seq<ExecutiveQuestion>, role: Option<ExecutiveUserRole>): (r: seq<ExecutiveQuestion>)
    ensures role.None? ==> r == []
    ensures role == Some(CSuite) ==> r == bank
    ensures role.Some? && role != Some(CSuite) ==> forall q :: q in r <==> q in bank && !q.csuiteOnly
  {
    match role
    case None => []
    case Some(CSuite) => bank
    case Some(_) => WithoutCSuiteMembers(bank); WithoutCSuite(bank)
  }

  lemma {:induction false} WithoutCSuiteMembers(qs: seq<ExecutiveQuestion>)
    ensures forall q :: q in WithoutCSuite(qs) <==> q in qs && !q.csuiteOnly
  {
    if |qs| > 0 {
      WithoutCSuiteMembers(qs[1..]);
      assert forall q :: q in qs <==> q == qs[0] || q in qs[1..] by {
        assert qs == [qs[0]] + qs[1..];
      }
    }
  }

  /** Dropping the 'csuite' questions keeps the order: filtering a concatenation concatenates the filtered parts. */
  lemma {:induction false} WithoutCSuiteAppend(a: seq<ExecutiveQuestion>, b: seq<ExecutiveQuestion>)
    ensures WithoutCSuite(a + b) == WithoutCSuite(a) + WithoutCSuite(b)
  {
    if |a| > 0 {
      var head := if a[0].csuiteOnly then [] else [a[0]];
      assert (a + b)[0] == a[0];
      assert (a + b)[1..] == a[1..] + b;
      WithoutCSuiteAppend(a[1..], b);
      calc {
        WithoutCSuite(a + b);
        head + WithoutCSuite(a[1..] + b);
        head + (WithoutCSuite(a[1..]) + WithoutCSuite(b));
        (head + WithoutCSuite(a[1..])) + WithoutCSuite(b);
        WithoutCSuite(a) + WithoutCSuite(b);
      }
    } else {
      assert a + b == b;
    }
  }

  /** Dropping the 'csuite' questions never raises the number of questions of any category. */
  lemma {:induction false} WithoutCSuiteCategoryCount(qs: seq<ExecutiveQuestion>, c: string)
    ensures CategoryCount(WithoutCSuite(qs), c) <= CategoryCount(qs, c)
  {
    if |qs| > 0 {
      var last := qs[|qs| - 1];
      var init := qs[..|qs| - 1];
      assert qs == init + [last];
      WithoutCSuiteAppend(init, [last]);
      WithoutCSuiteCategoryCount(init, c);
      CategoryCountAppend(WithoutCSuite(init), WithoutCSuite([last]), c);
      assert WithoutCSuite([last]) == (if last.csuiteOnly then [] else [last]) by {
        assert [last][1..] == [];
      }
      if !last.csuiteOnly {
        assert CategoryCount(WithoutCSuite([last]), c) == CategoryCount([last], c) by {
          assert [last][..0] == [];
        }
      }
      CategoryCountAppend(init, [last], c);
      assert [last][..0] == [];
    }
  }

  // ---------------------------------------------------------------- categories

  predicate NoDuplicates<T(==)>(s: seq<T>) {
    forall i, j :: 0 <= i < j < |s| ==> s[i] != s[j]
  }

  /** `Array.from(new Set(filteredQuestions.map(q => q.category)))`: each label once, in order of first appearance. */
  function Categories(qs: seq<ExecutiveQuestion>): (r: seq<string>)
    ensures NoDuplicates(r)
    ensures forall c :: c in r <==> exists q :: q in qs && q.category == c
    decreases |qs|
  {
    if |qs| == 0 then []
    else
      var init := qs[..|qs| - 1];
      var earlier := Categories(init);
      var c := qs[|qs| - 1].category;
      assert forall q :: q in qs <==> q in init || q == qs[|qs| - 1] by {
        assert qs == init + [qs[|qs| - 1]];
      }
      if c in earlier then earlier else earlier + [c]
  }

  /** Index of the first question of category `c`, or `|qs|` when there is none. */
  function FirstIndex(qs: seq<ExecutiveQuestion>, c: string): (k: nat)
    ensures k <= |qs|
    ensures k < |qs| ==> qs[k].category == c
    ensures forall i :: 0 <= i < k ==> qs[i].category != c
  {
    if |qs| == 0 then 0
    else if qs[0].category == c then 0
    else 1 + FirstIndex(qs[1..], c)
  }

  /** Extending a list does not move the first occurrence of a category it already has. */
  lemma FirstIndexOfPrefix(init: seq<ExecutiveQuestion>, qs: seq<ExecutiveQuestion>, c: string)
    requires init <= qs
    requires FirstIndex(init, c) < |init|
    ensures FirstIndex(qs, c) == FirstIndex(init, c)
  {
    var k := FirstIndex(init, c);
    assert qs[k] == init[k];
    assert forall i :: 0 <= i < k ==> qs[i] == init[i];
  }

  /** The category list is ordered by first appearance in the question list. */
  lemma {:induction false} CategoriesInFirstAppearanceOrder(qs: seq<ExecutiveQuestion>)
    ensures forall i, j :: 0 <= i < j < |Categories(qs)| ==>
      FirstIndex(qs, Categories(qs)[i]) < FirstIndex(qs, Categories(qs)[j]) < |qs|
    decreases |qs|
  {
    if |qs| > 0 {
      var init := qs[..|qs| - 1];
      var last := qs[|qs| - 1];
      var earlier := Categories(init);
      CategoriesInFirstAppearanceOrder(init);
      var r := Categories(qs);
      assert init <= qs;
      forall x | x in earlier ensures FirstIndex(qs, x) == FirstIndex(init, x) < |init| {
        var q :| q in init && q.category == x;
        var w :| 0 <= w < |init| && init[w] == q;
        assert FirstIndex(init, x) <= w;
        FirstIndexOfPrefix(init, qs, x);
      }
      if last.category !in earlier {
        assert r == earlier + [last.category];
        forall i | 0 <= i < |init| ensures qs[i].category != last.category {
          assert qs[i] == init[i] && init[i] in init;
        }
        assert FirstIndex(qs, last.category) == |qs| - 1;
      } else {
        assert r == earlier;
      }
      forall i, j | 0 <= i < j < |r| ensures FirstIndex(qs, r[i]) < FirstIndex(qs, r[j]) < |qs| {
        assert r[i] == earlier[i] && r[i] in earlier;
        if j < |earlier| {
          assert r[j] == earlier[j] && r[j] in earlier;
        }
      }
    }
  }

  // ---------------------------------------------------------------- categoryCompletionStatus

  /** The questions of category `c`, in order (`filteredQuestions.filter(q => q.category === c)`). */
  function QuestionsIn(qs: seq<ExecutiveQuestion>, c: string): (r: seq<ExecutiveQuestion>)
    ensures forall q :: q in r <==> q in qs && q.category == c
    ensures |r| <= |qs|
    decreases |qs|
  {
    if |qs| == 0 then []
    else
      var init := qs[..|qs| - 1];
      var last := qs[|qs| - 1];
      assert forall q :: q in qs <==> q in init || q == last by {
        assert qs == init + [last];
      }
      QuestionsIn(init, c) + (if last.category == c then [last] else [])
  }

  /** Number of questions of category `c` in `qs`. */
  function CategoryCount(qs: seq<ExecutiveQuestion>, c: string): nat {
    |QuestionsIn(qs, c)|
  }

  lemma {:induction false} CategoryCountAppend(a: seq<ExecutiveQuestion>, b: seq<ExecutiveQuestion>, c: string)
    ensures CategoryCount(a + b, c) == CategoryCount(a, c) + CategoryCount(b, c)
    decreases |b|
  {
    if |b| == 0 {
      assert a + b == a;
    } else {
      var ab := a + b;
      assert ab[..|ab| - 1] == a + b[..|b| - 1];
      assert ab[|ab| - 1] == b[|b| - 1];
      CategoryCountAppend(a, b[..|b| - 1], c);
    }
  }

  /** One more question adds one to the count of its own category and nothing elsewhere. */
  lemma CategoryCountSnoc(qs: seq<ExecutiveQuestion>, q: ExecutiveQuestion, c: string)
    ensures CategoryCount(qs + [q], c) == CategoryCount(qs, c) + (if q.category == c then 1 else 0)
  {
    var ext := qs + [q];
    assert ext[..|ext| - 1] == qs && ext[|ext| - 1] == q;
  }

  /** One more question appends its category to the list unless the list already has it. */
  lemma CategoriesSnoc(qs: seq<ExecutiveQuestion>, q: ExecutiveQuestion)
    ensures Categories(qs + [q]) == if q.category in Categories(qs) then Categories(qs) else Categories(qs) + [q.category]
  {
    var ext := qs + [q];
    assert ext[..|ext| - 1] == qs && ext[|ext| - 1] == q;
  }

  /** A category is listed exactly when it has at least one question. */
  lemma CategoryCountPositive(qs: seq<ExecutiveQuestion>, c: string)
    ensures c in Categories(qs) <==> CategoryCount(qs, c) >= 1
  {
    if c in Categories(qs) {
      var q :| q in qs && q.category == c;
      assert q in QuestionsIn(qs, c);
    }
    if CategoryCount(qs, c) >= 1 {
      var q := QuestionsIn(qs, c)[0];
      assert q in QuestionsIn(qs, c);
    }
  }

  /** An answer that is neither `null` nor `undefined`. */
  predicate IsAnswered(answers: ExecutiveAnswers, id: int) {
    id in answers && answers[id].Some?
  }

  /** A category with no questions counts as complete; otherwise every one of its questions must be answered. */
  predicate CategoryComplete(filtered: seq<ExecutiveQuestion>, answers: ExecutiveAnswers, c: string) {
    var inCategory := QuestionsIn(filtered, c);
    |inCategory| == 0 || forall i :: 0 <= i < |inCategory| ==> IsAnswered(answers, inCategory[i].id)
  }

  /** The per-category completion map shown in the sidebar. */
  function CategoryCompletionStatus(categories: seq<string>, filtered: seq<ExecutiveQuestion>, answers: ExecutiveAnswers)
    : (status: map<string, bool>)
    ensures status.Keys == set c | c in categories
    ensures forall c :: c in status ==>
      (status[c] <==> forall q :: q in filtered && q.category == c ==> IsAnswered(answers, q.id))
  {
    map c | c in categories :: CategoryComplete(filtered, answers, c)
  }

  /** Answering a question never makes a complete category incomplete. */
  lemma AnsweringKeepsComplete(filtered: seq<ExecutiveQuestion>, answers: ExecutiveAnswers, c: string, id: int, answer: bool)
    requires CategoryComplete(filtered, answers, c)
    ensures CategoryComplete(filtered, answers[id := Some(answer)], c)
  {
  }

  // ---------------------------------------------------------------- result

  /** The answer stored for `id` is `true`. */
  predicate IsYes(answers: ExecutiveAnswers, id: int) {
    id in answers && answers[id] == Some(true)
  }

  /** `Object.values(answers).filter(answer => answer === true).length`: every `true` in the map, filtered or not. */
  function TotalScore(answers: ExecutiveAnswers): (r: nat)
    ensures r <= |answers|
    ensures r == 0 <==> forall id :: id in answers ==> !IsYes(answers, id)
  {
    var yes := set id | id in answers && IsYes(answers, id);
    SubsetCardinality(yes, answers.Keys);
    assert forall id :: id in answers && IsYes(answers, id) ==> id in yes;
    |yes|
  }

  /** Number of questions of category `c` in `qs` answered `true`. */
  function CategoryScore(qs: seq<ExecutiveQuestion>, answers: ExecutiveAnswers, c: string): (r: nat)
    ensures r <= CategoryCount(qs, c)
    decreases |qs|
  {
    if |qs| == 0 then 0
    else
      var last := qs[|qs| - 1];
      CategoryScore(qs[..|qs| - 1], answers, c) + (if last.category == c && IsYes(answers, last.id) then 1 else 0)
  }

  /** One more question adds one to its own category's score when it is answered `true`, and nothing elsewhere. */
  lemma CategoryScoreSnoc(qs: seq<ExecutiveQuestion>, q: ExecutiveQuestion, answers: ExecutiveAnswers, c: string)
    ensures CategoryScore(qs + [q], answers, c)
         == CategoryScore(qs, answers, c) + (if q.category == c && IsYes(answers, q.id) then 1 else 0)
  {
    var ext := qs + [q];
    assert ext[..|ext| - 1] == qs && ext[|ext| - 1] == q;
  }

  /**
   * The result pass. No result unless the respondent reached the end and has questions;
   * otherwise the total counts every `true` answer, the maximum is the number of filtered
   * questions, each listed category starts at 0 and counts its filtered questions answered
   * `true`, the first range holding the total supplies level and interpretation, and the
   * per-category maxima are left unset.
   */
  method ComputeResult(showResults: bool, filtered: seq<ExecutiveQuestion>, categories: seq<string>,
                       answers: ExecutiveAnswers, ranges: seq<Band>)
    returns (result: Option<ExecutiveResult>)
    ensures result.None? <==> !showResults || |filtered| == 0
    ensures result.Some? ==>
      && result.value.totalScore == TotalScore(answers)
      && result.value.maxScore == |filtered|
      && (result.value.level, result.value.interpretation) == Classify(ranges, TotalScore(answers))
      && result.value.categoryMaxScores.None?
    ensures result.Some? ==> forall c ::
      c in result.value.categoryScores <==> c in categories || CategoryScore(filtered, answers, c) > 0
    ensures result.Some? ==> forall c :: c in result.value.categoryScores ==>
      result.value.categoryScores[c] == CategoryScore(filtered, answers, c)
  {
    if !showResults || |filtered| == 0 {
      return None;
    }
    var totalScore := TotalScore(answers);
    var maxScore := |filtered|;

    var categoryScores := ZeroScores(categories);
    categoryScores := AddYesAnswers(categoryScores, categories, filtered, answers);
    var level, interpretation := ClassifyScore(ranges, totalScore);
    return Some(ExecutiveResult(totalScore, maxScore, level, interpretation, categoryScores, None));
  }

  /** `categories.forEach(cat => categoryScores[cat] = 0)` */
  method ZeroScores(categories: seq<string>) returns (scores: map<string, nat>)
    ensures forall c :: c in scores <==> c in categories
    ensures forall c :: c in scores ==> scores[c] == 0
  {
    scores := map[];
    for i := 0 to |categories|
      invariant forall c :: c in scores <==> c in categories[..i]
      invariant forall c :: c in scores ==> scores[c] == 0
    {
      assert categories[..i + 1] == categories[..i] + [categories[i]];
      scores := scores[categories[i] := 0];
    }
    assert categories[..|categories|] == categories;
  }

  /**
   * The pass over the filtered questions: each question answered `true` adds one to its
   * category's entry (`(categoryScores[q.category] || 0) + 1`), creating it if absent.
   */
  method AddYesAnswers(zeroed: map<string, nat>, categories: seq<string>, filtered: seq<ExecutiveQuestion>,
                       answers: ExecutiveAnswers)
    returns (scores: map<string, nat>)
    requires forall c :: c in zeroed <==> c in categories
    requires forall c :: c in zeroed ==> zeroed[c] == 0
    ensures ScoresOf(scores, categories, filtered, answers)
  {
    scores := zeroed;
    for i := 0 to |filtered|
      invariant ScoresOf(scores, categories, filtered[..i], answers)
    {
      var q := filtered[i];
      assert filtered[..i + 1] == filtered[..i] + [q];
      var previous := if q.category in scores then scores[q.category] else 0;
      var next := if IsYes(answers, q.id) then scores[q.category := previous + 1] else scores;
      AddYesAnswerStep(scores, categories, filtered[..i], q, answers);
      scores := next;
    }
    assert filtered[..|filtered|] == filtered;
  }

  /** `scores` holds exactly the listed categories and those with a positive score, each with its score over `qs`. */
  ghost predicate ScoresOf(scores: map<string, nat>, categories: seq<string>, qs: seq<ExecutiveQuestion>, answers: ExecutiveAnswers) {
    && (forall c :: c in scores <==> c in categories || CategoryScore(qs, answers, c) > 0)
    && (forall c :: c in scores ==> scores[c] == CategoryScore(qs, answers, c))
  }

  lemma AddYesAnswerStep(scores: map<string, nat>, categories: seq<string>, qs: seq<ExecutiveQuestion>,
                         q: ExecutiveQuestion, answers: ExecutiveAnswers)
    requires ScoresOf(scores, categories, qs, answers)
    ensures var previous := if q.category in scores then scores[q.category] else 0;
            ScoresOf(if IsYes(answers, q.id) then scores[q.category := previous + 1] else scores,
                     categories, qs + [q], answers)
  {
    forall c {
      CategoryScoreSnoc(qs, q, answers, c);
    }
  }

  // ---------------------------------------------------------------- facts about the scores

  /** Sum of the category scores over a list of categories. */
  function SumOfCategoryScores(categories: seq<string>, qs: seq<ExecutiveQuestion>, answers: ExecutiveAnswers): nat {
    if |categories| == 0 then 0
    else CategoryScore(qs, answers, categories[0]) + SumOfCategoryScores(categories[1..], qs, answers)
  }

  /** Number of questions of `qs` answered `true`, whatever their category. */
  function YesCount(qs: seq<ExecutiveQuestion>, answers: ExecutiveAnswers): nat
    decreases |qs|
  {
    if |qs| == 0 then 0
    else YesCount(qs[..|qs| - 1], answers) + (if IsYes(answers, qs[|qs| - 1].id) then 1 else 0)
  }

  /** The ids of the questions of `qs` answered `true`. */
  function YesIds(qs: seq<ExecutiveQuestion>, answers: ExecutiveAnswers): (r: set<int>)
    ensures forall id :: id in r ==> IsYes(answers, id) && exists i :: 0 <= i < |qs| && qs[i].id == id
    ensures forall i :: 0 <= i < |qs| && IsYes(answers, qs[i].id) ==> qs[i].id in r
    decreases |qs|
  {
    if |qs| == 0 then {}
    else
      var last := qs[|qs| - 1];
      YesIds(qs[..|qs| - 1], answers) + (if IsYes(answers, last.id) then {last.id} else {})
  }

  predicate UniqueIds(qs: seq<ExecutiveQuestion>) {
    forall i, j :: 0 <= i < j < |qs| ==> qs[i].id != qs[j].id
  }

  /** Adding one question to every category's score adds one to the sum exactly when its category is listed once. */
  lemma {:induction false} SumOfCategoryScoresStep(categories: seq<string>, qs: seq<ExecutiveQuestion>, q: ExecutiveQuestion,
                                                    answers: ExecutiveAnswers)
    requires NoDuplicates(categories)
    ensures SumOfCategoryScores(categories, qs + [q], answers)
         == SumOfCategoryScores(categories, qs, answers) + (if q.category in categories && IsYes(answers, q.id) then 1 else 0)
  {
    var ext := qs + [q];
    assert ext[..|ext| - 1] == qs && ext[|ext| - 1] == q;
    if |categories| > 0 {
      SumOfCategoryScoresStep(categories[1..], qs, q, answers);
      assert q.category in categories <==> q.category == categories[0] || q.category in categories[1..];
      if q.category == categories[0] {
        assert q.category !in categories[1..];
      }
    }
  }

  /** When the list holds every category of `qs` once, the category scores add up to the number of `true` answers in `qs`. */
  lemma {:induction false} SumOfCategoryScoresIsYesCount(categories: seq<string>, qs: seq<ExecutiveQuestion>, answers: ExecutiveAnswers)
    requires NoDuplicates(categories)
    requires forall q :: q in qs ==> q.category in categories
    ensures SumOfCategoryScores(categories, qs, answers) == YesCount(qs, answers)
    decreases |qs|
  {
    if |qs| == 0 {
      SumOfCategoryScoresEmpty(categories, answers);
    } else {
      var init := qs[..|qs| - 1];
      var last := qs[|qs| - 1];
      assert qs == init + [last];
      SumOfCategoryScoresIsYesCount(categories, init, answers);
      SumOfCategoryScoresStep(categories, init, last, answers);
    }
  }

  lemma SumOfCategoryScoresEmpty(categories: seq<string>, answers: ExecutiveAnswers)
    ensures SumOfCategoryScores(categories, [], answers) == 0
  {
    if |categories| > 0 { SumOfCategoryScoresEmpty(categories[1..], answers); }
  }

  /** With unique ids, the number of `true` answers in `qs` is the number of distinct ids answered `true`. */
  lemma {:induction false} YesCountIsYesIds(qs: seq<ExecutiveQuestion>, answers: ExecutiveAnswers)
    requires UniqueIds(qs)
    ensures YesCount(qs, answers) == |YesIds(qs, answers)|
    decreases |qs|
  {
    if |qs| > 0 {
      var init := qs[..|qs| - 1];
      var last := qs[|qs| - 1];
      YesCountIsYesIds(init, answers);
      assert last.id !in YesIds(init, answers) by {
        forall i | 0 <= i < |init| ensures init[i].id != last.id {
          assert init[i] == qs[i];
        }
      }
    }
  }

  /** The ids answered `true` among some questions are among all ids answered `true`. */
  lemma YesIdsWithinTotal(qs: seq<ExecutiveQuestion>, answers: ExecutiveAnswers)
    ensures YesIds(qs, answers) <= set id | id in answers && IsYes(answers, id)
    ensures |YesIds(qs, answers)| <= TotalScore(answers)
  {
    var all := set id | id in answers && IsYes(answers, id);
    forall id | id in YesIds(qs, answers) ensures id in all {
    }
    SubsetCardinality(YesIds(qs, answers), all);
  }

  lemma {:induction false} SubsetCardinality<T>(a: set<T>, b: set<T>)
    requires a <= b
    ensures |a| <= |b|
    decreases |a|
  {
    if a != {} {
      var x :| x in a;
      SubsetCardinality(a - {x}, b - {x});
    }
  }

  /**
   * For a question list with unique ids, the total score is at least the sum of the
   * category scores, and equal to it when every id answered `true` belongs to a filtered question.
   */
  lemma TotalScoreAndCategoryScores(filtered: seq<ExecutiveQuestion>, answers: ExecutiveAnswers)
    requires UniqueIds(filtered)
    ensures SumOfCategoryScores(Categories(filtered), filtered, answers) <= TotalScore(answers)
    ensures (forall id :: IsYes(answers, id) ==> exists q :: q in filtered && q.id == id) ==>
      SumOfCategoryScores(Categories(filtered), filtered, answers) == TotalScore(answers)
  {
    SumOfCategoryScoresIsYesCount(Categories(filtered), filtered, answers);
    YesCountIsYesIds(filtered, answers);
    YesIdsWithinTotal(filtered, answers);
    if forall id :: IsYes(answers, id) ==> exists q :: q in filtered && q.id == id {
      YesIdsCoverTotal(filtered, answers);
    }
  }

  /** When every id answered `true` belongs to one of the questions, those questions account for the whole total. */
  lemma YesIdsCoverTotal(qs: seq<ExecutiveQuestion>, answers: ExecutiveAnswers)
    requires forall id :: IsYes(answers, id) ==> exists q :: q in qs && q.id == id
    ensures |YesIds(qs, answers)| == TotalScore(answers)
  {
    var all := set id | id in answers && IsYes(answers, id);
    var yes := YesIds(qs, answers);
    forall id | id in all ensures id in yes {
      var q :| q in qs && q.id == id;
      var i :| 0 <= i < |qs| && qs[i] == q;
    }
    forall id | id in yes ensures id in all {
    }
    assert all == yes;
  }

  /** Turning any answer into `true` never lowers the total score. */
  lemma TotalScoreMonotone(answers: ExecutiveAnswers, id: int)
    ensures TotalScore(answers[id := Some(true)]) >= TotalScore(answers)
  {
    var updated := answers[id := Some(true)];
    var before := set k | k in answers && IsYes(answers, k);
    var after := set k | k in updated && IsYes(updated, k);
    assert before <= after;
    SubsetCardinality(before, after);
  }

  /** Turning any answer into `true` never lowers a category score. */
  lemma {:induction false} CategoryScoreMonotone(qs: seq<ExecutiveQuestion>, answers: ExecutiveAnswers, id: int, c: string)
    ensures CategoryScore(qs, answers[id := Some(true)], c) >= CategoryScore(qs, answers, c)
    decreases |qs|
  {
    if |qs| > 0 {
      CategoryScoreMonotone(qs[..|qs| - 1], answers, id, c);
    }
  }

  /** A category score never exceeds the number of questions of that category in the unfiltered bank. */
  lemma CategoryScoreWithinBank(bank: seq<ExecutiveQuestion>, role: Option<ExecutiveUserRole>, answers: ExecutiveAnswers, c: string)
    ensures CategoryScore(FilterQuestions(bank, role), answers, c) <= CategoryCount(bank, c)
  {
    match role
    case None =>
    case Some(CSuite) =>
    case Some(_) => WithoutCSuiteCategoryCount(bank, c);
  }

  /** Every question of `qs` answered `true`, and nothing else answered. */
  function AllYes(qs: seq<ExecutiveQuestion>): (a: ExecutiveAnswers)
    ensures forall q :: q in qs ==> IsYes(a, q.id)
    ensures forall id :: IsYes(a, id) ==> exists q :: q in qs && q.id == id
  {
    var ids := set q | q in qs :: q.id;
    map id | id in ids :: Some(true)
  }

  lemma {:induction false} YesCountOfAllAnswered(qs: seq<ExecutiveQuestion>, answers: ExecutiveAnswers)
    requires forall q :: q in qs ==> IsYes(answers, q.id)
    ensures YesCount(qs, answers) == |qs|
    decreases |qs|
  {
    if |qs| > 0 {
      var init := qs[..|qs| - 1];
      assert forall q :: q in init ==> q in qs;
      YesCountOfAllAnswered(init, answers);
    }
  }

  /** With unique ids, answering every question `true` scores one point per question. */
  lemma FullMarks(qs: seq<ExecutiveQuestion>)
    requires UniqueIds(qs)
    ensures TotalScore(AllYes(qs)) == |qs|
  {
    var answers := AllYes(qs);
    YesCountOfAllAnswered(qs, answers);
    YesCountIsYesIds(qs, answers);
    YesIdsCoverTotal(qs, answers);
  }

  /**
   * The score ranges stop at 15 while a 'csuite' respondent sees all 67 questions: answering
   * every one of them `true` gives a total of 67, which no range holds, so the level is 'Unknown'.
   */
  lemma CSuiteFullMarksAreUnknown()
    ensures var filtered := FilterQuestions(Constants.ExecutiveQuestions, Some(CSuite));
      && |filtered| == 67
      && TotalScore(AllYes(filtered)) == 67
      && Classify(Constants.ExecutiveScoreRanges, TotalScore(AllYes(filtered))) == (Unknown, UnknownInterpretation)
  {
    Constants.ExecutiveQuestionIds();
    Constants.ExecutiveQuestionIdsUnique();
    CSuiteFullMarks(Constants.ExecutiveQuestions);
    Constants.ExecutiveScoreRangesCoverage(67);
  }

  /** A 'csuite' respondent sees the whole bank, so answering everything yes scores the bank's size. */
  lemma CSuiteFullMarks(bank: seq<ExecutiveQuestion>)
    requires UniqueIds(bank)
    ensures |FilterQuestions(bank, Some(CSuite))| == |bank|
    ensures TotalScore(AllYes(FilterQuestions(bank, Some(CSuite)))) == |bank|
  {
    FullMarks(bank);
  }

  // ---------------------------------------------------------------- session

  /** The controller's state: chosen role, answers, current category and whether results are shown. */
  class ExecutiveSession {
    const bank: seq<ExecutiveQuestion>
    var userRole: Option<ExecutiveUserRole>
    var currentCategoryIndex: int
    var answers: ExecutiveAnswers
    var showResults: bool

    function FilteredQuestions(): seq<ExecutiveQuestion>
      reads this`userRole
    {
      FilterQuestions(bank, userRole)
    }

    function CategoryList(): seq<string>
      reads this`userRole
    {
      Categories(FilteredQuestions())
    }

    function CompletionStatus(): map<string, bool>
      reads this`userRole, this`answers
    {
      CategoryCompletionStatus(CategoryList(), FilteredQuestions(), answers)
    }

    /** The questions of the current category; none when the index names no category. */
    function CurrentCategoryQuestions(): (r: seq<ExecutiveQuestion>)
      reads this`userRole, this`currentCategoryIndex
      ensures !(0 <= currentCategoryIndex < |CategoryList()|) ==> r == []
      ensures 0 <= currentCategoryIndex < |CategoryList()| ==> forall q :: q in r <==>
        q in FilteredQuestions() && q.category == CategoryList()[currentCategoryIndex]
      ensures userRole != Some(CSuite) ==> forall q :: q in r ==> q in bank && !q.csuiteOnly
    {
      var categories := CategoryList();
      if 0 <= currentCategoryIndex < |categories| then QuestionsIn(FilteredQuestions(), categories[currentCategoryIndex]) else []
    }

    /** The category index names a category, or is 0 when there are none. */
    predicate Valid()
      reads this`userRole, this`currentCategoryIndex
    {
      0 <= currentCategoryIndex && (currentCategoryIndex < |CategoryList()| || currentCategoryIndex == 0)
    }

    constructor(bank: seq<ExecutiveQuestion>)
      ensures this.bank == bank && userRole == None && currentCategoryIndex == 0
      ensures answers == map[] && !showResults
      ensures Valid()
    {
      this.bank := bank;
      userRole := None;
      currentCategoryIndex := 0;
      answers := map[];
      showResults := false;
    }

    /** handleSelectRole: set the role, empty the answers and go back to the first category. */
    method SelectRole(role: ExecutiveUserRole)
      modifies this`userRole, this`answers, this`currentCategoryIndex
      ensures userRole == Some(role) && answers == map[] && currentCategoryIndex == 0
      ensures Valid()
    {
      userRole := Some(role);
      answers := map[];
      currentCategoryIndex := 0;
    }

    /** handleAnswer: record one answer; every other answer is unchanged, and repeating an answer changes nothing. */
    method Answer(questionId: int, answer: bool)
      modifies this`answers
      ensures answers == old(answers)[questionId := Some(answer)]
      ensures forall id :: id != questionId ==> (id in answers <==> id in old(answers))
      ensures forall id :: id != questionId && id in answers ==> answers[id] == old(answers)[id]
      ensures old(questionId in answers && answers[questionId] == Some(answer)) ==> answers == old(answers)
      ensures old(Valid()) ==> Valid()
    {
      answers := answers[questionId := Some(answer)];
    }

    /** handleNext: move to the next category, or show the results at the last one without moving. */
    method Next()
      modifies this`currentCategoryIndex, this`showResults
      ensures old(currentCategoryIndex) < |CategoryList()| - 1 ==>
        currentCategoryIndex == old(currentCategoryIndex) + 1 && showResults == old(showResults)
      ensures old(currentCategoryIndex) >= |CategoryList()| - 1 ==>
        currentCategoryIndex == old(currentCategoryIndex) && showResults
      ensures old(Valid()) ==> Valid()
    {
      if currentCategoryIndex < |CategoryList()| - 1 {
        currentCategoryIndex := currentCategoryIndex + 1;
      } else {
        showResults := true;
      }
    }

    /** handleBack: move to the previous category unless already at the first. */
    method Back()
      modifies this`currentCategoryIndex
      ensures currentCategoryIndex == if old(currentCategoryIndex) > 0 then old(currentCategoryIndex) - 1 else old(currentCategoryIndex)
      ensures old(Valid()) ==> Valid()
    {
      if currentCategoryIndex > 0 {
        currentCategoryIndex := currentCategoryIndex - 1;
      }
    }

    /** A click on a category in the sidebar. */
    method SelectCategory(index: int)
      requires 0 <= index < |CategoryList()|
      modifies this`currentCategoryIndex
      ensures currentCategoryIndex == index && Valid()
    {
      currentCategoryIndex := index;
    }

    /** The memoised `result`, scored against EXECUTIVE_SCORE_RANGES. */
    method Result() returns (result: Option<ExecutiveResult>)
      ensures result.None? <==> !showResults || |FilteredQuestions()| == 0
      ensures result.Some? ==>
        && result.value.totalScore == TotalScore(answers)
        && result.value.maxScore == |FilteredQuestions()|
        && (result.value.level, result.value.interpretation) == Classify(Constants.ExecutiveScoreRanges, TotalScore(answers))
        && result.value.categoryMaxScores.None?
      ensures result.Some? ==> forall c ::
        c in result.value.categoryScores <==> c in CategoryList() || CategoryScore(FilteredQuestions(), answers, c) > 0
      ensures result.Some? ==> forall c :: c in result.value.categoryScores ==>
        result.value.categoryScores[c] == CategoryScore(FilteredQuestions(), answers, c)
    {
      result := ComputeResult(showResults, FilteredQuestions(), CategoryList(), answers, Constants.ExecutiveScoreRanges);
    }
  }
}
