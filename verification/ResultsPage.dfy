/**
 * The two pieces of logic on the results page (components/ResultsPage.tsx): the benchmark
 * comparison series of the Executive charts, and the e-mail address check with the
 * synchronous guard in front of the submission.
 */
module ResultsPage {
  import opened Types
  import opened Strings
  import Constants
  import ExecutiveAssessment

  // ---------------------------------------------------------------- executiveChartData

  /**
   * `maxScoresPerCategory`: the number of questions per category over the whole bank,
   * filtered or not, with its keys in insertion order (which is first appearance).
   */
  method CountPerCategory(bank: seq<ExecutiveQuestion>) returns (keys: seq<string>, counts: map<string, nat>)
    ensures keys == ExecutiveAssessment.Categories(bank)
    ensures forall c :: c in counts <==> c in keys
    ensures forall c :: c in counts ==> counts[c] == ExecutiveAssessment.CategoryCount(bank, c) && counts[c] >= 1
  {
    keys := [];
    counts := map[];
    for i := 0 to |bank|
      invariant CountsOf(keys, counts, bank[..i])
    {
      var q := bank[i];
      assert bank[..i + 1] == bank[..i] + [q];
      CountStep(keys, counts, bank[..i], q);
      if q.category in counts {
        counts := counts[q.category := counts[q.category] + 1];
      } else {
        keys := keys + [q.category];
        counts := counts[q.category := 1];
      }
    }
    assert bank[..|bank|] == bank;
  }

  /** `keys` and `counts` are the category list and the per-category counts of `qs`. */
  ghost predicate CountsOf(keys: seq<string>, counts: map<string, nat>, qs: seq<ExecutiveQuestion>) {
    && keys == ExecutiveAssessment.Categories(qs)
    && (forall c :: c in counts <==> c in keys)
    && (forall c :: c in counts ==> counts[c] == ExecutiveAssessment.CategoryCount(qs, c) && counts[c] >= 1)
  }

  lemma CountStep(keys: seq<string>, counts: map<string, nat>, qs: seq<ExecutiveQuestion>, q: ExecutiveQuestion)
    requires CountsOf(keys, counts, qs)
    ensures q.category in counts ==> CountsOf(keys, counts[q.category := counts[q.category] + 1], qs + [q])
    ensures q.category !in counts ==> CountsOf(keys + [q.category], counts[q.category := 1], qs + [q])
  {
    var keys' := if q.category in counts then keys else keys + [q.category];
    var counts' := counts[q.category := if q.category in counts then counts[q.category] + 1 else 1];
    ExecutiveAssessment.CategoriesSnoc(qs, q);
    assert keys' == ExecutiveAssessment.Categories(qs + [q]);
    assert forall c :: c in counts' <==> c in keys';
    forall c | c in counts' ensures counts'[c] == ExecutiveAssessment.CategoryCount(qs + [q], c) && counts'[c] >= 1 {
      ExecutiveAssessment.CategoryCountSnoc(qs, q, c);
      ExecutiveAssessment.CategoryCountPositive(qs, c);
    }
    assert CountsOf(keys', counts', qs + [q]);
  }

  /** One bar pair of a chart: the category and the two percentages. */
  datatype ChartPoint = ChartPoint(name: string, yourScore: real, benchmark: real)

  /** The two series, against the Defined and against the Optimized benchmark. */
  datatype ChartData = ChartData(definedCategoryData: seq<ChartPoint>, optimizedCategoryData: seq<ChartPoint>)

  /** `m[c] || 0` */
  function ScoreOrZero(m: map<string, nat>, c: string): nat {
    if c in m then m[c] else 0
  }

  /** `(score / (max || 1)) * 100`: a zero maximum is replaced by 1. */
  function Percent(score: nat, max: nat): (r: real)
    ensures r >= 0.0
    ensures max >= 1 && score <= max ==> r <= 100.0
    ensures score == 0 <==> r == 0.0
  {
    var divisor := if max == 0 then 1 else max;
    (score as real / divisor as real) * 100.0
  }

  /** One series: for each category key, the respondent's and the benchmark's score as a percentage of the category's count. */
  function Series(keys: seq<string>, counts: map<string, nat>, categoryScores: map<string, nat>, benchmark: map<string, nat>)
    : (r: seq<ChartPoint>)
    ensures |r| == |keys|
    ensures forall i :: 0 <= i < |keys| ==>
      && r[i].name == keys[i]
      && r[i].yourScore == Percent(ScoreOrZero(categoryScores, keys[i]), ScoreOrZero(counts, keys[i]))
      && r[i].benchmark == Percent(ScoreOrZero(benchmark, keys[i]), ScoreOrZero(counts, keys[i]))
    ensures forall i :: 0 <= i < |keys| ==> r[i].yourScore >= 0.0 && r[i].benchmark >= 0.0
    ensures forall i :: 0 <= i < |keys| && keys[i] in counts && counts[keys[i]] >= 1 ==>
      && (ScoreOrZero(categoryScores, keys[i]) <= counts[keys[i]] ==> r[i].yourScore <= 100.0)
      && (ScoreOrZero(benchmark, keys[i]) <= counts[keys[i]] ==> r[i].benchmark <= 100.0)
    ensures forall i :: 0 <= i < |keys| && keys[i] !in benchmark ==> r[i].benchmark == 0.0
  {
    seq(|keys|, i requires 0 <= i < |keys| =>
      var c := keys[i];
      ChartPoint(c, Percent(ScoreOrZero(categoryScores, c), ScoreOrZero(counts, c)),
                    Percent(ScoreOrZero(benchmark, c), ScoreOrZero(counts, c))))
  }

  /**
   * `executiveChartData`: nothing unless the page shows an Executive result; otherwise the
   * Defined and Optimized series over the categories of the whole bank, in first-appearance order.
   */
  method ExecutiveChartData(assessmentType: AssessmentType, result: Option<ExecutiveResult>, bank: seq<ExecutiveQuestion>)
    returns (r: Option<ChartData>)
    ensures r.None? <==> assessmentType != ExecutiveTrack || result.None?
    ensures r.Some? ==>
      var keys := ExecutiveAssessment.Categories(bank);
      && |r.value.definedCategoryData| == |keys| == |r.value.optimizedCategoryData|
      && (forall i :: 0 <= i < |keys| ==>
            && r.value.definedCategoryData[i].name == keys[i] == r.value.optimizedCategoryData[i].name
            && r.value.definedCategoryData[i].yourScore == r.value.optimizedCategoryData[i].yourScore
               == Percent(ScoreOrZero(result.value.categoryScores, keys[i]), ExecutiveAssessment.CategoryCount(bank, keys[i]))
            && r.value.definedCategoryData[i].benchmark
               == Percent(ScoreOrZero(Constants.ExecutiveDefinedBenchmark.categoryScores, keys[i]), ExecutiveAssessment.CategoryCount(bank, keys[i]))
            && r.value.optimizedCategoryData[i].benchmark
               == Percent(ScoreOrZero(Constants.ExecutiveOptimizedBenchmark.categoryScores, keys[i]), ExecutiveAssessment.CategoryCount(bank, keys[i])))
  {
    if assessmentType != ExecutiveTrack || result.None? {
      return None;
    }
    var keys, counts := CountPerCategory(bank);
    var defined := Series(keys, counts, result.value.categoryScores, Constants.ExecutiveDefinedBenchmark.categoryScores);
    var optimized := Series(keys, counts, result.value.categoryScores, Constants.ExecutiveOptimizedBenchmark.categoryScores);
    r := Some(ChartData(defined, optimized));
    forall i | 0 <= i < |keys| ensures ScoreOrZero(counts, keys[i]) == ExecutiveAssessment.CategoryCount(bank, keys[i]) {
    }
  }

  /**
   * When the category scores come from the scoring pass over the role-filtered bank, the
   * respondent's percentage of every category of the bank lies in [0, 100].
   */
  lemma YourScoreWithinRange(bank: seq<ExecutiveQuestion>, role: Option<ExecutiveUserRole>, answers: ExecutiveAnswers,
                             categoryScores: map<string, nat>, c: string)
    requires forall k :: k in categoryScores ==>
      categoryScores[k] == ExecutiveAssessment.CategoryScore(ExecutiveAssessment.FilterQuestions(bank, role), answers, k)
    requires c in ExecutiveAssessment.Categories(bank)
    ensures 0.0 <= Percent(ScoreOrZero(categoryScores, c), ExecutiveAssessment.CategoryCount(bank, c)) <= 100.0
  {
    ExecutiveAssessment.CategoryCountPositive(bank, c);
    ExecutiveAssessment.CategoryScoreWithinBank(bank, role, answers, c);
  }

  /** A category absent from a benchmark table gets a benchmark bar of 0. */
  lemma MissingBenchmarkIsZero(benchmark: map<string, nat>, count: nat, c: string)
    requires c !in benchmark
    ensures Percent(ScoreOrZero(benchmark, c), count) == 0.0
  {
  }

  /**
   * With the published tables, the 'Industry Specific' bars of both series have a benchmark
   * of 0, and in every category the Defined benchmark bar is no higher than the Optimized one.
   */
  lemma PublishedBenchmarkBars(count: nat, c: string)
    requires count >= 1
    ensures Percent(ScoreOrZero(Constants.ExecutiveDefinedBenchmark.categoryScores, Constants.IndustrySpecific), count) == 0.0
    ensures Percent(ScoreOrZero(Constants.ExecutiveOptimizedBenchmark.categoryScores, Constants.IndustrySpecific), count) == 0.0
    ensures Percent(ScoreOrZero(Constants.ExecutiveDefinedBenchmark.categoryScores, c), count)
         <= Percent(ScoreOrZero(Constants.ExecutiveOptimizedBenchmark.categoryScores, c), count)
  {
    Constants.ExecutiveBenchmarksOrdered();
    var d := ScoreOrZero(Constants.ExecutiveDefinedBenchmark.categoryScores, c);
    var o := ScoreOrZero(Constants.ExecutiveOptimizedBenchmark.categoryScores, c);
    assert d <= o;
    assert d as real / count as real <= o as real / count as real;
  }

  // ---------------------------------------------------------------- validateEmail

  /** A run matched by `[^\s@]+`. */
  predicate IsSegment(t: string) {
    |t| > 0 && forall k :: 0 <= k < |t| ==> !IsWhitespace(t[k]) && t[k] != '@'
  }

  /** A reading of `^[^\s@]+@[^\s@]+\.[^\s@]+$`: an '@' and a later '.' cut the string into three such runs. */
  predicate MatchesEmailPattern(s: string) {
    exists i, j :: 0 < i < j < |s| && s[i] == '@' && s[j] == '.' && IsSegment(s[..i]) && IsSegment(s[i + 1..j]) && IsSegment(s[j + 1..])
  }

  /** Some '.' of `d` has at least one character on each side. */
  predicate HasInnerDot(d: string) {
    exists j :: 1 <= j < |d| - 1 && d[j] == '.'
  }

  /**
   * `validateEmail`, as a split: no whitespace anywhere, exactly one '@' with something
   * before it, and a domain holding a '.' with text on both sides.
   */
  predicate ValidateEmail(s: string)
    ensures ValidateEmail(s) ==> |s| >= 5 && '@' in s && s[0] != '@'
  {
    var at := IndexOf(s, '@');
    && (forall k :: 0 <= k < |s| ==> !IsWhitespace(s[k]))
    && at > 0
    && (forall k :: at < k < |s| ==> s[k] != '@')
    && HasInnerDot(s[at + 1..])
  }

  /** Every address the split-based check accepts matches the regular expression. */
  lemma ValidateEmailSound(s: string)
    requires ValidateEmail(s)
    ensures MatchesEmailPattern(s)
  {
    var at := IndexOf(s, '@');
    var d := s[at + 1..];
    var jd :| 1 <= jd < |d| - 1 && d[jd] == '.';
    var j := at + 1 + jd;
    assert s[j] == '.';
    assert IsSegment(s[..at]);
    assert IsSegment(s[at + 1..j]);
    assert IsSegment(s[j + 1..]);
  }

  /** Every address the regular expression matches passes the split-based check. */
  lemma ValidateEmailComplete(s: string)
    requires MatchesEmailPattern(s)
    ensures ValidateEmail(s)
  {
    var i, j :| 0 < i < j < |s| && s[i] == '@' && s[j] == '.'
      && IsSegment(s[..i]) && IsSegment(s[i + 1..j]) && IsSegment(s[j + 1..]);
    forall k | 0 <= k < |s| ensures !IsWhitespace(s[k]) && (k != i ==> s[k] != '@') {
      if k < i {
        assert s[k] == s[..i][k];
      } else if i < k < j {
        assert s[k] == s[i + 1..j][k - i - 1];
      } else if j < k {
        assert s[k] == s[j + 1..][k - j - 1];
      }
    }
    assert IndexOf(s, '@') == i;
    var d := s[i + 1..];
    assert d[j - i - 1] == '.';
  }

  /** The split-based check accepts exactly the strings the regular expression matches. */
  lemma ValidateEmailMatchesPattern(s: string)
    ensures ValidateEmail(s) <==> MatchesEmailPattern(s)
  {
    if ValidateEmail(s) {
      ValidateEmailSound(s);
    }
    if MatchesEmailPattern(s) {
      ValidateEmailComplete(s);
    }
  }

  // ---------------------------------------------------------------- handleEmailSubmit guard

  const InvalidEmailMessage: string := "Please enter a valid email address."

  /** The e-mail form's state on the results page. */
  class EmailForm {
    var email: string
    var emailLoading: bool
    var isValidEmail: bool
    var emailError: Option<string>
    var submitted: bool

    constructor()
      ensures email == "" && !emailLoading && isValidEmail && emailError == None && !submitted
    {
      email := "";
      emailLoading := false;
      isValidEmail := true;
      emailError := None;
      submitted := false;
    }

    /**
     * The synchronous prefix of handleEmailSubmit. While a submission is loading nothing
     * happens; otherwise the validity flag is refreshed, an invalid address gets the error
     * message and stops, and a valid one clears the error, starts loading and goes on to the
     * submission call (`callApi`).
     */
    method Submit() returns (callApi: bool)
      modifies this`isValidEmail, this`emailError, this`emailLoading
      ensures callApi <==> !old(emailLoading) && ValidateEmail(email)
      ensures old(emailLoading) ==>
        isValidEmail == old(isValidEmail) && emailError == old(emailError) && emailLoading
      ensures !old(emailLoading) ==> isValidEmail == ValidateEmail(email)
      ensures !old(emailLoading) && !ValidateEmail(email) ==> emailError == Some(InvalidEmailMessage) && !emailLoading
      ensures callApi ==> emailError == None && emailLoading
    {
      if emailLoading {
        return false;
      }
      var isEmailValid := ValidateEmail(email);
      isValidEmail := isEmailValid;
      if !isEmailValid {
        emailError := Some(InvalidEmailMessage);
        return false;
      }
      emailError := None;
      emailLoading := true;
      return true;
    }

    /** handleEmailChange: store the new text; an error shown so far is cleared together with the invalid mark. */
    method EmailChange(value: string)
      modifies this`email, this`emailError, this`isValidEmail
      ensures email == value
      ensures old(emailError).Some? ==> emailError == None && isValidEmail
      ensures old(emailError).None? ==> emailError == None && isValidEmail == old(isValidEmail)
    {
      email := value;
      if emailError.Some? {
        emailError := None;
        isValidEmail := true;
      }
    }
  }
}
