/**
 * The static tables of constants.ts: the two question banks with their role tags, the two
 * score-range tables that drive the classifiers, and the benchmark tables. Facts about
 * them are proved at the end of the module.
 */
module Constants {
  import opened Types
  import opened Strings
  import opened Bands

  // ---------------------------------------------------------------- Executive bank

  const GovernanceCulture: string := "Governance & Culture"
  const ProcessFramework: string := "Process & Framework"
  const ReportingCommunication: string := "Reporting & Communication"
  const RiskResponse: string := "Risk Response"
  const Integration: string := "Integration"
  const TechnologyCybersecurity: string := "Technology & Cybersecurity"
  const ThirdPartyRisk: string := "Third-Party Risk"
  const TalentCulture: string := "Talent & Culture"
  const RegulatoryGeopolitical: string := "Regulatory & Geopolitical Risk"
  const EsgReputational: string := "ESG & Reputational Risk"
  const IndustrySpecific: string := "Industry Specific"
  const ScenarioPlanning: string := "Scenario Planning and Future-Proofing"
  const DataProtection: string := "Data Protection & Whistleblowing"

  /** Values of the `csuiteOnly` flag: the question carries `role: 'csuite'`, or no role tag. */
  const CSuiteOnly: bool := true
  const AnyRole: bool := false

  /** Questions 1 to 34 of EXECUTIVE_QUESTIONS, in declaration order (question text omitted). */
  const ExecutiveQuestionsFirstPart: seq<ExecutiveQuestion> := [
    ExecutiveQuestion(1, GovernanceCulture, CSuiteOnly, [], None),
    ExecutiveQuestion(2, GovernanceCulture, CSuiteOnly, [], None),
    ExecutiveQuestion(3, ProcessFramework, AnyRole, [], None),
    ExecutiveQuestion(4, ProcessFramework, AnyRole, [], None),
    ExecutiveQuestion(5, ReportingCommunication, AnyRole, [], None),
    ExecutiveQuestion(6, ReportingCommunication, AnyRole, [], None),
    ExecutiveQuestion(7, RiskResponse, AnyRole, [], None),
    ExecutiveQuestion(8, RiskResponse, AnyRole, [], None),
    ExecutiveQuestion(9, Integration, CSuiteOnly, [], None),
    ExecutiveQuestion(10, Integration, AnyRole, [], None),
    ExecutiveQuestion(11, TechnologyCybersecurity, CSuiteOnly, [], None),
    ExecutiveQuestion(12, ThirdPartyRisk, AnyRole, [], None),
    ExecutiveQuestion(13, TalentCulture, CSuiteOnly, [], None),
    ExecutiveQuestion(14, RegulatoryGeopolitical, AnyRole, [], None),
    ExecutiveQuestion(15, EsgReputational, CSuiteOnly, [], None),
    ExecutiveQuestion(16, IndustrySpecific, AnyRole, ["Retail"], None),
    ExecutiveQuestion(17, IndustrySpecific, CSuiteOnly, ["Energy"], None),
    ExecutiveQuestion(18, IndustrySpecific, AnyRole, ["Health"], None),
    ExecutiveQuestion(19, IndustrySpecific, AnyRole, ["Construction"], None),
    ExecutiveQuestion(20, IndustrySpecific, CSuiteOnly, ["Telecoms"], None),
    ExecutiveQuestion(21, IndustrySpecific, AnyRole, ["Fintech"], None),
    ExecutiveQuestion(22, IndustrySpecific, CSuiteOnly, ["Real Estate"], None),
    ExecutiveQuestion(23, IndustrySpecific, AnyRole, ["ICT"], None),
    ExecutiveQuestion(24, IndustrySpecific, AnyRole, ["Retail"], None),
    ExecutiveQuestion(25, IndustrySpecific, CSuiteOnly, ["Energy"], None),
    ExecutiveQuestion(26, IndustrySpecific, AnyRole, ["Health"], None),
    ExecutiveQuestion(27, IndustrySpecific, AnyRole, ["Construction"], None),
    ExecutiveQuestion(28, IndustrySpecific, AnyRole, ["Telecoms"], None),
    ExecutiveQuestion(29, IndustrySpecific, AnyRole, ["Fintech"], None),
    ExecutiveQuestion(30, IndustrySpecific, AnyRole, ["Real Estate"], None),
    ExecutiveQuestion(31, IndustrySpecific, CSuiteOnly, ["ICT"], None),
    ExecutiveQuestion(32, ScenarioPlanning, CSuiteOnly, [], None),
    ExecutiveQuestion(33, ScenarioPlanning, AnyRole, [], None),
    ExecutiveQuestion(34, ScenarioPlanning, CSuiteOnly, [], None)
  ]

  /** Questions 35 to 67 of EXECUTIVE_QUESTIONS, in declaration order (question text omitted). */
  const ExecutiveQuestionsSecondPart: seq<ExecutiveQuestion> := [
    ExecutiveQuestion(35, IndustrySpecific, CSuiteOnly, ["Retail"], None),
    ExecutiveQuestion(36, IndustrySpecific, AnyRole, ["Energy"], None),
    ExecutiveQuestion(37, IndustrySpecific, CSuiteOnly, ["Health"], None),
    ExecutiveQuestion(38, IndustrySpecific, AnyRole, ["Construction"], None),
    ExecutiveQuestion(39, IndustrySpecific, CSuiteOnly, ["Telecoms"], None),
    ExecutiveQuestion(40, IndustrySpecific, AnyRole, ["Fintech"], None),
    ExecutiveQuestion(41, IndustrySpecific, AnyRole, ["Real Estate"], None),
    ExecutiveQuestion(42, IndustrySpecific, CSuiteOnly, ["ICT"], None),
    ExecutiveQuestion(43, GovernanceCulture, CSuiteOnly, [], None),
    ExecutiveQuestion(44, ProcessFramework, AnyRole, [], None),
    ExecutiveQuestion(45, ReportingCommunication, AnyRole, [], None),
    ExecutiveQuestion(46, DataProtection, AnyRole, [], Some("South Africa")),
    ExecutiveQuestion(47, DataProtection, CSuiteOnly, [], Some("South Africa")),
    ExecutiveQuestion(48, DataProtection, AnyRole, [], Some("South Africa")),
    ExecutiveQuestion(49, DataProtection, AnyRole, [], Some("South Africa")),
    ExecutiveQuestion(50, GovernanceCulture, CSuiteOnly, [], Some("South Africa")),
    ExecutiveQuestion(51, GovernanceCulture, CSuiteOnly, [], Some("South Africa")),
    ExecutiveQuestion(52, GovernanceCulture, CSuiteOnly, [], None),
    ExecutiveQuestion(53, DataProtection, AnyRole, [], Some("Lesotho")),
    ExecutiveQuestion(54, DataProtection, CSuiteOnly, [], Some("Lesotho")),
    ExecutiveQuestion(55, DataProtection, AnyRole, [], Some("United Kingdom")),
    ExecutiveQuestion(56, DataProtection, CSuiteOnly, [], Some("New Zealand")),
    ExecutiveQuestion(57, DataProtection, AnyRole, [], Some("New Zealand")),
    ExecutiveQuestion(58, DataProtection, CSuiteOnly, [], Some("United States")),
    ExecutiveQuestion(59, DataProtection, AnyRole, [], Some("United States")),
    ExecutiveQuestion(60, DataProtection, CSuiteOnly, [], Some("United States")),
    ExecutiveQuestion(61, DataProtection, AnyRole, [], Some("United States")),
    ExecutiveQuestion(62, DataProtection, CSuiteOnly, [], Some("Canada")),
    ExecutiveQuestion(63, DataProtection, AnyRole, [], Some("Canada")),
    ExecutiveQuestion(64, GovernanceCulture, CSuiteOnly, [], Some("Canada")),
    ExecutiveQuestion(65, DataProtection, CSuiteOnly, [], Some("Australia")),
    ExecutiveQuestion(66, DataProtection, CSuiteOnly, [], Some("Australia")),
    ExecutiveQuestion(67, GovernanceCulture, CSuiteOnly, [], Some("Australia"))
  ]

  /** EXECUTIVE_QUESTIONS */
  const ExecutiveQuestions: seq<ExecutiveQuestion> := ExecutiveQuestionsFirstPart + ExecutiveQuestionsSecondPart

  // ---------------------------------------------------------------- Score ranges

  /** EXECUTIVE_SCORE_RANGES, in declaration order (the order `for...in` visits its keys). */
  const ExecutiveScoreRanges: seq<Band> := [
    Band(0, 4, Initial, "Risk management is informal and reactive. Key practices are not yet established."),
    Band(5, 7, Managed, "Some foundational risk management practices are in place, but they are not consistently applied or integrated."),
    Band(8, 10, Defined, "A formal risk management process is established, with clear responsibilities and consistent application in most areas."),
    Band(11, 13, QuantitativelyManaged, "Risk management is data-driven, with performance measures and frequent reporting in place to manage risks effectively."),
    Band(14, 15, Optimized, "Risk management is a core, proactive part of strategic decision-making and continuous organizational improvement.")
  ]

  /** NFP_SCORE_RANGES, in declaration order. */
  const NfpScoreRanges: seq<Band> := [
    Band(1, 20, Initial, "Risk management is ad-hoc, with little to no formal process. Basic reporting might exist, but activities are reactive and inconsistent across the organization."),
    Band(21, 40, Managed, "The organization has assigned some resources and people to risk management. However, these efforts are not yet fully integrated into all mission-critical processes."),
    Band(41, 59, Defined, "A formal ERM process is established and integrated across most organizational functions. Responsibilities are clear, risk criteria are defined, and stakeholder engagement is a consistent practice."),
    Band(60, 79, QuantitativelyManaged, "The organization uses metrics and data analysis to manage risk. Performance against risk objectives is measured, and reporting on ERM effectiveness is frequent and comprehensive."),
    Band(80, 99, Optimized, "ERM is a dynamic, integral part of continuous improvement and strategic decision-making. The organization proactively evaluates outcomes to refine its risk processes and enhance mission impact.")
  ]

  // ---------------------------------------------------------------- Benchmarks

  /** One tier of a benchmark table: a reference level, its average total and per-category scores. */
  datatype Benchmark = Benchmark(level: Level, averageScore: nat, categoryScores: map<string, nat>)

  /** EXECUTIVE_BENCHMARK_SCORES.defined_level */
  const ExecutiveDefinedBenchmark: Benchmark := Benchmark(Defined, 12, map[
    GovernanceCulture := 3, ProcessFramework := 2, ReportingCommunication := 2, RiskResponse := 1,
    Integration := 1, TechnologyCybersecurity := 1, ThirdPartyRisk := 0, TalentCulture := 1,
    RegulatoryGeopolitical := 0, EsgReputational := 1, ScenarioPlanning := 0, DataProtection := 0])

  /** EXECUTIVE_BENCHMARK_SCORES.optimized_level */
  const ExecutiveOptimizedBenchmark: Benchmark := Benchmark(Optimized, 19, map[
    GovernanceCulture := 3, ProcessFramework := 3, ReportingCommunication := 3, RiskResponse := 2,
    Integration := 2, TechnologyCybersecurity := 1, TalentCulture := 1, RegulatoryGeopolitical := 1,
    EsgReputational := 1, ThirdPartyRisk := 1, ScenarioPlanning := 2, DataProtection := 1])

  /** NFP_BENCHMARK_SCORES.defined_level */
  const NfpDefinedBenchmark: Benchmark := Benchmark(Defined, 52, map[
    "c1" := 7, "c2" := 5, "c3" := 6, "c4" := 2, "c5" := 6, "c6" := 3, "c7" := 5, "c8" := 5,
    "c9" := 6, "c10" := 3, "c11" := 4])

  /** NFP_BENCHMARK_SCORES.optimized_level */
  const NfpOptimizedBenchmark: Benchmark := Benchmark(Optimized, 92, map[
    "c1" := 12, "c2" := 10, "c3" := 12, "c4" := 5, "c5" := 11, "c6" := 6, "c7" := 9, "c8" := 8,
    "c9" := 7, "c10" := 5, "c11" := 7])

  // ---------------------------------------------------------------- NFP bank

  /**
   * The ids of NFP_DATA follow one scheme: category k is "ck" and its n-th element is "k.n"
   * (so the tenth element of category 1 is "1.10").
   */
  function CategoryId(k: nat): string {
    "c" + DecimalString(k)
  }

  function ElementId(k: nat, n: nat): string {
    DecimalString(k) + "." + DecimalString(n)
  }

  /** Category number `k` with its title, optional country tag and the `role: 'executive'` tag of each element. */
  function MakeCategory(k: nat, title: string, country: Option<string>, executiveOnly: seq<bool>): (c: NfpCategory)
    ensures c.id == CategoryId(k) && c.title == title && c.country == country
    ensures |c.elements| == |executiveOnly|
    ensures forall n :: 0 <= n < |executiveOnly| ==>
      c.elements[n] == NfpElement(ElementId(k, n + 1), executiveOnly[n])
  {
    NfpCategory(CategoryId(k), title,
      seq(|executiveOnly|, n requires 0 <= n < |executiveOnly| => NfpElement(ElementId(k, n + 1), executiveOnly[n])),
      country)
  }

  const Exec: bool := true
  const All: bool := false

  /** The fourteen categories of NFP_DATA, in order: title, country tag, and each element's role tag. */
  const NfpRows: seq<(string, Option<string>, seq<bool>)> := [
    ("Risk Culture and Leadership", None, [All, Exec, Exec, Exec, Exec, Exec, All, All, Exec, Exec, Exec, All]),
    ("Risk Identification and Contextual Understanding", None, [All, All, All, All, All, All, Exec, All, Exec, All]),
    ("Risk Assessment and Prioritization (NFP-Specific)", None, [All, All, All, All, All, All, All, All, Exec, Exec, Exec, All, All]),
    ("Articulation of Risk Appetite and Strategic Tolerance", None, [Exec, Exec, Exec, Exec, Exec]),
    ("Risk Response and Control Activities", None, [Exec, All, All, All, All, All, All, All, All, All, All, All]),
    ("Risk Reporting and Stakeholder Communication", None, [All, All, All, Exec, Exec, Exec]),
    ("Integration with Strategic Planning and Mission Fulfillment", None, [All, All, Exec, Exec, Exec, Exec, All, Exec, Exec, All]),
    ("Assessment of ERM Effectiveness and Continuous Improvement", None, [All, All, Exec, Exec, Exec, All, All, Exec]),
    ("Professional Bodies/Associations", None, [All, All, All, Exec, All, All, Exec, Exec]),
    ("Thematic Risk Management", None, [All, All, All, All, Exec, All]),
    ("NPO Act Compliance (South Africa)", Some("South Africa"), [Exec, Exec, Exec, Exec, All, Exec]),
    ("Regulatory Framework (Lesotho)", Some("Lesotho"), [Exec, All, Exec, All]),
    ("Charity Framework (UK)", Some("United Kingdom"), [Exec, Exec, All, All]),
    ("Accountability Framework (New Zealand)", Some("New Zealand"), [Exec, All, All])
  ]

  /** NFP_DATA */
  const NfpData: seq<NfpCategory> :=
    seq(|NfpRows|, i requires 0 <= i < |NfpRows| => MakeCategory(i + 1, NfpRows[i].0, NfpRows[i].1, NfpRows[i].2))

  // ---------------------------------------------------------------- Facts about the tables

  /** Some element of the category carries no `role: 'executive'` tag. */
  predicate HasOpenElement(c: NfpCategory) {
    exists n :: 0 <= n < |c.elements| && !c.elements[n].executiveOnly
  }

  /** The Executive bank holds 67 questions whose ids are 1 to 67 in declaration order. */
  lemma ExecutiveQuestionIds()
    ensures |ExecutiveQuestions| == 67
    ensures forall i :: 0 <= i < |ExecutiveQuestions| ==> ExecutiveQuestions[i].id == i + 1
  {
    var first, second := ExecutiveQuestionsFirstPart, ExecutiveQuestionsSecondPart;
    FirstPartIds();
    SecondPartIds();
    forall i | 0 <= i < |ExecutiveQuestions| ensures ExecutiveQuestions[i].id == i + 1 {
      if i < 34 {
        assert ExecutiveQuestions[i] == first[i];
      } else {
        assert ExecutiveQuestions[i] == second[i - 34];
      }
    }
  }

  /** The first 34 questions are numbered 1 to 34. */
  lemma FirstPartIds()
    ensures |ExecutiveQuestionsFirstPart| == 34
    ensures forall i :: 0 <= i < 34 ==> ExecutiveQuestionsFirstPart[i].id == i + 1
  {
  }

  /** The other 33 are numbered 35 to 67. */
  lemma SecondPartIds()
    ensures |ExecutiveQuestionsSecondPart| == 33
    ensures forall i :: 0 <= i < 33 ==> ExecutiveQuestionsSecondPart[i].id == i + 35
  {
  }

  /** No two questions of the Executive bank share an id. */
  lemma ExecutiveQuestionIdsUnique()
    ensures forall i, j :: 0 <= i < j < |ExecutiveQuestions| ==> ExecutiveQuestions[i].id != ExecutiveQuestions[j].id
  {
    ExecutiveQuestionIds();
  }

  /**
   * The Executive ranges are five bands in ascending declaration order, pairwise disjoint
   * and contiguous, from 0 to 15, labelled Initial to Optimized.
   */
  lemma ExecutiveScoreRangesShape()
    ensures |ExecutiveScoreRanges| == 5
    ensures Contiguous(ExecutiveScoreRanges) && NamesKnownLevels(ExecutiveScoreRanges)
    ensures ExecutiveScoreRanges[0].min == 0 && ExecutiveScoreRanges[4].max == 15
    ensures forall i, j :: 0 <= i < j < 5 ==> ExecutiveScoreRanges[i].max < ExecutiveScoreRanges[j].min
    ensures ExecutiveScoreRanges[0].level == Initial && ExecutiveScoreRanges[1].level == Managed
    ensures ExecutiveScoreRanges[2].level == Defined && ExecutiveScoreRanges[3].level == QuantitativelyManaged
    ensures ExecutiveScoreRanges[4].level == Optimized
  {
  }

  /**
   * A score lies in some Executive band exactly when it is between 0 and 15, so every
   * score above 15 (reachable with a 67-question bank) classifies as 'Unknown'.
   */
  lemma ExecutiveScoreRangesCoverage(score: int)
    ensures (exists i :: 0 <= i < |ExecutiveScoreRanges| && Contains(ExecutiveScoreRanges[i], score)) <==> 0 <= score <= 15
    ensures !(0 <= score <= 15) ==> Classify(ExecutiveScoreRanges, score) == (Unknown, UnknownInterpretation)
    ensures 0 <= score <= 15 ==> Classify(ExecutiveScoreRanges, score).0 != Unknown
  {
    ExecutiveScoreRangesShape();
    ContiguousCoverage(ExecutiveScoreRanges, score);
    ClassifyContiguous(ExecutiveScoreRanges, score);
  }

  /** The NFP ranges are five bands in ascending declaration order, disjoint and contiguous, from 1 to 99. */
  lemma NfpScoreRangesShape()
    ensures |NfpScoreRanges| == 5
    ensures Contiguous(NfpScoreRanges) && NamesKnownLevels(NfpScoreRanges)
    ensures NfpScoreRanges[0].min == 1 && NfpScoreRanges[4].max == 99
    ensures forall i, j :: 0 <= i < j < 5 ==> NfpScoreRanges[i].max < NfpScoreRanges[j].min
    ensures NfpScoreRanges[0].level == Initial && NfpScoreRanges[1].level == Managed
    ensures NfpScoreRanges[2].level == Defined && NfpScoreRanges[3].level == QuantitativelyManaged
    ensures NfpScoreRanges[4].level == Optimized
  {
  }

  /** A score lies in some NFP band exactly when it is between 1 and 99: 0 and 100 or more are 'Unknown'. */
  lemma NfpScoreRangesCoverage(score: int)
    ensures (exists i :: 0 <= i < |NfpScoreRanges| && Contains(NfpScoreRanges[i], score)) <==> 1 <= score <= 99
    ensures !(1 <= score <= 99) ==> Classify(NfpScoreRanges, score) == (Unknown, UnknownInterpretation)
    ensures 1 <= score <= 99 ==> Classify(NfpScoreRanges, score).0 != Unknown
  {
    NfpScoreRangesShape();
    ContiguousCoverage(NfpScoreRanges, score);
    ClassifyContiguous(NfpScoreRanges, score);
  }

  /**
   * In both benchmark tables the Defined tier never exceeds the Optimized tier, neither in
   * a category nor on average; both tiers score the same categories; and the Executive
   * tables have no 'Industry Specific' entry.
   */
  lemma ExecutiveBenchmarksOrdered()
    ensures ExecutiveDefinedBenchmark.categoryScores.Keys == ExecutiveOptimizedBenchmark.categoryScores.Keys
    ensures forall c :: c in ExecutiveDefinedBenchmark.categoryScores ==>
      ExecutiveDefinedBenchmark.categoryScores[c] <= ExecutiveOptimizedBenchmark.categoryScores[c]
    ensures ExecutiveDefinedBenchmark.averageScore <= ExecutiveOptimizedBenchmark.averageScore
    ensures IndustrySpecific !in ExecutiveDefinedBenchmark.categoryScores
    ensures IndustrySpecific !in ExecutiveOptimizedBenchmark.categoryScores
  {
  }

  /** In the NFP benchmark table the Defined tier never exceeds the Optimized tier. */
  lemma NfpBenchmarksOrdered()
    ensures NfpDefinedBenchmark.categoryScores.Keys == NfpOptimizedBenchmark.categoryScores.Keys
    ensures forall c :: c in NfpDefinedBenchmark.categoryScores ==>
      NfpDefinedBenchmark.categoryScores[c] <= NfpOptimizedBenchmark.categoryScores[c]
    ensures NfpDefinedBenchmark.averageScore <= NfpOptimizedBenchmark.averageScore
  {
  }

  /** The NFP bank has fourteen categories "c1" to "c14", and element n of category k is "k.n". */
  lemma NfpDataIds()
    ensures |NfpData| == 14
    ensures forall i :: 0 <= i < |NfpData| ==> NfpData[i].id == CategoryId(i + 1)
    ensures forall i, n :: 0 <= i < |NfpData| && 0 <= n < |NfpData[i].elements| ==>
      NfpData[i].elements[n].id == ElementId(i + 1, n + 1)
  {
  }

  /** A decimal rendering contains no '.'. */
  lemma DecimalHasNoDot(k: nat)
    ensures '.' !in DecimalString(k)
  {
    DecimalRoundTrip(k);
    var s := DecimalString(k);
    assert forall i :: 0 <= i < |s| ==> s[i] != '.';
  }

  /** In `a + "." + b` with no '.' in `a`, the first '.' is the one after `a`. */
  lemma DotIndexAfterPrefix(a: string, b: string)
    requires '.' !in a
    ensures IndexOf(a + "." + b, '.') == |a|
  {
    var s := a + "." + b;
    assert s[|a|] == '.';
    assert forall k :: 0 <= k < |a| ==> s[k] == a[k] != '.';
    var r := IndexOf(s, '.');
    assert r != -1;
    assert !(r < |a|) && !(r > |a|);
  }

  /** "k.n" determines both k and n. */
  lemma ElementIdInjective(k1: nat, n1: nat, k2: nat, n2: nat)
    ensures ElementId(k1, n1) == ElementId(k2, n2) ==> k1 == k2 && n1 == n2
  {
    var a, b, c, d := DecimalString(k1), DecimalString(n1), DecimalString(k2), DecimalString(n2);
    DecimalHasNoDot(k1);
    DecimalHasNoDot(k2);
    DotIndexAfterPrefix(a, b);
    DotIndexAfterPrefix(c, d);
    DecimalInjective(k1, k2);
    DecimalInjective(n1, n2);
    var s := ElementId(k1, n1);
    if s == ElementId(k2, n2) {
      assert |a| == |c|;
      assert a == s[..|a|] == c;
      assert b == s[|a| + 1..] == d;
    }
  }

  /** Category ids of NFP_DATA are pairwise distinct, and so are element ids across the whole table. */
  lemma NfpIdsUnique()
    ensures forall i, j :: 0 <= i < j < |NfpData| ==> NfpData[i].id != NfpData[j].id
    ensures forall i1, n1, i2, n2 ::
      0 <= i1 < |NfpData| && 0 <= n1 < |NfpData[i1].elements| &&
      0 <= i2 < |NfpData| && 0 <= n2 < |NfpData[i2].elements| &&
      NfpData[i1].elements[n1].id == NfpData[i2].elements[n2].id
      ==> i1 == i2 && n1 == n2
  {
    NfpDataIds();
    NumberedIdsUnique(NfpData);
  }

  /** Categories numbered "ck" in order, with elements numbered "k.n", have pairwise distinct ids. */
  lemma NumberedIdsUnique(data: seq<NfpCategory>)
    requires forall i :: 0 <= i < |data| ==> data[i].id == CategoryId(i + 1)
    requires forall i, n :: 0 <= i < |data| && 0 <= n < |data[i].elements| ==>
      data[i].elements[n].id == ElementId(i + 1, n + 1)
    ensures forall i, j :: 0 <= i < j < |data| ==> data[i].id != data[j].id
    ensures forall i1, n1, i2, n2 ::
      0 <= i1 < |data| && 0 <= n1 < |data[i1].elements| &&
      0 <= i2 < |data| && 0 <= n2 < |data[i2].elements| &&
      data[i1].elements[n1].id == data[i2].elements[n2].id
      ==> i1 == i2 && n1 == n2
  {
    forall i, j | 0 <= i < j < |data| ensures data[i].id != data[j].id {
      CategoryIdInjective(i + 1, j + 1);
    }
    forall i1, n1, i2, n2 |
      0 <= i1 < |data| && 0 <= n1 < |data[i1].elements| &&
      0 <= i2 < |data| && 0 <= n2 < |data[i2].elements| &&
      data[i1].elements[n1].id == data[i2].elements[n2].id
      ensures i1 == i2 && n1 == n2
    {
      ElementIdInjective(i1 + 1, n1 + 1, i2 + 1, n2 + 1);
    }
  }

  /** "ck" determines k. */
  lemma CategoryIdInjective(a: nat, b: nat)
    ensures CategoryId(a) == CategoryId(b) ==> a == b
  {
    DecimalInjective(a, b);
    var x, y := DecimalString(a), DecimalString(b);
    assert CategoryId(a)[1..] == x && CategoryId(b)[1..] == y;
  }

  /**
   * Category "c4" consists solely of executive-only elements, while every other category
   * has at least one element open to all roles.
   */
  lemma NfpExecutiveOnlyCategory()
    ensures NfpData[3].id == "c4"
    ensures forall n :: 0 <= n < |NfpData[3].elements| ==> NfpData[3].elements[n].executiveOnly
    ensures forall i :: 0 <= i < |NfpData| && i != 3 ==> HasOpenElement(NfpData[i])
  {
    NfpDataIds();
    var open := [0, 0, 0, 0, 1, 0, 0, 0, 0, 0, 4, 1, 2, 1];
    forall i | 0 <= i < |NfpData| && i != 3 ensures HasOpenElement(NfpData[i]) {
      assert !NfpData[i].elements[open[i]].executiveOnly;
    }
  }
}
