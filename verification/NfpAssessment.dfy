/**
 * The NFP & NGO questionnaire controller (components/NfpAssessment.tsx): the role filter
 * over the categorised element bank, the session state driven by the handlers, and the
 * per-category and overall scoring with its classification.
 */
module NfpAssessment {
  import opened Types
  import opened Bands
  import Constants

  // ---------------------------------------------------------------- filteredNfpData

  /** `elements.filter(element => element.role !== 'executive')` */
  function OpenElements(elements: seq<NfpElement>): (r: seq<NfpElement>)
    ensures |r| <= |elements|
  {
    if |elements| == 0 then []
    else (if elements[0].executiveOnly then [] else [elements[0]]) + OpenElements(elements[1..])
  }

  lemma {:induction false} OpenElementsMembers(elements: seq<NfpElement>)
    ensures forall e :: e in OpenElements(elements) <==> e in elements && !e.executiveOnly
  {
    if |elements| > 0 {
      OpenElementsMembers(elements[1..]);
      assert forall e :: e in elements <==> e == elements[0] || e in elements[1..] by {
        assert elements == [elements[0]] + elements[1..];
      }
    }
  }

  /** Filtering a concatenation filters each part and keeps their order. */
  lemma {:induction false} OpenElementsAppend(a: seq<NfpElement>, b: seq<NfpElement>)
    ensures OpenElements(a + b) == OpenElements(a) + OpenElements(b)
  {
    if |a| == 0 {
      assert a + b == b;
    } else {
      var head := if a[0].executiveOnly then [] else [a[0]];
      var ab := a + b;
      assert ab[0] == a[0];
      assert ab[1..] == a[1..] + b;
      assert OpenElements(ab) == head + OpenElements(ab[1..]);
      OpenElementsAppend(a[1..], b);
      assert OpenElements(a) == head + OpenElements(a[1..]);
    }
  }

  /** A category keeps at least one element after stripping exactly when one of its elements is open to all roles. */
  lemma {:induction false} OpenElementsNonEmpty(elements: seq<NfpElement>)
    ensures |OpenElements(elements)| > 0 <==> exists n :: 0 <= n < |elements| && !elements[n].executiveOnly
  {
    OpenElementsMembers(elements);
    if |OpenElements(elements)| > 0 {
      var e := OpenElements(elements)[0];
      assert e in OpenElements(elements);
      var n :| 0 <= n < |elements| && elements[n] == e;
    }
    if exists n :: 0 <= n < |elements| && !elements[n].executiveOnly {
      var n :| 0 <= n < |elements| && !elements[n].executiveOnly;
      assert elements[n] in OpenElements(elements);
    }
  }

  /** `{ ...category, elements: <open elements> }` */
  function StripExecutive(c: NfpCategory): (r: NfpCategory)
    ensures r.id == c.id && r.title == c.title && r.country == c.country
    ensures forall e :: e in r.elements <==> e in c.elements && !e.executiveOnly
    ensures |r.elements| > 0 <==> Constants.HasOpenElement(c)
  {
    OpenElementsMembers(c.elements);
    OpenElementsNonEmpty(c.elements);
    c.(elements := OpenElements(c.elements))
  }

  /** `.filter(category => category.elements.length > 0)` */
  function NonEmptyCategories(data: seq<NfpCategory>): (r: seq<NfpCategory>)
    ensures |r| <= |data|
  {
    if |data| == 0 then []
    else (if |data[0].elements| == 0 then [] else [data[0]]) + NonEmptyCategories(data[1..])
  }

  lemma {:induction false} NonEmptyCategoriesMembers(data: seq<NfpCategory>)
    ensures forall c :: c in NonEmptyCategories(data) <==> c in data && |c.elements| > 0
  {
    if |data| > 0 {
      NonEmptyCategoriesMembers(data[1..]);
      assert forall c :: c in data <==> c == data[0] || c in data[1..] by {
        assert data == [data[0]] + data[1..];
      }
    }
  }

  /** Dropping the empty categories of a concatenation drops them from each part and keeps their order. */
  lemma {:induction false} NonEmptyCategoriesAppend(a: seq<NfpCategory>, b: seq<NfpCategory>)
    ensures NonEmptyCategories(a + b) == NonEmptyCategories(a) + NonEmptyCategories(b)
  {
    if |a| == 0 {
      assert a + b == b;
    } else {
      var head := if |a[0].elements| == 0 then [] else [a[0]];
      var ab := a + b;
      assert ab[0] == a[0];
      assert ab[1..] == a[1..] + b;
      assert NonEmptyCategories(ab) == head + NonEmptyCategories(ab[1..]);
      NonEmptyCategoriesAppend(a[1..], b);
      assert NonEmptyCategories(a) == head + NonEmptyCategories(a[1..]);
    }
  }

  /**
   * Every category stripped of its executive-only elements, in order: each entry keeps the
   * id, title and country of its category, holds only that category's open elements, and
   * is non-empty exactly when the category has an element open to every role.
   */
  function StripAll(data: seq<NfpCategory>): (r: seq<NfpCategory>)
    ensures |r| == |data|
    ensures forall i :: 0 <= i < |data| ==> r[i] == StripExecutive(data[i])
    ensures forall i :: 0 <= i < |data| ==>
      r[i].id == data[i].id && r[i].title == data[i].title && r[i].country == data[i].country
    ensures forall i, e :: 0 <= i < |data| && e in r[i].elements ==> e in data[i].elements && !e.executiveOnly
    ensures forall i :: 0 <= i < |data| ==> (|r[i].elements| > 0 <==> Constants.HasOpenElement(data[i]))
  {
    seq(|data|, i requires 0 <= i < |data| => StripExecutive(data[i]))
  }

  /**
   * The categories a respondent works through: none before a role is chosen, the whole
   * bank for 'executive', and for every other role each category stripped of its
   * executive-only elements, dropping those left empty. The country tag is not consulted.
   */
  function FilterNfpData(data: seq<NfpCategory>, role: Option<NfpUserRole>): (r: seq<NfpCategory>)
    ensures role.None? ==> r == []
    ensures role == Some(NfpExecutive) ==> r == data
    ensures role.Some? && role != Some(NfpExecutive) ==> forall c :: c in r <==>
      exists d :: d in data && Constants.HasOpenElement(d) && c == StripExecutive(d)
    ensures role.Some? && role != Some(NfpExecutive) ==> forall c :: c in r ==>
      |c.elements| > 0 && forall e :: e in c.elements ==> !e.executiveOnly
  {
    match role
    case None => []
    case Some(NfpExecutive) => data
    case Some(_) =>
      var stripped := StripAll(data);
      NonEmptyCategoriesMembers(stripped);
      assert forall c :: c in stripped <==> exists d :: d in data && c == StripExecutive(d) by {
        forall c | c in stripped ensures exists d :: d in data && c == StripExecutive(d) {
          var i :| 0 <= i < |stripped| && stripped[i] == c;
          assert data[i] in data;
        }
        forall d | d in data ensures StripExecutive(d) in stripped {
          var i :| 0 <= i < |data| && data[i] == d;
          assert stripped[i] == StripExecutive(d);
        }
      }
      NonEmptyCategories(stripped)
  }

  /** Stripping a concatenation strips each part. */
  lemma StripAllAppend(a: seq<NfpCategory>, b: seq<NfpCategory>)
    ensures StripAll(a + b) == StripAll(a) + StripAll(b)
  {
    assert forall i :: 0 <= i < |a + b| ==> StripAll(a + b)[i] == (StripAll(a) + StripAll(b))[i] by {
      forall i | 0 <= i < |a + b| ensures StripAll(a + b)[i] == (StripAll(a) + StripAll(b))[i] {
        if i < |a| {
          assert (a + b)[i] == a[i];
        } else {
          assert (a + b)[i] == b[i - |a|];
        }
      }
    }
  }

  /**
   * The role filter works category by category: filtering two banks one after the other
   * gives the same categories, in the same order, as filtering their concatenation.
   */
  lemma FilterNfpDataAppend(a: seq<NfpCategory>, b: seq<NfpCategory>, role: Option<NfpUserRole>)
    ensures FilterNfpData(a + b, role) == FilterNfpData(a, role) + FilterNfpData(b, role)
  {
    if role.Some? && role != Some(NfpExecutive) {
      StripAllAppend(a, b);
      NonEmptyCategoriesAppend(StripAll(a), StripAll(b));
    }
  }

  /**
   * On a single category a role other than 'executive' keeps the category, stripped, exactly
   * when it has an open element; with FilterNfpDataAppend this fixes the output category by
   * category, in the table's order.
   */
  lemma FilterNfpDataOne(d: NfpCategory, role: NfpUserRole)
    requires role != NfpExecutive
    ensures FilterNfpData([d], Some(role)) == if Constants.HasOpenElement(d) then [StripExecutive(d)] else []
  {
    var stripped := StripAll([d]);
    assert stripped == [StripExecutive(d)];
    assert stripped[1..] == [];
  }

  /** Dropping the categories at the positions that are empty: with exactly one, it is removed and the rest keep their order. */
  lemma {:induction false} NonEmptyCategoriesDropsOne(data: seq<NfpCategory>, k: nat)
    requires k < |data|
    requires forall i :: 0 <= i < |data| ==> (|data[i].elements| == 0 <==> i == k)
    ensures NonEmptyCategories(data) == data[..k] + data[k + 1..]
  {
    if k == 0 {
      NonEmptyCategoriesKeepsAll(data[1..]);
    } else {
      NonEmptyCategoriesDropsOne(data[1..], k - 1);
      assert data[..k] == [data[0]] + data[1..][..k - 1];
      assert data[k + 1..] == data[1..][k..];
    }
  }

  /** A list of non-empty categories is left as it is. */
  lemma {:induction false} NonEmptyCategoriesKeepsAll(data: seq<NfpCategory>)
    requires forall i :: 0 <= i < |data| ==> |data[i].elements| > 0
    ensures NonEmptyCategories(data) == data
  {
    if |data| > 0 {
      NonEmptyCategoriesKeepsAll(data[1..]);
      assert data == [data[0]] + data[1..];
    }
  }

  /**
   * When exactly category `k` has no element open to every role, a non-executive role loses
   * that category only, and keeps the others stripped, in order.
   */
  lemma SkipsOnlyClosedCategory(data: seq<NfpCategory>, k: nat, role: NfpUserRole)
    requires role != NfpExecutive && k < |data|
    requires !Constants.HasOpenElement(data[k])
    requires forall i :: 0 <= i < |data| && i != k ==> Constants.HasOpenElement(data[i])
    requires forall i, j :: 0 <= i < j < |data| ==> data[i].id != data[j].id
    ensures var r := FilterNfpData(data, Some(role));
      && |r| == |data| - 1
      && (forall i :: 0 <= i < k ==> r[i] == StripExecutive(data[i]))
      && (forall i :: k <= i < |data| - 1 ==> r[i] == StripExecutive(data[i + 1]))
      && forall c :: c in r ==> c.id != data[k].id
  {
    var stripped := StripAll(data);
    StrippedEmptyOnlyAt(data, k);
    NonEmptyCategoriesDropsOne(stripped, k);
    var r := FilterNfpData(data, Some(role));
    assert r == NonEmptyCategories(stripped) == stripped[..k] + stripped[k + 1..];
    forall i | 0 <= i < k ensures r[i] == StripExecutive(data[i]) {
      assert r[i] == stripped[i];
    }
    forall i | k <= i < |data| - 1 ensures r[i] == StripExecutive(data[i + 1]) {
      assert r[i] == stripped[i + 1];
    }
    RemainingIds(data, k, r);
  }

  lemma StrippedEmptyOnlyAt(data: seq<NfpCategory>, k: nat)
    requires k < |data|
    requires !Constants.HasOpenElement(data[k])
    requires forall i :: 0 <= i < |data| && i != k ==> Constants.HasOpenElement(data[i])
    ensures forall i :: 0 <= i < |data| ==> (|StripAll(data)[i].elements| == 0 <==> i == k)
  {
    forall i | 0 <= i < |data| ensures (|StripAll(data)[i].elements| == 0 <==> i == k) {
      assert StripAll(data)[i] == StripExecutive(data[i]);
    }
  }

  lemma RemainingIds(data: seq<NfpCategory>, k: nat, r: seq<NfpCategory>)
    requires k < |data|
    requires forall i, j :: 0 <= i < j < |data| ==> data[i].id != data[j].id
    requires r == StripAll(data)[..k] + StripAll(data)[k + 1..]
    ensures forall c :: c in r ==> c.id != data[k].id
  {
    var stripped := StripAll(data);
    assert |r| == |data| - 1;
    forall i | 0 <= i < |r| ensures r[i].id != data[k].id {
      var j := if i < k then i else i + 1;
      assert r[i] == stripped[j];
      assert stripped[j].id == data[j].id;
      assert j != k;
      if j < k {
        assert data[j].id != data[k].id;
      } else {
        assert data[k].id != data[j].id;
      }
    }
  }

  /**
   * With the bank as published, every role other than 'executive' loses exactly category
   * "c4" (whose elements are all executive-only) and keeps the other thirteen, in order.
   */
  lemma ManagerSkipsExecutiveCategory(role: NfpUserRole)
    requires role != NfpExecutive
    ensures var r := FilterNfpData(Constants.NfpData, Some(role));
      && |r| == 13
      && (forall i :: 0 <= i < 3 ==> r[i] == StripExecutive(Constants.NfpData[i]))
      && (forall i :: 3 <= i < 13 ==> r[i] == StripExecutive(Constants.NfpData[i + 1]))
      && forall c :: c in r ==> c.id != "c4"
  {
    Constants.NfpDataIds();
    Constants.NfpExecutiveOnlyCategory();
    Constants.NfpIdsUnique();
    SkipsOnlyClosedCategory(Constants.NfpData, 3, role);
  }

  // ---------------------------------------------------------------- result

  /** `answers[element.id]` is truthy: the element was answered `true`. */
  predicate IsYes(answers: NfpAnswers, id: string) {
    id in answers && answers[id]
  }

  /** `elements.reduce((sum, element) => sum + (answers[element.id] ? 1 : 0), 0)` */
  function RawScore(elements: seq<NfpElement>, answers: NfpAnswers): (r: nat)
    ensures r <= |elements|
    ensures r == 0 <==> forall n :: 0 <= n < |elements| ==> !IsYes(answers, elements[n].id)
    ensures r == |elements| <==> forall n :: 0 <= n < |elements| ==> IsYes(answers, elements[n].id)
    decreases |elements|
  {
    if |elements| == 0 then 0
    else
      var init := elements[..|elements| - 1];
      assert forall n :: 0 <= n < |init| ==> init[n] == elements[n];
      RawScore(init, answers) + (if IsYes(answers, elements[|elements| - 1].id) then 1 else 0)
  }

  /** `total > 0 ? raw / total : 0`: the share of `total` that `raw` is, and 0 for an empty total. */
  function Fraction(raw: nat, total: nat): (r: real)
    ensures total > 0 ==> r * total as real == raw as real
    ensures total == 0 ==> r == 0.0
  {
    if total > 0 then raw as real / total as real else 0.0
  }

  /** A fraction of a count that does not exceed its total lies in [0, 1], and is 1 exactly for a full, non-empty total. */
  lemma FractionBounds(raw: nat, total: nat)
    requires raw <= total
    ensures 0.0 <= Fraction(raw, total) <= 1.0
    ensures Fraction(raw, total) == 1.0 <==> total > 0 && raw == total
    ensures Fraction(raw, total) == 0.0 <==> raw == 0 || total == 0
    ensures total > 0 ==> Fraction(raw, total) * total as real == raw as real
  {
    if total > 0 {
      var r, t := raw as real, total as real;
      var f := r / t;
      assert f * t == r;
      assert 0.0 <= f;
      assert f <= 1.0 by {
        assert f * t <= 1.0 * t;
      }
      assert f == 1.0 <==> r == t;
      assert f == 0.0 <==> r == 0.0;
    }
  }

  /** One entry of `categoryResults`. */
  function CategoryResult(c: NfpCategory, answers: NfpAnswers): (r: NfpCategoryResult)
    ensures r.categoryId == c.id && r.title == c.title && r.totalElements == |c.elements|
    ensures r.rawScore == RawScore(c.elements, answers) && r.rawScore <= r.totalElements
    ensures r.percentage == Fraction(r.rawScore, r.totalElements)
    ensures 0.0 <= r.percentage <= 1.0
    ensures r.percentage == 1.0 <==> |c.elements| > 0 && forall n :: 0 <= n < |c.elements| ==> IsYes(answers, c.elements[n].id)
    ensures r.percentage == 0.0 <==> forall n :: 0 <= n < |c.elements| ==> !IsYes(answers, c.elements[n].id)
  {
    var totalElements := |c.elements|;
    var rawScore := RawScore(c.elements, answers);
    FractionBounds(rawScore, totalElements);
    NfpCategoryResult(c.id, c.title, rawScore, totalElements, Fraction(rawScore, totalElements))
  }

  /**
   * `filteredNfpData.map(...)`: one result per category, in order, each scoring its own
   * category's elements and lying in [0, 1].
   */
  function CategoryResults(data: seq<NfpCategory>, answers: NfpAnswers): (r: seq<NfpCategoryResult>)
    ensures |r| == |data|
    ensures forall i :: 0 <= i < |data| ==> r[i] == CategoryResult(data[i], answers)
    ensures forall i :: 0 <= i < |data| ==>
      && r[i].categoryId == data[i].id
      && r[i].totalElements == |data[i].elements|
      && r[i].rawScore == RawScore(data[i].elements, answers) <= r[i].totalElements
      && 0.0 <= r[i].percentage <= 1.0
  {
    seq(|data|, i requires 0 <= i < |data| => CategoryResult(data[i], answers))
  }

  /** `categoryResults.reduce((sum, res) => sum + res.rawScore, 0)` */
  function SumRawScores(results: seq<NfpCategoryResult>): (r: nat)
    ensures r == 0 <==> forall i :: 0 <= i < |results| ==> results[i].rawScore == 0
    ensures forall i :: 0 <= i < |results| ==> results[i].rawScore <= r
  {
    if |results| == 0 then 0 else results[0].rawScore + SumRawScores(results[1..])
  }

  /** `filteredNfpData.reduce((sum, category) => sum + category.elements.length, 0)` */
  function SumElements(data: seq<NfpCategory>): (r: nat)
    ensures r == 0 <==> forall i :: 0 <= i < |data| ==> |data[i].elements| == 0
    ensures forall i :: 0 <= i < |data| ==> |data[i].elements| <= r
  {
    if |data| == 0 then 0 else |data[0].elements| + SumElements(data[1..])
  }

  /** The total raw score never exceeds the number of elements, and reaches it exactly when every element is answered `true`. */
  lemma {:induction false} TotalScoreBounds(data: seq<NfpCategory>, answers: NfpAnswers)
    ensures SumRawScores(CategoryResults(data, answers)) <= SumElements(data)
    ensures SumRawScores(CategoryResults(data, answers)) == SumElements(data) <==>
      forall i, n :: 0 <= i < |data| && 0 <= n < |data[i].elements| ==> IsYes(answers, data[i].elements[n].id)
  {
    if |data| > 0 {
      TotalScoreBounds(data[1..], answers);
      assert CategoryResults(data, answers)[1..] == CategoryResults(data[1..], answers);
      var head := CategoryResult(data[0], answers);
      assert CategoryResults(data, answers)[0] == head;
      if forall i, n :: 0 <= i < |data| && 0 <= n < |data[i].elements| ==> IsYes(answers, data[i].elements[n].id) {
        assert forall n :: 0 <= n < |data[0].elements| ==> IsYes(answers, data[0].elements[n].id);
        assert forall i, n :: 0 <= i < |data| - 1 && 0 <= n < |data[1..][i].elements| ==> IsYes(answers, data[1..][i].elements[n].id) by {
          forall i, n | 0 <= i < |data| - 1 && 0 <= n < |data[1..][i].elements| ensures IsYes(answers, data[1..][i].elements[n].id) {
            assert data[1..][i] == data[i + 1];
          }
        }
      }
      if SumRawScores(CategoryResults(data, answers)) == SumElements(data) {
        forall i, n | 0 <= i < |data| && 0 <= n < |data[i].elements| ensures IsYes(answers, data[i].elements[n].id) {
          if i > 0 {
            assert data[i] == data[1..][i - 1];
          }
        }
      }
    }
  }

  /**
   * The result pass. No result unless the results are shown (there is no guard for an empty
   * category list); otherwise one entry per category, the total of the raw scores, the total
   * number of elements, their ratio (0 when there are no elements) and the classification of
   * the total by the first range holding it.
   */
  method ComputeResult(showResults: bool, filtered: seq<NfpCategory>, answers: NfpAnswers, ranges: seq<Band>)
    returns (result: Option<NfpResult>)
    ensures result.None? <==> !showResults
    ensures result.Some? ==>
      && result.value.categoryResults == CategoryResults(filtered, answers)
      && result.value.totalScore == SumRawScores(CategoryResults(filtered, answers))
      && result.value.totalPossibleElements == SumElements(filtered)
      && result.value.totalScore <= result.value.totalPossibleElements
      && result.value.grandPercentage == Fraction(result.value.totalScore, result.value.totalPossibleElements)
      && 0.0 <= result.value.grandPercentage <= 1.0
      && (result.value.level, result.value.interpretation) == Classify(ranges, result.value.totalScore)
  {
    if !showResults {
      return None;
    }
    var categoryResults := CategoryResults(filtered, answers);
    var totalScore := SumRawScores(categoryResults);
    var totalPossibleElements := SumElements(filtered);
    TotalScoreBounds(filtered, answers);
    FractionBounds(totalScore, totalPossibleElements);
    var grandPercentage := Fraction(totalScore, totalPossibleElements);
    var level, interpretation := ClassifyScore(ranges, totalScore);
    return Some(NfpResult(categoryResults, totalScore, totalPossibleElements, grandPercentage, level, interpretation));
  }

  // ---------------------------------------------------------------- facts about the scores

  /** Turning any answer into `true` never lowers a raw score. */
  lemma {:induction false} RawScoreMonotone(elements: seq<NfpElement>, answers: NfpAnswers, id: string)
    ensures RawScore(elements, answers[id := true]) >= RawScore(elements, answers)
    decreases |elements|
  {
    if |elements| > 0 {
      RawScoreMonotone(elements[..|elements| - 1], answers, id);
    }
  }

  /** Turning any answer into `true` never lowers the total score. */
  lemma {:induction false} TotalScoreMonotone(data: seq<NfpCategory>, answers: NfpAnswers, id: string)
    ensures SumRawScores(CategoryResults(data, answers[id := true])) >= SumRawScores(CategoryResults(data, answers))
  {
    if |data| > 0 {
      TotalScoreMonotone(data[1..], answers, id);
      assert CategoryResults(data, answers)[1..] == CategoryResults(data[1..], answers);
      assert CategoryResults(data, answers[id := true])[1..] == CategoryResults(data[1..], answers[id := true]);
      RawScoreMonotone(data[0].elements, answers, id);
    }
  }

  lemma SumElementsAppend(a: seq<NfpCategory>, b: seq<NfpCategory>)
    ensures SumElements(a + b) == SumElements(a) + SumElements(b)
  {
    if |a| > 0 {
      assert (a + b)[1..] == a[1..] + b;
      SumElementsAppend(a[1..], b);
    } else {
      assert a + b == b;
    }
  }

  function SumOf(counts: seq<nat>): nat {
    if |counts| == 0 then 0 else counts[0] + SumOf(counts[1..])
  }

  lemma {:induction false} SumElementsOfCounts(data: seq<NfpCategory>, counts: seq<nat>)
    requires |data| == |counts|
    requires forall i :: 0 <= i < |data| ==> |data[i].elements| == counts[i]
    ensures SumElements(data) == SumOf(counts)
  {
    if |data| > 0 {
      SumElementsOfCounts(data[1..], counts[1..]);
    }
  }

  /** The NFP bank holds 107 elements. */
  lemma NfpDataSize()
    ensures SumElements(Constants.NfpData) == 107
  {
    var data := Constants.NfpData;
    Constants.NfpDataIds();
    var counts: seq<nat> := [12, 10, 13, 5, 12, 6, 10, 8, 8, 6, 6, 4, 4, 3];
    forall i | 0 <= i < 14 ensures |data[i].elements| == counts[i] {
    }
    SumElementsOfCounts(data, counts);
  }

  /** Every element answered `true`. */
  function AllYes(data: seq<NfpCategory>): (a: NfpAnswers)
    ensures forall i, n :: 0 <= i < |data| && 0 <= n < |data[i].elements| ==> IsYes(a, data[i].elements[n].id)
  {
    var ids := set i, n | 0 <= i < |data| && 0 <= n < |data[i].elements| :: data[i].elements[n].id;
    map id | id in ids :: true
  }

  /** Answering every element `true` scores every element. */
  lemma FullMarks(data: seq<NfpCategory>)
    ensures SumRawScores(CategoryResults(data, AllYes(data))) == SumElements(data)
  {
    TotalScoreBounds(data, AllYes(data));
  }

  /** An 'executive' respondent who answers every element `true` scores the size of the whole bank. */
  lemma ExecutiveFullMarks(data: seq<NfpCategory>, total: nat)
    requires SumElements(data) == total
    ensures var f := FilterNfpData(data, Some(NfpExecutive));
      SumRawScores(CategoryResults(f, AllYes(f))) == total
  {
    FullMarks(data);
  }

  /**
   * The NFP ranges start at 1 and stop at 99, while an 'executive' respondent faces 107
   * elements: a total of 0, or any total from 100 to 107 (reached by answering every element
   * `true`), is classified 'Unknown'.
   */
  lemma ExecutiveExtremesAreUnknown()
    ensures Classify(Constants.NfpScoreRanges, 0) == (Unknown, UnknownInterpretation)
    ensures var data := FilterNfpData(Constants.NfpData, Some(NfpExecutive));
      && SumRawScores(CategoryResults(data, AllYes(data))) == 107
      && forall score :: 100 <= score <= 107 ==> Classify(Constants.NfpScoreRanges, score) == (Unknown, UnknownInterpretation)
  {
    Constants.NfpScoreRangesCoverage(0);
    NfpDataSize();
    ExecutiveFullMarks(Constants.NfpData, 107);
    forall score | 100 <= score <= 107 ensures Classify(Constants.NfpScoreRanges, score) == (Unknown, UnknownInterpretation) {
      Constants.NfpScoreRangesCoverage(score);
    }
  }

  // ---------------------------------------------------------------- session

  /** The controller's state: chosen role, answers, current category and whether results are shown. */
  class NfpSession {
    const data: seq<NfpCategory>
    var userRole: Option<NfpUserRole>
    var currentCategoryIndex: int
    var answers: NfpAnswers
    var showResults: bool

    function FilteredData(): seq<NfpCategory>
      reads this`userRole
    {
      FilterNfpData(data, userRole)
    }

    /**
     * `filteredNfpData[currentCategoryIndex]`, absent when the index names no category; a
     * respondent who is not an executive is never shown an empty category or an
     * executive-only element.
     */
    function CurrentCategory(): (r: Option<NfpCategory>)
      reads this`userRole, this`currentCategoryIndex
      ensures r.Some? <==> 0 <= currentCategoryIndex < |FilteredData()|
      ensures r.Some? ==> r.value in FilteredData()
      ensures r.Some? && userRole != Some(NfpExecutive) ==>
        |r.value.elements| > 0 && forall e :: e in r.value.elements ==> !e.executiveOnly
    {
      var filtered := FilteredData();
      if 0 <= currentCategoryIndex < |filtered| then Some(filtered[currentCategoryIndex]) else None
    }

    /** The category index names a category, or is 0 when there are none. */
    predicate Valid()
      reads this`userRole, this`currentCategoryIndex
    {
      0 <= currentCategoryIndex && (currentCategoryIndex < |FilteredData()| || currentCategoryIndex == 0)
    }

    constructor(data: seq<NfpCategory>)
      ensures this.data == data && userRole == None && currentCategoryIndex == 0
      ensures answers == map[] && !showResults
      ensures Valid()
    {
      this.data := data;
      userRole := None;
      currentCategoryIndex := 0;
      answers := map[];
      showResults := false;
    }

    /** The role picker sets the role and nothing else: answers and category index are kept. */
    method SelectRole(role: NfpUserRole)
      modifies this`userRole
      ensures userRole == Some(role)
      ensures currentCategoryIndex == 0 ==> Valid()
    {
      userRole := Some(role);
    }

    /** handleNfpAnswer: record one answer; every other answer is unchanged, and repeating an answer changes nothing. */
    method Answer(elementId: string, answer: bool)
      modifies this`answers
      ensures answers == old(answers)[elementId := answer]
      ensures forall id :: id != elementId ==> (id in answers <==> id in old(answers))
      ensures forall id :: id != elementId && id in answers ==> answers[id] == old(answers)[id]
      ensures old(elementId in answers && answers[elementId] == answer) ==> answers == old(answers)
      ensures old(Valid()) ==> Valid()
    {
      answers := answers[elementId := answer];
    }

    /** handleNext: move to the next category, or show the results at the last one without moving. */
    method Next()
      modifies this`currentCategoryIndex, this`showResults
      ensures old(currentCategoryIndex) < |FilteredData()| - 1 ==>
        currentCategoryIndex == old(currentCategoryIndex) + 1 && showResults == old(showResults)
      ensures old(currentCategoryIndex) >= |FilteredData()| - 1 ==>
        currentCategoryIndex == old(currentCategoryIndex) && showResults
      ensures old(Valid()) ==> Valid()
    {
      if currentCategoryIndex < |FilteredData()| - 1 {
        currentCategoryIndex := currentCategoryIndex + 1;
      } else {
        showResults := true;
      }
    }

    /** handleBack: move to the previous category unless already at the first. */
    method Back()
      modifies this`currentCategoryIndex
      ensures currentCategoryIndex == if old(currentCategoryIndex) > 0 then old(currentCategoryIndex) - 1 else old(currentCategoryIndex)
      ensures old(Valid()) ==> Valid()
    {
      if currentCategoryIndex > 0 {
        currentCategoryIndex := currentCategoryIndex - 1;
      }
    }

    /** A click on a category in the sidebar. */
    method SelectCategory(index: int)
      requires 0 <= index < |FilteredData()|
      modifies this`currentCategoryIndex
      ensures currentCategoryIndex == index && Valid()
      ensures CurrentCategory() == Some(FilteredData()[index])
    {
      currentCategoryIndex := index;
    }

    /** The memoised `result`, scored against NFP_SCORE_RANGES. */
    method Result() returns (result: Option<NfpResult>)
      ensures result.None? <==> !showResults
      ensures result.Some? ==>
        && result.value.categoryResults == CategoryResults(FilteredData(), answers)
        && result.value.totalScore == SumRawScores(CategoryResults(FilteredData(), answers))
        && result.value.totalPossibleElements == SumElements(FilteredData())
        && result.value.totalScore <= result.value.totalPossibleElements
        && result.value.grandPercentage == Fraction(result.value.totalScore, result.value.totalPossibleElements)
        && 0.0 <= result.value.grandPercentage <= 1.0
        && (result.value.level, result.value.interpretation) == Classify(Constants.NfpScoreRanges, result.value.totalScore)
    {
      result := ComputeResult(showResults, FilteredData(), answers, Constants.NfpScoreRanges);
    }
  }
}
