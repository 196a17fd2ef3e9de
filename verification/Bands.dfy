/**
 * The meaning shared by the two classification loops (ExecutiveAssessment.tsx and
 * NfpAssessment.tsx): walk a score-range table in declaration order and take the first
 * range holding the score, or fall back to 'Unknown'.
 */
module Bands {
  import opened Types

  const UnknownInterpretation: string := "Could not determine maturity level."

  /** `totalScore >= range.min && totalScore <= range.max` */
  predicate Contains(b: Band, score: int) {
    b.min <= score <= b.max
  }

  /** Index of the first band, in declaration order, whose range holds `score`. */
  function FirstMatch(bands: seq<Band>, score: int): (r: Option<nat>)
    ensures r.Some? ==> r.value < |bands| && Contains(bands[r.value], score)
    ensures r.Some? ==> forall j :: 0 <= j < r.value ==> !Contains(bands[j], score)
    ensures r.None? <==> forall j :: 0 <= j < |bands| ==> !Contains(bands[j], score)
  {
    if |bands| == 0 then None
    else if Contains(bands[0], score) then Some(0)
    else match FirstMatch(bands[1..], score)
      case None => None
      case Some(k) => Some(k + 1)
  }

  /** The level and interpretation a score gets from a table. */
  function Classify(bands: seq<Band>, score: int): (r: (Level, string))
    ensures forall i :: 0 <= i < |bands| && Contains(bands[i], score) && (forall j :: 0 <= j < i ==> !Contains(bands[j], score)) ==>
      r == (bands[i].level, bands[i].interpretation)
    ensures (forall j :: 0 <= j < |bands| ==> !Contains(bands[j], score)) ==> r == (Unknown, UnknownInterpretation)
  {
    match FirstMatch(bands, score)
    case Some(i) => (bands[i].level, bands[i].interpretation)
    case None => (Unknown, UnknownInterpretation)
  }

  /**
   * The classification loop of both result passes: walk the table in declaration order and
   * stop at the first range holding the score; 'Unknown' when none does.
   */
  method ClassifyScore(ranges: seq<Band>, score: int) returns (level: Level, interpretation: string)
    ensures (level, interpretation) == Classify(ranges, score)
  {
    for i := 0 to |ranges|
      invariant forall j :: 0 <= j < i ==> !Contains(ranges[j], score)
    {
      var range := ranges[i];
      if score >= range.min && score <= range.max {
        return range.level, range.interpretation;
      }
    }
    return Unknown, UnknownInterpretation;
  }

  /** No band of the table is itself labelled 'Unknown'. */
  predicate NamesKnownLevels(bands: seq<Band>) {
    forall i :: 0 <= i < |bands| ==> bands[i].level != Unknown
  }

  /** Every band is a non-empty range, and each band starts right after the previous one ends. */
  predicate Contiguous(bands: seq<Band>) {
    && (forall i :: 0 <= i < |bands| ==> bands[i].min <= bands[i].max)
    && (forall i :: 0 <= i < |bands| - 1 ==> bands[i + 1].min == bands[i].max + 1)
  }

  /** A table whose levels are all known classifies a score as 'Unknown' exactly when no band holds it. */
  lemma UnknownIffUncovered(bands: seq<Band>, score: int)
    requires NamesKnownLevels(bands)
    ensures Classify(bands, score).0 == Unknown <==> forall j :: 0 <= j < |bands| ==> !Contains(bands[j], score)
    ensures Classify(bands, score).0 == Unknown ==> Classify(bands, score).1 == UnknownInterpretation
  {
  }

  /** In a contiguous table, every earlier band lies entirely below every later band. */
  lemma {:induction false} ContiguousDisjoint(bands: seq<Band>, i: nat, j: nat)
    requires Contiguous(bands)
    requires i < j < |bands|
    ensures bands[i].max < bands[j].min
    decreases j - i
  {
    if j > i + 1 {
      ContiguousDisjoint(bands, i, j - 1);
    }
  }

  /** A contiguous table covers exactly the integers from its first minimum to its last maximum. */
  lemma {:induction false} ContiguousCoverage(bands: seq<Band>, score: int)
    requires |bands| > 0 && Contiguous(bands)
    ensures (exists i :: 0 <= i < |bands| && Contains(bands[i], score))
        <==> bands[0].min <= score <= bands[|bands| - 1].max
  {
    if |bands| > 1 {
      var rest := bands[1..];
      assert Contiguous(rest) by {
        forall i | 0 <= i < |rest| - 1 ensures rest[i + 1].min == rest[i].max + 1 {
          assert rest[i + 1] == bands[i + 2] && rest[i] == bands[i + 1];
        }
      }
      ContiguousCoverage(rest, score);
      ContiguousDisjoint(bands, 0, 1);
      if bands[0].min <= score <= bands[|bands| - 1].max {
        if !Contains(bands[0], score) {
          var k :| 0 <= k < |rest| && Contains(rest[k], score);
          assert Contains(bands[k + 1], score);
        }
      }
      if exists i :: 0 <= i < |bands| && Contains(bands[i], score) {
        var i :| 0 <= i < |bands| && Contains(bands[i], score);
        if i > 0 {
          assert Contains(rest[i - 1], score);
        } else {
          if |bands| - 1 > 0 { ContiguousDisjoint(bands, 0, |bands| - 1); }
        }
      }
    }
  }

  /**
   * In a contiguous table, a covered score gets the level of the one band holding it, and
   * every score outside [first minimum, last maximum] is 'Unknown'.
   */
  lemma ClassifyContiguous(bands: seq<Band>, score: int)
    requires |bands| > 0 && Contiguous(bands) && NamesKnownLevels(bands)
    ensures bands[0].min <= score <= bands[|bands| - 1].max ==>
      exists i :: 0 <= i < |bands| && Contains(bands[i], score) && Classify(bands, score) == (bands[i].level, bands[i].interpretation)
    ensures !(bands[0].min <= score <= bands[|bands| - 1].max) ==>
      Classify(bands, score) == (Unknown, UnknownInterpretation)
  {
    ContiguousCoverage(bands, score);
    UnknownIffUncovered(bands, score);
  }
}
