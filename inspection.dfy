// The on-site inspection checklist of the iOS app (InspectionView.swift):
// the score computed from the form fields and its verbal evaluation.

module Inspection {

  /** The text fields of the inspection form; an empty string is an unanswered item. */
  datatype Form = Form(
    // the property itself
    preservationRegistry: string,
    buildingAge: string,
    meters: string,
    mailCheck: string,
    slope: string,
    lightingDirection: string,
    structureFloor: string,
    parking: string,
    waterLeakage: string,
    unpaidUtilities: string,
    gasType: string,
    gasUnpaid: string,
    residentsCheck: string,
    currentResidents: string,
    // the surroundings
    busRoutes: string,
    subway: string,
    shopping: string,
    schools: string,
    // the price checks
    molitPrice: string,
    naverPrice: string,
    kbPrice: string,
    fieldPrice: string,
    specialNotes: string)

  /** The form as first shown: every field empty and the building age "중". */
  const InitialForm := Form("", "중", "", "", "", "", "", "", "", "", "", "", "", "",
                            "", "", "", "", "", "", "", "", "")

  function Five(field: string): nat
  {
    if field != "" then 5 else 0
  }

  function AgePoints(buildingAge: string): nat
  {
    if buildingAge == "상" then 10 else if buildingAge == "중" then 5 else 0
  }

  /** The sum before the cap, one addition per answered item, in the order of the form. */
  function RawScore(f: Form): nat
  {
    Five(f.preservationRegistry) + Five(f.meters) + Five(f.mailCheck) + Five(f.slope)
    + Five(f.lightingDirection) + Five(f.structureFloor) + Five(f.parking) + Five(f.waterLeakage)
    + Five(f.unpaidUtilities) + Five(f.gasType) + Five(f.gasUnpaid) + Five(f.residentsCheck)
    + Five(f.currentResidents)
    + AgePoints(f.buildingAge)
    + Five(f.busRoutes) + Five(f.subway) + Five(f.shopping) + Five(f.schools)
    + Five(f.molitPrice) + Five(f.naverPrice) + Five(f.kbPrice) + Five(f.fieldPrice)
  }

  /** calculateScore: the raw sum capped at 100. */
  function Score(f: Form): (r: int)
    ensures 0 <= r <= 100
    ensures r == 100 || r == RawScore(f)
    ensures RawScore(f) <= 100 ==> r == RawScore(f)
  {
    var score := RawScore(f);
    if score < 100 then score else 100
  }

  /** The 21 items worth 5 points each: 13 about the property, 4 surroundings and 4 prices. */
  function ScoredItems(f: Form): (s: seq<string>)
    ensures |s| == 21
  {
    [f.preservationRegistry, f.meters, f.mailCheck, f.slope, f.lightingDirection, f.structureFloor,
     f.parking, f.waterLeakage, f.unpaidUtilities, f.gasType, f.gasUnpaid, f.residentsCheck,
     f.currentResidents,
     f.busRoutes, f.subway, f.shopping, f.schools,
     f.molitPrice, f.naverPrice, f.kbPrice, f.fieldPrice]
  }

  /** The number of answered items of a list. */
  function Answered(items: seq<string>): (n: nat)
    ensures n <= |items|
  {
    if |items| == 0 then 0
    else Answered(items[..|items| - 1]) + (if items[|items| - 1] != "" then 1 else 0)
  }

  lemma AnsweredPrefix(items: seq<string>, k: nat)
    requires 0 < k <= |items|
    ensures Answered(items[..k]) * 5 == Answered(items[..k - 1]) * 5 + Five(items[k - 1])
  {
    assert items[..k][..k - 1] == items[..k - 1];
  }

  /** The raw score is 5 per answered item plus the building-age points. */
  lemma RawScoreCounts(f: Form)
    ensures RawScore(f) == 5 * Answered(ScoredItems(f)) + AgePoints(f.buildingAge)
  {
    var s := ScoredItems(f);
    assert s[..21] == s;
    AnsweredPrefix(s, 21); AnsweredPrefix(s, 20); AnsweredPrefix(s, 19); AnsweredPrefix(s, 18);
    AnsweredPrefix(s, 17); AnsweredPrefix(s, 16); AnsweredPrefix(s, 15); AnsweredPrefix(s, 14);
    AnsweredPrefix(s, 13); AnsweredPrefix(s, 12); AnsweredPrefix(s, 11); AnsweredPrefix(s, 10);
    AnsweredPrefix(s, 9); AnsweredPrefix(s, 8); AnsweredPrefix(s, 7); AnsweredPrefix(s, 6);
    AnsweredPrefix(s, 5); AnsweredPrefix(s, 4); AnsweredPrefix(s, 3); AnsweredPrefix(s, 2);
    AnsweredPrefix(s, 1);
    assert Answered(s[..0]) == 0;
    assert Answered(s) * 5 == Five(s[0]) + Five(s[1]) + Five(s[2]) + Five(s[3]) + Five(s[4]) + Five(s[5]) + Five(s[6])
      + Five(s[7]) + Five(s[8]) + Five(s[9]) + Five(s[10]) + Five(s[11]) + Five(s[12]) + Five(s[13])
      + Five(s[14]) + Five(s[15]) + Five(s[16]) + Five(s[17]) + Five(s[18]) + Five(s[19]) + Five(s[20]);
  }

  /** `more` answers every item `fewer` answers, position by position. */
  predicate AnswersAtLeast(fewer: seq<string>, more: seq<string>)
  {
    |fewer| == |more| && forall i :: 0 <= i < |fewer| && fewer[i] != "" ==> more[i] != ""
  }

  lemma {:induction false} AnsweredMonotone(fewer: seq<string>, more: seq<string>)
    requires AnswersAtLeast(fewer, more)
    ensures Answered(fewer) <= Answered(more)
  {
    if |fewer| > 0 {
      var n := |fewer| - 1;
      assert AnswersAtLeast(fewer[..n], more[..n]) by {
        forall i | 0 <= i < n && fewer[..n][i] != ""
          ensures more[..n][i] != ""
        {
          assert fewer[i] != "";
        }
      }
      AnsweredMonotone(fewer[..n], more[..n]);
    }
  }

  /** Answering more items, with the same building age, never lowers the score. */
  lemma ScoreMonotone(f: Form, g: Form)
    requires AnswersAtLeast(ScoredItems(f), ScoredItems(g)) && f.buildingAge == g.buildingAge
    ensures Score(f) <= Score(g)
  {
    RawScoreCounts(f);
    RawScoreCounts(g);
    AnsweredMonotone(ScoredItems(f), ScoredItems(g));
  }

  /** The fully answered form with building age "상" sums to 115 and is capped to 100;
      the initial form scores only the 5 points of its default building age. */
  lemma ScoreExtremes(f: Form)
    requires forall i :: 0 <= i < 21 ==> ScoredItems(f)[i] != ""
    requires f.buildingAge == "상"
    ensures RawScore(f) == 115 && Score(f) == 100
    ensures Score(InitialForm) == 5
  {
    var s := ScoredItems(f);
    assert s[0] != "" && s[1] != "" && s[2] != "" && s[3] != "" && s[4] != "" && s[5] != "" && s[6] != "";
    assert s[7] != "" && s[8] != "" && s[9] != "" && s[10] != "" && s[11] != "" && s[12] != "" && s[13] != "";
    assert s[14] != "" && s[15] != "" && s[16] != "" && s[17] != "" && s[18] != "" && s[19] != "" && s[20] != "";
  }

  /** getScoreEvaluation */
  function Evaluation(score: int): (e: string)
    ensures e in EvaluationBands
  {
    if score >= 90 then "매우 우수"
    else if score >= 80 then "우수"
    else if score >= 70 then "양호"
    else if score >= 60 then "보통"
    else if score >= 50 then "미흡"
    else "불량"
  }

  /** The labels from worst to best. */
  const EvaluationBands: seq<string> := ["불량", "미흡", "보통", "양호", "우수", "매우 우수"]

  /** The position of a label among the bands (0 for the worst). */
  function BandRank(band: string): nat
  {
    if band == "매우 우수" then 5
    else if band == "우수" then 4
    else if band == "양호" then 3
    else if band == "보통" then 2
    else if band == "미흡" then 1
    else 0
  }

  /** A higher score never gets a worse label; each band starts at a multiple of ten from 50. */
  lemma EvaluationMonotone(a: int, b: int)
    requires a <= b
    ensures BandRank(Evaluation(a)) <= BandRank(Evaluation(b))
    ensures BandRank(Evaluation(a)) == (if a < 50 then 0 else if a >= 90 then 5 else (a - 40) / 10)
  {
  }
}
