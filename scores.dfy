/**
 * The report generator's score arithmetic: a participant's indicator, overall and focus means
 * (over the items actually rated), the cohort means (over every item, a missing average
 * counting as 0), and the signed change string. Means are exact `real`s.
 */
module Scores {
  import opened Text
  import opened Framework

  /** A participant's ratings: item number to score. */
  type Ratings = map<int, int>

  /** A cohort's per-item averages: item number to mean score (items nobody rated are absent). */
  type Averages = map<int, real>

  function Sum(xs: seq<int>): int
  {
    if xs == [] then 0 else xs[0] + Sum(xs[1..])
  }

  function SumReal(xs: seq<real>): real
  {
    if xs == [] then 0.0 else xs[0] + SumReal(xs[1..])
  }

  /** `sum(xs) / len(xs) if xs else 0`. */
  function Mean(xs: seq<int>): real
  {
    if xs == [] then 0.0 else Sum(xs) as real / |xs| as real
  }

  /** `[ratings[i] for i in nums if i in ratings]`: the scores present, in the order of `nums`. */
  function PresentScores(ratings: Ratings, nums: seq<int>): (r: seq<int>)
    ensures |r| <= |nums|
  {
    if nums == [] then []
    else (if nums[0] in ratings then [ratings[nums[0]]] else []) + PresentScores(ratings, nums[1..])
  }

  const ALL_INDICATORS: set<Indicator> := {SelfReadiness, PracticalReadiness, ProfessionalReadiness, TeamReadiness}
  const ALL_FOCI: set<Focus> := {Knowledge, Awareness, Confidence, Behaviour}

  /** The items of an indicator, `range(start, end + 1)` over its table entry. */
  function IndicatorItems(i: Indicator): seq<int>
  {
    IntRange(RangeOf(i).start, RangeOf(i).end)
  }

  // ---------------------------------------------------------------- a participant's scores

  /** `_calculate_indicator_scores`: per indicator, the mean of the scores present in its range. */
  function CalculateIndicatorScores(ratings: Ratings): (r: map<Indicator, real>)
    ensures r.Keys == ALL_INDICATORS
  {
    map i | i in ALL_INDICATORS :: Mean(PresentScores(ratings, IndicatorItems(i)))
  }

  /** `_calculate_overall_score`: 0 for no ratings, else the mean of the scores present in 1-32. */
  function CalculateOverallScore(ratings: Ratings): real
  {
    if |ratings| == 0 then 0.0 else Mean(PresentScores(ratings, IntRange(1, 32)))
  }

  /** `_calculate_focus_scores`: per focus tag, the mean of the scores present among its items. */
  function CalculateFocusScores(ratings: Ratings): (r: map<Focus, real>)
    ensures r.Keys == ALL_FOCI
  {
    map f | f in ALL_FOCI :: Mean(PresentScores(ratings, GetItemsByFocus(f)))
  }

  // ---------------------------------------------------------------- cohort scores

  /** `[avgs.get(i, {}).get('avg', 0) for i in nums]`: every item's average, 0 when it has none. */
  function CohortValues(avgs: Averages, nums: seq<int>): (r: seq<real>)
    ensures |r| == |nums|
    ensures forall k :: 0 <= k < |nums| ==> r[k] == if nums[k] in avgs then avgs[nums[k]] else 0.0
  {
    if nums == [] then []
    else [if nums[0] in avgs then avgs[nums[0]] else 0.0] + CohortValues(avgs, nums[1..])
  }

  /** A cohort mean over `nums`: the sum of all their averages divided by `len(nums)`. */
  function CohortMean(avgs: Averages, nums: seq<int>): real
  {
    if nums == [] then 0.0 else SumReal(CohortValues(avgs, nums)) / |nums| as real
  }

  /** The cohort indicator scores of the progress and impact reports. */
  function CohortIndicatorScores(avgs: Averages): (r: map<Indicator, real>)
    ensures r.Keys == ALL_INDICATORS
  {
    map i | i in ALL_INDICATORS :: CohortMean(avgs, IndicatorItems(i))
  }

  /** The cohort overall score: the sum over items 1-32 divided by 32. */
  function CohortOverall(avgs: Averages): real
  {
    SumReal(CohortValues(avgs, IntRange(1, 32))) / 32.0
  }

  /** The cohort overall score is the cohort mean over items 1-32. */
  lemma CohortOverallIsMean(avgs: Averages)
    ensures CohortOverall(avgs) == CohortMean(avgs, IntRange(1, 32))
  {
  }

  /** With every item average on the 0-6 scale, so is the cohort overall score. */
  lemma CohortOverallRange(avgs: Averages)
    requires forall i :: i in avgs ==> 0.0 <= avgs[i] <= 6.0
    ensures 0.0 <= CohortOverall(avgs) <= 6.0
  {
    CohortOverallIsMean(avgs);
    CohortMeanRange(avgs, IntRange(1, 32));
  }

  /** The cohort focus scores of the impact report. */
  function CohortFocusScores(avgs: Averages): (r: map<Focus, real>)
    ensures r.Keys == ALL_FOCI
  {
    map f | f in ALL_FOCI :: CohortMean(avgs, GetItemsByFocus(f))
  }

  // ---------------------------------------------------------------- change strings

  /** `f"+{d}" if d > 0 else str(d)`: the item-level change. */
  function ChangeString(d: int): (s: string)
    ensures |s| > 0
    ensures s[0] == '+' <==> d > 0
    ensures s[0] == '-' <==> d < 0
    ensures s == "0" <==> d == 0
  {
    if d > 0 then "+" + IntToString(d) else IntToString(d)
  }

  /** The sign prefix of the indicator- and overall-level change `f"+{x:.1f}" if x > 0 else f"{x:.1f}"`. */
  function SignPrefix(x: real): (p: string)
    ensures p == "+" <==> x > 0.0
    ensures p == "" <==> x <= 0.0
  {
    if x > 0.0 then "+" else ""
  }

  // ---------------------------------------------------------------- properties of the means

  /** Every stored score is on the six-point scale (the ratings table's CHECK constraint). */
  predicate OnScale(ratings: Ratings)
  {
    forall i :: i in ratings ==> 1 <= ratings[i] <= 6
  }

  lemma {:induction false} SumBounds(xs: seq<int>, lo: int, hi: int)
    requires forall k :: 0 <= k < |xs| ==> lo <= xs[k] <= hi
    ensures lo * |xs| <= Sum(xs) <= hi * |xs|
  {
    if xs != [] {
      SumBounds(xs[1..], lo, hi);
    }
  }

  lemma QuotientBounds(s: real, n: real, lo: real, hi: real)
    requires n > 0.0 && lo * n <= s <= hi * n
    ensures lo <= s / n <= hi
  {
    var q := s / n;
    assert q * n == s;
  }

  /** A non-empty mean lies within the bounds of its scores. */
  lemma MeanBounds(xs: seq<int>, lo: int, hi: int)
    requires xs != []
    requires forall k :: 0 <= k < |xs| ==> lo <= xs[k] <= hi
    ensures lo as real <= Mean(xs) <= hi as real
  {
    SumBounds(xs, lo, hi);
    QuotientBounds(Sum(xs) as real, |xs| as real, lo as real, hi as real);
  }

  lemma {:induction false} SumConstant(xs: seq<int>, c: int)
    requires forall k :: 0 <= k < |xs| ==> xs[k] == c
    ensures Sum(xs) == c * |xs|
  {
    if xs != [] {
      SumConstant(xs[1..], c);
    }
  }

  /** Present scores keep the bounds of the ratings they come from. */
  lemma {:induction false} PresentScoresWithin(ratings: Ratings, nums: seq<int>, lo: int, hi: int)
    requires forall i :: i in ratings ==> lo <= ratings[i] <= hi
    ensures forall k :: 0 <= k < |PresentScores(ratings, nums)| ==> lo <= PresentScores(ratings, nums)[k] <= hi
  {
    if nums != [] {
      PresentScoresWithin(ratings, nums[1..], lo, hi);
      var head := if nums[0] in ratings then [ratings[nums[0]]] else [];
      var rest := PresentScores(ratings, nums[1..]);
      assert PresentScores(ratings, nums) == head + rest;
      assert forall k :: 0 <= k < |head| ==> lo <= head[k] <= hi;
    }
  }

  /** No score is present exactly when no item of `nums` is rated. */
  lemma {:induction false} PresentScoresEmpty(ratings: Ratings, nums: seq<int>)
    ensures PresentScores(ratings, nums) == [] <==> forall n :: n in nums ==> n !in ratings
  {
    if nums != [] {
      PresentScoresEmpty(ratings, nums[1..]);
      assert forall n :: n in nums <==> n == nums[0] || n in nums[1..];
    }
  }

  /** When every item of `nums` is rated, every one of them contributes, in order. */
  lemma {:induction false} PresentScoresComplete(ratings: Ratings, nums: seq<int>)
    requires forall j :: 0 <= j < |nums| ==> nums[j] in ratings
    ensures |PresentScores(ratings, nums)| == |nums|
    ensures forall j :: 0 <= j < |nums| ==> PresentScores(ratings, nums)[j] == ratings[nums[j]]
  {
    if nums != [] {
      PresentScoresComplete(ratings, nums[1..]);
    }
  }

  /** Only the ratings of the items in `nums` matter. */
  lemma {:induction false} PresentScoresLocal(r1: Ratings, r2: Ratings, nums: seq<int>)
    requires forall j :: 0 <= j < |nums| ==> (nums[j] in r1 <==> nums[j] in r2)
    requires forall j :: 0 <= j < |nums| && nums[j] in r1 ==> r1[nums[j]] == r2[nums[j]]
    ensures PresentScores(r1, nums) == PresentScores(r2, nums)
  {
    if nums != [] {
      PresentScoresLocal(r1, r2, nums[1..]);
    }
  }

  /** The mean of the present scores of on-scale ratings: 0 exactly when nothing is rated, else in [1, 6]. */
  lemma PresentMeanRange(ratings: Ratings, nums: seq<int>)
    requires OnScale(ratings)
    ensures Mean(PresentScores(ratings, nums)) == 0.0 <==> forall n :: n in nums ==> n !in ratings
    ensures Mean(PresentScores(ratings, nums)) != 0.0 ==> 1.0 <= Mean(PresentScores(ratings, nums)) <= 6.0
  {
    var xs := PresentScores(ratings, nums);
    PresentScoresEmpty(ratings, nums);
    if xs != [] {
      PresentScoresWithin(ratings, nums, 1, 6);
      MeanBounds(xs, 1, 6);
    }
  }

  /** Indicator scores: 0 exactly when none of the indicator's items is rated, otherwise on the scale. */
  lemma IndicatorScoresRange(ratings: Ratings, i: Indicator)
    requires OnScale(ratings)
    ensures CalculateIndicatorScores(ratings)[i] == 0.0 <==>
      forall n :: RangeOf(i).start <= n <= RangeOf(i).end ==> n !in ratings
    ensures CalculateIndicatorScores(ratings)[i] != 0.0 ==> 1.0 <= CalculateIndicatorScores(ratings)[i] <= 6.0
  {
    PresentMeanRange(ratings, IndicatorItems(i));
  }

  /** The overall score is the mean of the present scores among items 1-32, whatever else the map holds. */
  lemma OverallIsPresentMean(ratings: Ratings)
    ensures CalculateOverallScore(ratings) == Mean(PresentScores(ratings, IntRange(1, 32)))
  {
    if |ratings| == 0 {
      PresentScoresEmpty(ratings, IntRange(1, 32));
    }
  }

  /** Keys outside 1-32 are ignored: ratings that agree on 1-32 give the same overall score. */
  lemma OverallIgnoresOtherKeys(r1: Ratings, r2: Ratings)
    requires forall n :: 1 <= n <= 32 ==> (n in r1 <==> n in r2)
    requires forall n :: 1 <= n <= 32 && n in r1 ==> r1[n] == r2[n]
    ensures CalculateOverallScore(r1) == CalculateOverallScore(r2)
  {
    OverallIsPresentMean(r1);
    OverallIsPresentMean(r2);
    PresentScoresLocal(r1, r2, IntRange(1, 32));
  }

  /** Overall score: 0 exactly when none of items 1-32 is rated, otherwise on the scale. */
  lemma OverallScoreRange(ratings: Ratings)
    requires OnScale(ratings)
    ensures CalculateOverallScore(ratings) == 0.0 <==> forall n :: 1 <= n <= 32 ==> n !in ratings
    ensures CalculateOverallScore(ratings) != 0.0 ==> 1.0 <= CalculateOverallScore(ratings) <= 6.0
  {
    OverallIsPresentMean(ratings);
    PresentMeanRange(ratings, IntRange(1, 32));
  }

  /** Focus scores: 0 exactly when none of the tagged items is rated, otherwise on the scale. */
  lemma FocusScoresRange(ratings: Ratings, f: Focus)
    requires OnScale(ratings)
    ensures CalculateFocusScores(ratings)[f] == 0.0 <==> forall n :: n in GetItemsByFocus(f) ==> n !in ratings
    ensures CalculateFocusScores(ratings)[f] != 0.0 ==> 1.0 <= CalculateFocusScores(ratings)[f] <= 6.0
  {
    PresentMeanRange(ratings, GetItemsByFocus(f));
  }

  /** A complete set of identical ratings `c` gives `c` for the mean of any list of items drawn from 1-32. */
  lemma UniformMean(ratings: Ratings, nums: seq<int>, c: int)
    requires nums != []
    requires forall j :: 0 <= j < |nums| ==> 1 <= nums[j] <= 32
    requires forall n :: 1 <= n <= 32 ==> n in ratings && ratings[n] == c
    ensures Mean(PresentScores(ratings, nums)) == c as real
  {
    var xs := PresentScores(ratings, nums);
    PresentScoresComplete(ratings, nums);
    assert forall k :: 0 <= k < |xs| ==> xs[k] == c;
    SumConstant(xs, c);
    QuotientBounds(Sum(xs) as real, |xs| as real, c as real, c as real);
  }

  /** All 32 items rated `c`: every indicator, focus and overall score is `c` (for instance all 4s give 4). */
  lemma UniformRatingsIndicators(ratings: Ratings, c: int)
    requires forall n :: 1 <= n <= 32 ==> n in ratings && ratings[n] == c
    ensures forall i :: i in ALL_INDICATORS ==> CalculateIndicatorScores(ratings)[i] == c as real
  {
    forall i | i in ALL_INDICATORS ensures CalculateIndicatorScores(ratings)[i] == c as real {
      IndicatorRangesPartition();
      UniformMean(ratings, IndicatorItems(i), c);
    }
  }

  lemma UniformRatingsFoci(ratings: Ratings, c: int)
    requires forall n :: 1 <= n <= 32 ==> n in ratings && ratings[n] == c
    ensures forall f :: f in ALL_FOCI ==> CalculateFocusScores(ratings)[f] == c as real
  {
    forall f | f in ALL_FOCI ensures CalculateFocusScores(ratings)[f] == c as real {
      FocusItemsNonEmpty(f);
      UniformMean(ratings, GetItemsByFocus(f), c);
    }
  }

  lemma UniformRatingsOverall(ratings: Ratings, c: int)
    requires forall n :: 1 <= n <= 32 ==> n in ratings && ratings[n] == c
    ensures CalculateOverallScore(ratings) == c as real
  {
    assert 1 in ratings;
    UniformMean(ratings, IntRange(1, 32), c);
  }

  // ---------------------------------------------------------------- properties of the cohort means

  lemma {:induction false} SumRealBounds(xs: seq<real>, lo: real, hi: real)
    requires forall k :: 0 <= k < |xs| ==> lo <= xs[k] <= hi
    ensures lo * |xs| as real <= SumReal(xs) <= hi * |xs| as real
  {
    if xs != [] {
      SumRealBounds(xs[1..], lo, hi);
    }
  }

  /** Cohort means of averages within [0, 6] stay within [0, 6]. */
  lemma CohortMeanRange(avgs: Averages, nums: seq<int>)
    requires forall i :: i in avgs ==> 0.0 <= avgs[i] <= 6.0
    ensures 0.0 <= CohortMean(avgs, nums) <= 6.0
  {
    if nums != [] {
      var xs := CohortValues(avgs, nums);
      forall k | 0 <= k < |xs| ensures 0.0 <= xs[k] <= 6.0 {
        var n := nums[k];
        assert xs[k] == if n in avgs then avgs[n] else 0.0;
        if n in avgs {
          assert 0.0 <= avgs[n] <= 6.0;
        }
      }
      SumRealBounds(xs, 0.0, 6.0);
      QuotientBounds(SumReal(CohortValues(avgs, nums)), |nums| as real, 0.0, 6.0);
    }
  }

  /** The number of items of `nums` that have an average. */
  function CountPresent(avgs: Averages, nums: seq<int>): (n: nat)
    ensures n <= |nums|
  {
    if nums == [] then 0 else (if nums[0] in avgs then 1 else 0) + CountPresent(avgs, nums[1..])
  }

  /** With every average equal to `c`, a missing item pulls the cohort mean down: it is `c` times the present fraction. */
  lemma {:induction false} CohortSumUniform(avgs: Averages, nums: seq<int>, c: real)
    requires forall i :: i in avgs ==> avgs[i] == c
    ensures SumReal(CohortValues(avgs, nums)) == c * CountPresent(avgs, nums) as real
  {
    if nums != [] {
      CohortSumUniform(avgs, nums[1..], c);
      assert CohortValues(avgs, nums)[1..] == CohortValues(avgs, nums[1..]);
    }
  }

  lemma CohortMeanUniform(avgs: Averages, nums: seq<int>, c: real)
    requires nums != []
    requires forall i :: i in avgs ==> avgs[i] == c
    ensures CohortMean(avgs, nums) == c * CountPresent(avgs, nums) as real / |nums| as real
  {
    CohortSumUniform(avgs, nums, c);
  }

  lemma {:induction false} CohortSumMatchesPresent(ratings: Ratings, avgs: Averages, nums: seq<int>)
    requires forall j :: 0 <= j < |nums| ==> nums[j] in ratings && nums[j] in avgs && avgs[nums[j]] == ratings[nums[j]] as real
    ensures SumReal(CohortValues(avgs, nums)) == Sum(PresentScores(ratings, nums)) as real
  {
    if nums != [] {
      CohortSumMatchesPresent(ratings, avgs, nums[1..]);
      assert CohortValues(avgs, nums)[1..] == CohortValues(avgs, nums[1..]);
    }
  }

  /** On complete data the two rules agree: the participant's mean equals the cohort mean of the same scores. */
  lemma CompleteDataMeansAgree(ratings: Ratings, avgs: Averages, nums: seq<int>)
    requires forall j :: 0 <= j < |nums| ==> nums[j] in ratings && nums[j] in avgs && avgs[nums[j]] == ratings[nums[j]] as real
    ensures Mean(PresentScores(ratings, nums)) == CohortMean(avgs, nums)
  {
    PresentScoresComplete(ratings, nums);
    CohortSumMatchesPresent(ratings, avgs, nums);
  }

  /**
   * On incomplete data they differ: one Self-Readiness item rated 6 gives a participant score of 6
   * (absent items excluded) but a cohort score of 1 (absent items counted as 0 over six items).
   */
  lemma IncompleteDataMeansDiffer()
    ensures CalculateIndicatorScores(map[1 := 6])[SelfReadiness] == 6.0
    ensures CohortIndicatorScores(map[1 := 6.0])[SelfReadiness] == 1.0
  {
    SingleRatingParticipant();
    SingleRatingCohort();
  }

  lemma SingleRatingParticipant()
    ensures CalculateIndicatorScores(map[1 := 6])[SelfReadiness] == 6.0
  {
    var nums := IndicatorItems(SelfReadiness);
    assert nums == [1, 2, 3, 4, 5, 6];
    PresentScoresSingle(6, nums);
    assert Mean([6]) == 6.0;
  }

  lemma SingleRatingCohort()
    ensures CohortIndicatorScores(map[1 := 6.0])[SelfReadiness] == 1.0
  {
    var nums := IndicatorItems(SelfReadiness);
    assert nums == [1, 2, 3, 4, 5, 6];
    CohortValuesSingle(6.0, nums);
    var xs := [6.0, 0.0, 0.0, 0.0, 0.0, 0.0];
    assert SumReal(xs[1..]) == 0.0 by {
      assert SumReal(xs[5..]) == 0.0;
      assert SumReal(xs[4..]) == 0.0;
      assert SumReal(xs[3..]) == 0.0;
      assert SumReal(xs[2..]) == 0.0;
    }
    assert CohortMean(map[1 := 6.0], nums) == 6.0 / 6.0;
  }

  lemma PresentScoresSingle(x: int, nums: seq<int>)
    requires nums == [1, 2, 3, 4, 5, 6]
    ensures PresentScores(map[1 := x], nums) == [x]
  {
    var r := map[1 := x];
    assert PresentScores(r, nums[5..]) == [];
    assert PresentScores(r, nums[4..]) == [];
    assert PresentScores(r, nums[3..]) == [];
    assert PresentScores(r, nums[2..]) == [];
    assert PresentScores(r, nums[1..]) == [];
  }

  lemma CohortValuesSingle(x: real, nums: seq<int>)
    requires nums == [1, 2, 3, 4, 5, 6]
    ensures CohortValues(map[1 := x], nums) == [x, 0.0, 0.0, 0.0, 0.0, 0.0]
  {
  }

  // ---------------------------------------------------------------- properties of the change strings

  /** The item change string reads back as the change. */
  lemma ChangeStringRoundTrip(d: int)
    ensures IsSignedNumeral(ChangeString(d)) && SignedValue(ChangeString(d)) == d
  {
    IntToStringRoundTrip(d);
    if d > 0 {
      var s := ChangeString(d);
      assert s[1..] == IntToString(d);
    }
  }

  /** The item rule and the indicator rule put the sign the same way on a whole-number change. */
  lemma ChangeRulesAgree(d: int)
    ensures ChangeString(d) == SignPrefix(d as real) + IntToString(d)
  {
  }
}
