/** Roommate compatibility scoring of the `matching.calculateCompatibility`
    procedure (server/routers.ts): five sub-scores from two preference
    profiles, a fixed weighted sum rounded with JavaScript's `Math.round`, and
    a label string built from the sub-scores. JavaScript numbers are modelled
    as exact reals. */
module Compatibility {
  import opened Common
  import opened Schema

  function Abs(x: real): real { if x < 0.0 then -x else x }
  function Max(x: real, y: real): real { if x < y then y else x }
  function MaxInt(x: int, y: int): int { if x < y then y else x }
  function AbsInt(x: int): int { if x < 0 then -x else x }

  /** `Math.round`: the nearest integer, halves rounded upward. */
  function JsRound(x: real): (r: int)
    ensures x - 0.5 < r as real <= x + 0.5
  {
    (x + 0.5).Floor
  }

  // ---------------------------------------------------------------------------
  // Sub-scores
  // ---------------------------------------------------------------------------

  /** Both budget columns are non-NULL (a decimal column arrives as a
      non-empty string, so every stored value is truthy). */
  predicate BudgetSet(p: ProfileRow) {
    p.budgetMin.Some? && p.budgetMax.Some?
  }

  function Midpoint(p: ProfileRow): real
    requires BudgetSet(p)
  {
    (p.budgetMin.value + p.budgetMax.value) / 2.0
  }

  predicate BudgetCompared(a: ProfileRow, b: ProfileRow) {
    BudgetSet(a) && BudgetSet(b)
  }

  /** The inputs for which the source computes a number: when the budgets
      are compared, the two midpoints are not both 0 (zero over zero is NaN
      in JavaScript). Any other pair, negative midpoints included, is
      scored. */
  predicate Scorable(a: ProfileRow, b: ProfileRow) {
    BudgetCompared(a, b) ==> !(Midpoint(a) == 0.0 && Midpoint(b) == 0.0)
  }

  /** The budget comparison keeps the score within [0, 100]: the larger
      midpoint is not negative. */
  predicate Bounded(a: ProfileRow, b: ProfileRow) {
    BudgetCompared(a, b) ==> Max(Midpoint(a), Midpoint(b)) >= 0.0
  }

  /** Budget score from the two midpoints: full marks for equal midpoints,
      falling linearly to 0 at a gap of 20% of the larger one. When the
      larger midpoint is 0 the ratio is infinite and the score clamps to 0;
      when both are negative the ratio is negative and the score exceeds
      100. */
  function BudgetFromMidpoints(m1: real, m2: real): (r: real)
    requires !(m1 == 0.0 && m2 == 0.0)
    ensures r >= 0.0
    ensures Max(m1, m2) >= 0.0 ==> r <= 100.0
    ensures r == 100.0 <==> m1 == m2
    ensures r == 0.0 <==> Max(m1, m2) >= 0.0 && Abs(m1 - m2) >= Max(m1, m2) / 5.0
    ensures Max(m1, m2) < 0.0 ==> r >= 100.0
  {
    var diff := Abs(m1 - m2);
    var maxDiff := Max(m1, m2) * 0.2;
    if maxDiff == 0.0 then
      0.0
    else if maxDiff > 0.0 then
      RatioFacts(diff, maxDiff);
      Max(0.0, 100.0 - (diff / maxDiff) * 100.0)
    else
      RatioFacts(diff, -maxDiff);
      assert diff / maxDiff == -(diff / -maxDiff);
      Max(0.0, 100.0 - (diff / maxDiff) * 100.0)
  }

  lemma RatioFacts(d: real, m: real)
    requires d >= 0.0 && m > 0.0
    ensures d / m >= 0.0
    ensures d / m == 0.0 <==> d == 0.0
    ensures d / m >= 1.0 <==> d >= m
  {
    var q := d / m;
    assert q * m == d;
    if q >= 1.0 { assert q * m >= m; }
    if q < 1.0 && q >= 0.0 { assert q * m < m; }
  }

  function BudgetScore(a: ProfileRow, b: ProfileRow): (r: real)
    requires Scorable(a, b)
    ensures r >= 0.0
    ensures Bounded(a, b) ==> r <= 100.0
    ensures !BudgetCompared(a, b) ==> r == 100.0
  {
    if BudgetCompared(a, b) then BudgetFromMidpoints(Midpoint(a), Midpoint(b)) else 100.0
  }

  function ScheduleScore(a: ProfileRow, b: ProfileRow): (r: int)
    ensures r == 100 || r == 50
    ensures r == 50 <==> a.sleepSchedule.Some? && b.sleepSchedule.Some? && a.sleepSchedule != b.sleepSchedule
  {
    if a.sleepSchedule.Some? && b.sleepSchedule.Some? then
      (if a.sleepSchedule == b.sleepSchedule then 100 else 50)
    else 100
  }

  /** A cleanliness level counts as set when it is non-NULL and non-zero
      (JavaScript truthiness of a number). */
  predicate CleanlinessSet(p: ProfileRow) {
    p.cleanlinessLevel.Some? && p.cleanlinessLevel.value != 0
  }

  function CleanlinessScore(a: ProfileRow, b: ProfileRow): (r: int)
    ensures 0 <= r <= 100 && r % 20 == 0
    ensures r == 100 <==> !(CleanlinessSet(a) && CleanlinessSet(b)) || a.cleanlinessLevel == b.cleanlinessLevel
  {
    if CleanlinessSet(a) && CleanlinessSet(b) then
      MaxInt(0, 100 - AbsInt(a.cleanlinessLevel.value - b.cleanlinessLevel.value) * 20)
    else 100
  }

  /** Smoking and drinking compare with strict equality, so two NULLs match. */
  function LifestyleScore(a: ProfileRow, b: ProfileRow): (r: int)
    ensures r == 0 || r == 50 || r == 100
    ensures r == 100 <==> a.smokingPreference == b.smokingPreference && a.drinkingPreference == b.drinkingPreference
    ensures r == 0 <==> a.smokingPreference != b.smokingPreference && a.drinkingPreference != b.drinkingPreference
  {
    var smoking := if a.smokingPreference == b.smokingPreference then 50 else 0;
    var drinking := if a.drinkingPreference == b.drinkingPreference then 50 else 0;
    smoking + drinking
  }

  function PetsScore(a: ProfileRow, b: ProfileRow): (r: int)
    ensures r == 100 || r == 50
    ensures r == 100 <==> a.petsAllowed == b.petsAllowed
  {
    if a.petsAllowed == b.petsAllowed then 100 else 50
  }

  // ---------------------------------------------------------------------------
  // Overall score and explanation
  // ---------------------------------------------------------------------------

  /** The five unrounded sub-scores. */
  datatype SubScores = SubScores(budget: real, schedule: int, cleanliness: int, lifestyle: int, pets: int)

  predicate InRange(s: SubScores) {
    0.0 <= s.budget <= 100.0 && 0 <= s.schedule <= 100 && 0 <= s.cleanliness <= 100
    && 0 <= s.lifestyle <= 100 && 0 <= s.pets <= 100
  }

  function Scores(a: ProfileRow, b: ProfileRow): (s: SubScores)
    requires Scorable(a, b)
    ensures Bounded(a, b) ==> InRange(s)
    ensures s.budget >= 0.0 && 0 <= s.schedule <= 100 && 0 <= s.cleanliness <= 100
    ensures 0 <= s.lifestyle <= 100 && 0 <= s.pets <= 100
  {
    SubScores(BudgetScore(a, b), ScheduleScore(a, b), CleanlinessScore(a, b), LifestyleScore(a, b), PetsScore(a, b))
  }

  const BudgetWeight: real := 0.25
  const ScheduleWeight: real := 0.2
  const CleanlinessWeight: real := 0.2
  const LifestyleWeight: real := 0.2
  const PetsWeight: real := 0.15

  function Weighted(s: SubScores): (w: real)
    ensures InRange(s) ==> 0.0 <= w <= 100.0
  {
    s.budget * BudgetWeight + (s.schedule as real) * ScheduleWeight
    + (s.cleanliness as real) * CleanlinessWeight + (s.lifestyle as real) * LifestyleWeight
    + (s.pets as real) * PetsWeight
  }

  function OverallScore(s: SubScores): (r: int)
    ensures InRange(s) ==> 0 <= r <= 100
    ensures r as real - 0.5 <= Weighted(s) < r as real + 0.5
  {
    JsRound(Weighted(s))
  }

  const Labels: seq<string> := [
    "Budget compatibility",
    "Sleep schedule match",
    "Cleanliness preferences aligned",
    "Lifestyle preferences match",
    "Pet preferences compatible"
  ]

  const NoLabelExplanation: string := "Some differences in preferences"

  /** The sub-scores in the order their labels are pushed. */
  function ScoreList(s: SubScores): (l: seq<real>)
    ensures |l| == |Labels|
  {
    [s.budget, s.schedule as real, s.cleanliness as real, s.lifestyle as real, s.pets as real]
  }

  /** The labels whose score is strictly greater than 80, in table order. */
  function QualifyingLabels(scores: seq<real>, labels: seq<string>): (r: seq<string>)
    requires |scores| == |labels|
    ensures IsSubsequence(r, labels)
    ensures forall i :: 0 <= i < |labels| && scores[i] > 80.0 ==> labels[i] in r
    ensures forall x :: x in r ==> exists i :: 0 <= i < |labels| && labels[i] == x && scores[i] > 80.0
  {
    if |labels| == 0 then []
    else
      var rest := QualifyingLabels(scores[1..], labels[1..]);
      assert forall i :: 1 <= i < |labels| ==> labels[i] == labels[1..][i - 1] && scores[i] == scores[1..][i - 1];
      if scores[0] > 80.0 then
        [labels[0]] + rest
      else
        SubsequenceOfTail(rest, labels);
        rest
  }

  function Explanation(s: SubScores): (r: string)
    ensures (forall i :: 0 <= i < |Labels| ==> ScoreList(s)[i] <= 80.0) ==> r == NoLabelExplanation
  {
    var qualifying := QualifyingLabels(ScoreList(s), Labels);
    if |qualifying| > 0 then
      assert qualifying[0] in qualifying;
      Join(qualifying, ", ")
    else NoLabelExplanation
  }

  /** What the procedure returns: the overall score, each sub-score rounded
      individually, and the explanation. */
  datatype CompatibilityResult = CompatibilityResult(
    compatibilityScore: int,
    budgetMatch: int,
    scheduleMatch: int,
    cleanlinessMatch: int,
    lifestyleMatch: int,
    petsMatch: int,
    explanation: string)

  function Compute(a: ProfileRow, b: ProfileRow): (r: CompatibilityResult)
    requires Scorable(a, b)
    ensures Bounded(a, b) ==> 0 <= r.compatibilityScore <= 100 && r.budgetMatch <= 100
    ensures r.compatibilityScore >= 0 && r.budgetMatch >= 0
    ensures r.scheduleMatch == 50 || r.scheduleMatch == 100
    ensures 0 <= r.cleanlinessMatch <= 100
    ensures r.lifestyleMatch == 0 || r.lifestyleMatch == 50 || r.lifestyleMatch == 100
    ensures r.petsMatch == 50 || r.petsMatch == 100
  {
    var s := Scores(a, b);
    CompatibilityResult(
      OverallScore(s),
      JsRound(s.budget),
      s.schedule,
      s.cleanliness,
      s.lifestyle,
      s.pets,
      Explanation(s))
  }

  // ---------------------------------------------------------------------------
  // Properties
  // ---------------------------------------------------------------------------

  /** Swapping the two users leaves the budget score unchanged. */
  lemma BudgetScoreSymmetric(a: ProfileRow, b: ProfileRow)
    requires Scorable(a, b)
    ensures Scorable(b, a) && BudgetScore(a, b) == BudgetScore(b, a)
  {
    if BudgetCompared(a, b) {
      assert Abs(Midpoint(a) - Midpoint(b)) == Abs(Midpoint(b) - Midpoint(a));
      assert Max(Midpoint(a), Midpoint(b)) == Max(Midpoint(b), Midpoint(a));
    }
  }

  /** The budget score sees the budgets only through their midpoints. */
  lemma BudgetDependsOnlyOnMidpoints(a: ProfileRow, b: ProfileRow, c: ProfileRow, d: ProfileRow)
    requires BudgetCompared(a, b) && BudgetCompared(c, d) && Scorable(a, b)
    requires Midpoint(a) == Midpoint(c) && Midpoint(b) == Midpoint(d)
    ensures Scorable(c, d) && BudgetScore(a, b) == BudgetScore(c, d)
  {
  }

  /** Full marks for equal midpoints; nothing once they differ by 20% of
      the larger, provided the larger is not negative. */
  lemma BudgetScoreExtremes(a: ProfileRow, b: ProfileRow)
    requires BudgetCompared(a, b) && Scorable(a, b)
    ensures BudgetScore(a, b) == 100.0 <==> Midpoint(a) == Midpoint(b)
    ensures BudgetScore(a, b) == 0.0 <==>
      Max(Midpoint(a), Midpoint(b)) >= 0.0 && Abs(Midpoint(a) - Midpoint(b)) >= Max(Midpoint(a), Midpoint(b)) * 0.2
  {
  }

  /** A budget midpoint of 0 or below against a positive one scores 0: the
      gap is at least the positive midpoint, far beyond its 20%. */
  lemma NonPositiveAgainstPositiveScoresZero(m1: real, m2: real)
    requires m1 <= 0.0 < m2
    ensures BudgetFromMidpoints(m1, m2) == 0.0 && BudgetFromMidpoints(m2, m1) == 0.0
  {
    assert Max(m1, m2) == m2 && Abs(m1 - m2) == m2 - m1;
    assert Max(m2, m1) == m2 && Abs(m2 - m1) == m2 - m1;
  }

  /** Two different negative midpoints score above 100: the ratio's
      denominator is negative, so the penalty becomes a bonus. */
  lemma NegativeBudgetsExceedHundred(m1: real, m2: real)
    requires m1 < 0.0 && m2 < 0.0 && m1 != m2
    ensures BudgetFromMidpoints(m1, m2) > 100.0
  {
  }

  /** Midpoints 0 and 100 score 0, and -200 and -100 score 600. */
  lemma BudgetOutsidePositiveExamples()
    ensures BudgetFromMidpoints(0.0, 100.0) == 0.0
    ensures BudgetFromMidpoints(-200.0, -100.0) == 600.0
  {
    assert Max(-200.0, -100.0) * 0.2 == -20.0;
    assert Abs(-200.0 - -100.0) / -20.0 == -5.0;
  }

  /** Two identical profiles are a perfect match and earn every label. */
  lemma IdenticalProfilesScoreFull(p: ProfileRow)
    requires Scorable(p, p)
    ensures var r := Compute(p, p);
      r.compatibilityScore == 100 && r.budgetMatch == 100 && r.scheduleMatch == 100
      && r.cleanlinessMatch == 100 && r.lifestyleMatch == 100 && r.petsMatch == 100
      && r.explanation == Join(Labels, ", ")
  {
    var s := Scores(p, p);
    assert s == SubScores(100.0, 100, 100, 100, 100);
    AllLabelsQualify(ScoreList(s), Labels);
  }

  lemma {:induction false} AllLabelsQualify(scores: seq<real>, labels: seq<string>)
    requires |scores| == |labels|
    requires forall i :: 0 <= i < |scores| ==> scores[i] > 80.0
    ensures QualifyingLabels(scores, labels) == labels
  {
    if |labels| > 0 {
      AllLabelsQualify(scores[1..], labels[1..]);
    }
  }

  /** A field left unset on either side never lowers budget, schedule or
      cleanliness; lifestyle and pets compare by equality, so two unset
      fields count as a match too. */
  lemma UnsetProfilesScoreFull(a: ProfileRow, b: ProfileRow)
    requires a.budgetMin.None? && a.sleepSchedule.None? && a.cleanlinessLevel.None?
    requires a.smokingPreference.None? && a.drinkingPreference.None? && a.petsAllowed.None?
    requires b.budgetMax.None? && b.sleepSchedule.None? && b.cleanlinessLevel.None?
    requires b.smokingPreference.None? && b.drinkingPreference.None? && b.petsAllowed.None?
    ensures Scorable(a, b) && Scores(a, b) == SubScores(100.0, 100, 100, 100, 100)
  {
  }

  /** Cleanliness loses 20 points per level of difference: 3 vs 5 gives 60,
      1 vs 5 gives 20, 1 vs 1 gives 100. */
  lemma CleanlinessExamples(a: ProfileRow, b: ProfileRow)
    requires a.cleanlinessLevel == Some(3) && b.cleanlinessLevel == Some(5)
    ensures CleanlinessScore(a, b) == 60
    ensures CleanlinessScore(a.(cleanlinessLevel := Some(1)), b) == 20
    ensures CleanlinessScore(a.(cleanlinessLevel := Some(1)), b.(cleanlinessLevel := Some(1))) == 100
  {
  }

  /** A sub-score of exactly 80 earns no label. */
  lemma EightyEarnsNoLabel(s: SubScores)
    requires s.budget == 80.0 && s.schedule <= 80 && s.cleanliness == 80 && s.lifestyle <= 80 && s.pets <= 80
    ensures Explanation(s) == NoLabelExplanation
  {
  }

  function Profile(userId: int, lo: real, hi: real, sleep: SleepSchedule, clean: int,
                   smoking: SmokingPreference, drinking: DrinkingPreference, pets: bool): ProfileRow
  {
    ProfileRow(userId, Some(lo), Some(hi), Some(sleep), Some(clean), Some(smoking), Some(drinking), Some(pets))
  }

  /** Two nearly identical profiles with the same budget midpoint: every
      sub-score is 100, and so is the overall score; every label is earned. */
  lemma ScenarioSimilarProfiles()
    ensures var a := Profile(1, 500.0, 1000.0, Flexible, 4, NoSmoking, DrinksOccasionally, true);
      var b := Profile(2, 550.0, 950.0, Flexible, 4, NoSmoking, DrinksOccasionally, true);
      Scorable(a, b) && Compute(a, b) == CompatibilityResult(100, 100, 100, 100, 100, 100, Join(Labels, ", "))
  {
    var a := Profile(1, 500.0, 1000.0, Flexible, 4, NoSmoking, DrinksOccasionally, true);
    var b := Profile(2, 550.0, 950.0, Flexible, 4, NoSmoking, DrinksOccasionally, true);
    assert Midpoint(a) == 750.0 && Midpoint(b) == 750.0;
    var s := Scores(a, b);
    assert s == SubScores(100.0, 100, 100, 100, 100);
    assert Weighted(s) == 100.0;
    assert OverallScore(s) == 100;
    AllLabelsQualify(ScoreList(s), Labels);
  }

  /** Budget and lifestyle above 80, cleanliness at exactly 80: only the
      first and fourth labels are earned, joined in table order. */
  lemma PartialExplanation()
    ensures Explanation(SubScores(100.0, 50, 80, 100, 50)) == Labels[0] + ", " + Labels[3]
  {
    var l := ScoreList(SubScores(100.0, 50, 80, 100, 50));
    assert QualifyingLabels(l[4..], Labels[4..]) == [];
    assert QualifyingLabels(l[3..], Labels[3..]) == [Labels[3]];
    assert QualifyingLabels(l[1..], Labels[1..]) == [Labels[3]];
    var q := [Labels[0], Labels[3]];
    assert QualifyingLabels(l, Labels) == q;
    assert q[1..] == [Labels[3]];
    assert Join(q, ", ") == Labels[0] + ", " + Labels[3];
  }

  /** A pair that agrees on budget and lifestyle only: budget 100,
      schedule 50, cleanliness 80 (one level apart), lifestyle 100, pets 50;
      overall round(78.5) = 79, and the explanation is "Budget
      compatibility, Lifestyle preferences match". */
  lemma ScenarioPartialMatch()
    ensures var a := Profile(7, 600.0, 900.0, EarlyBird, 4, NoSmoking, NoDrinking, true);
      var b := Profile(8, 700.0, 800.0, NightOwl, 5, NoSmoking, NoDrinking, false);
      Scorable(a, b) && Compute(a, b) == CompatibilityResult(79, 100, 50, 80, 100, 50, Labels[0] + ", " + Labels[3])
  {
    var a := Profile(7, 600.0, 900.0, EarlyBird, 4, NoSmoking, NoDrinking, true);
    var b := Profile(8, 700.0, 800.0, NightOwl, 5, NoSmoking, NoDrinking, false);
    assert Midpoint(a) == 750.0 && Midpoint(b) == 750.0;
    var s := Scores(a, b);
    assert s == SubScores(100.0, 50, 80, 100, 50);
    assert Weighted(s) == 78.5;
    assert JsRound(78.5) == 79;
    PartialExplanation();
  }

  /** Two opposite profiles: budget 0, schedule 50, cleanliness 20,
      lifestyle 0, pets 50, overall round(21.5) = 22, and no label. */
  lemma ScenarioOppositeProfiles()
    ensures var c := Profile(3, 500.0, 700.0, EarlyBird, 5, NoSmoking, NoDrinking, false);
      var d := Profile(4, 1500.0, 2000.0, NightOwl, 1, SmokesRegularly, DrinksRegularly, true);
      Scorable(c, d) && Compute(c, d) == CompatibilityResult(22, 0, 50, 20, 0, 50, NoLabelExplanation)
  {
    var c := Profile(3, 500.0, 700.0, EarlyBird, 5, NoSmoking, NoDrinking, false);
    var d := Profile(4, 1500.0, 2000.0, NightOwl, 1, SmokesRegularly, DrinksRegularly, true);
    assert Midpoint(c) == 600.0 && Midpoint(d) == 1750.0;
    assert BudgetScore(c, d) == 0.0;
    var s := Scores(c, d);
    assert s == SubScores(0.0, 50, 20, 0, 50);
    assert Weighted(s) == 21.5;
    assert JsRound(21.5) == 22;
  }

  /** The overall score weights the unrounded budget score: rounding the
      budget first would give 100 where the source gives 99. */
  lemma OverallUsesUnroundedBudget()
    ensures var a := Profile(5, 1000.0, 1000.0, Flexible, 3, NoSmoking, NoDrinking, true);
      var b := Profile(6, 995.8, 995.8, Flexible, 3, NoSmoking, NoDrinking, true);
      Scorable(a, b) && Compute(a, b).budgetMatch == 98 && Compute(a, b).compatibilityScore == 99
      && OverallScore(Scores(a, b).(budget := 98.0)) == 100
  {
    var a := Profile(5, 1000.0, 1000.0, Flexible, 3, NoSmoking, NoDrinking, true);
    var b := Profile(6, 995.8, 995.8, Flexible, 3, NoSmoking, NoDrinking, true);
    assert Midpoint(a) == 1000.0 && Midpoint(b) == 995.8;
    assert BudgetFromMidpoints(1000.0, 995.8) == 97.9;
    var s := Scores(a, b);
    assert s == SubScores(97.9, 100, 100, 100, 100);
    assert Weighted(s) == 99.475;
    assert JsRound(97.9) == 98;
    assert JsRound(99.475) == 99;
    assert Weighted(s.(budget := 98.0)) == 99.5;
    assert JsRound(99.5) == 100;
  }
}
