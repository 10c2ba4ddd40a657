/**
 * The revenue-leak diagnostic engine (src/lib/diagnostic.ts): baseline
 * revenue, the leak score and its bucket, the ranked findings, the four
 * leverage simulations and the assembled results.
 */
module Diagnostic {
  import opened Wrappers
  import opened JsMath
  import opened Leaks
  import opened Validation

  // ---------------------------------------------------------------------------
  // Baseline
  // ---------------------------------------------------------------------------

  datatype Baseline = Baseline(revenueEst: real, revenuePerSession: real)

  /** Sessions times conversion rate (a percentage) times average order value. */
  function Revenue(sessions: int, rate: real, aov: real): real {
    sessions as real * (rate / 100.0) * aov
  }

  /**
   * calculateBaseline: estimated monthly revenue and revenue per session, each
   * rounded to whole cents; revenue per session is 0 without sessions and is
   * computed from the unrounded estimate.
   */
  function CalculateBaseline(d: FormData): Baseline {
    var raw := Revenue(d.sessions30d, d.conversionRate, d.aov);
    var perSession := if d.sessions30d > 0 then raw / d.sessions30d as real else 0.0;
    Baseline(Round2(raw), Round2(perSession))
  }

  /**
   * The baseline is the raw estimate to the nearest cent, and revenue per
   * session is the unrounded estimate over the sessions to the nearest cent,
   * or exactly 0 without sessions.
   */
  lemma BaselineRounding(d: FormData)
    ensures var b, raw := CalculateBaseline(d), Revenue(d.sessions30d, d.conversionRate, d.aov);
      && raw - 0.005 < b.revenueEst <= raw + 0.005
      && IsWholeCents(b.revenueEst) && IsWholeCents(b.revenuePerSession)
      && (d.sessions30d <= 0 ==> b.revenuePerSession == 0.0)
      && (d.sessions30d > 0 ==>
            raw / d.sessions30d as real - 0.005 < b.revenuePerSession <= raw / d.sessions30d as real + 0.005)
  {
    Round2OfWholeCents(0.0);
  }

  /** With nonnegative inputs the baseline is nonnegative. */
  lemma BaselineNonNegative(d: FormData)
    requires MetricsInBounds(d)
    ensures CalculateBaseline(d).revenueEst >= 0.0 && CalculateBaseline(d).revenuePerSession >= 0.0
  {
    BaselineRounding(d);
    ProductNonNegative(d.sessions30d as real, d.conversionRate / 100.0, d.aov);
    var raw := Revenue(d.sessions30d, d.conversionRate, d.aov);
    if d.sessions30d > 0 {
      QuotientNonNegative(raw, d.sessions30d as real);
    }
  }

  lemma QuotientNonNegative(x: real, y: real)
    requires x >= 0.0 && y > 0.0
    ensures x / y >= 0.0
  {
    var q := x / y;
    assert q * y == x;
  }

  lemma ProductNonNegative(a: real, b: real, c: real)
    requires a >= 0.0 && b >= 0.0 && c >= 0.0
    ensures a * b * c >= 0.0
  {
    assert a * b >= 0.0;
  }

  // ---------------------------------------------------------------------------
  // Leak score and bucket
  // ---------------------------------------------------------------------------

  /** Penalty for the conversion rate: 25 below 1.5%, 15 below 2%, 8 below 2.5%. */
  function ConversionPenalty(rate: real): (p: int)
    ensures p in {0, 8, 15, 25}
    ensures p > 0 <==> rate < 2.5
  {
    if rate < 1.5 then 25 else if rate < 2.0 then 15 else if rate < 2.5 then 8 else 0
  }

  /** Penalty for abandoned carts: 20 above twice the orders, 12 above the orders. */
  function CartPenalty(carts: int, orders: int): (p: int)
    ensures p in {0, 12, 20}
    ensures orders >= 0 ==> (p > 0 <==> carts > orders)
  {
    if carts > orders * 2 then 20 else if carts > orders then 12 else 0
  }

  /** Penalty for the average order value: 12 below 90, 6 below 130. */
  function AovPenalty(aov: real): (p: int)
    ensures p in {0, 6, 12}
    ensures p > 0 <==> aov < 130.0
  {
    if aov < 90.0 then 12 else if aov < 130.0 then 6 else 0
  }

  /** The leak score: 100 less the three penalties, clamped to 0..100. */
  function LeakScore(d: FormData): (score: int)
    ensures 43 <= score <= 100
  {
    Clamp(100 - ConversionPenalty(d.conversionRate)
              - CartPenalty(d.abandonedCarts30d, d.orders30d)
              - AovPenalty(d.aov), 0, 100)
  }

  /** The clamp never changes the score: the penalties add up to at most 57. */
  lemma ClampNeverFires(d: FormData)
    ensures LeakScore(d) == 100 - ConversionPenalty(d.conversionRate)
                                - CartPenalty(d.abandonedCarts30d, d.orders30d)
                                - AovPenalty(d.aov)
  {
  }

  /** calculateLeakScore: subtracts each penalty from 100 in turn, then clamps. */
  method CalculateLeakScore(d: FormData) returns (score: int)
    ensures score == LeakScore(d)
    ensures 43 <= score <= 100
  {
    score := 100;
    if d.conversionRate < 1.5 {
      score := score - 25;
    } else if d.conversionRate < 2.0 {
      score := score - 15;
    } else if d.conversionRate < 2.5 {
      score := score - 8;
    }
    if d.abandonedCarts30d > d.orders30d * 2 {
      score := score - 20;
    } else if d.abandonedCarts30d > d.orders30d {
      score := score - 12;
    }
    if d.aov < 90.0 {
      score := score - 12;
    } else if d.aov < 130.0 {
      score := score - 6;
    }
    score := Clamp(score, 0, 100);
  }

  datatype Bucket = Major | Meaningful | Solid

  function BucketLabel(b: Bucket): string {
    match b
    case Major => "Major Leakage Detected"
    case Meaningful => "Meaningful Leakage Detected"
    case Solid => "Solid Fundamentals"
  }

  datatype BucketInfo = BucketInfo(bucket: Bucket, bucketLabel: string)

  /** getLeakBucket: below 40 is major, below 70 meaningful, otherwise solid. */
  function GetLeakBucket(score: int): (r: BucketInfo)
    ensures r.bucket == Major <==> score < 40
    ensures r.bucket == Meaningful <==> 40 <= score < 70
    ensures r.bucket == Solid <==> 70 <= score
    ensures r.bucketLabel == BucketLabel(r.bucket)
  {
    if score < 40 then BucketInfo(Major, "Major Leakage Detected")
    else if score < 70 then BucketInfo(Meaningful, "Meaningful Leakage Detected")
    else BucketInfo(Solid, "Solid Fundamentals")
  }

  /** A higher score never lands in a worse bucket. */
  lemma BucketMonotone(s1: int, s2: int)
    requires s1 <= s2
    ensures GetLeakBucket(s1).bucket == Solid ==> GetLeakBucket(s2).bucket == Solid
    ensures GetLeakBucket(s2).bucket == Major ==> GetLeakBucket(s1).bucket == Major
  {
  }

  /** Since the score is at least 43, the "major" bucket is never reported. */
  lemma MajorUnreachable(d: FormData)
    ensures GetLeakBucket(LeakScore(d)).bucket != Major
  {
  }

  /** The two other buckets both occur, with in-bounds inputs. */
  lemma OtherBucketsReachable()
    ensures var d := FormData("", "", "https://", 1000, 10, 1.0, 50.0, 100, None);
      MetricsInBounds(d) && GetLeakBucket(LeakScore(d)).bucket == Meaningful
    ensures var d := FormData("", "", "https://", 1000, 10, 3.0, 150.0, 0, None);
      MetricsInBounds(d) && GetLeakBucket(LeakScore(d)).bucket == Solid
  {
  }

  // ---------------------------------------------------------------------------
  // Findings
  // ---------------------------------------------------------------------------

  function ConversionFinding(rate: real): Option<LeakDetail> {
    if rate < 1.5 then Some(WithScore(LowConversion, 25))
    else if rate < 2.0 then Some(WithScore(LowConversion, 15))
    else if rate < 2.5 then Some(WithScore(ConversionMedium, 8))
    else None
  }

  function CartFinding(carts: int, orders: int): Option<LeakDetail> {
    if carts > orders * 2 then Some(WithScore(HighCartAbandon, 20))
    else if carts > orders then Some(WithScore(CartMedium, 12))
    else None
  }

  function AovFinding(aov: real): Option<LeakDetail> {
    if aov < 90.0 then Some(WithScore(LowAov, 12))
    else if aov < 130.0 then Some(WithScore(LowAov, 6))
    else None
  }

  function AsSeq(o: Option<LeakDetail>): seq<LeakDetail> {
    if o.Some? then [o.value] else []
  }

  /** The findings in the order the engine pushes them: conversion, cart, AOV. */
  function Pushed(d: FormData): seq<LeakDetail> {
    AsSeq(ConversionFinding(d.conversionRate))
    + AsSeq(CartFinding(d.abandonedCarts30d, d.orders30d))
    + AsSeq(AovFinding(d.aov))
  }

  /** The ranked findings: the pushed ones, stably sorted by descending impact score. */
  function Findings(d: FormData): seq<LeakDetail> {
    SortByImpact(Pushed(d))
  }

  /** Each finding's score is its category's penalty. */
  predicate ScoredByPenalty(d: FormData, x: LeakDetail) {
    && (x.category() == Conversion ==> x.impactScore == ConversionPenalty(d.conversionRate))
    && (x.category() == Cart ==> x.impactScore == CartPenalty(d.abandonedCarts30d, d.orders30d))
    && (x.category() == Category.Aov ==> x.impactScore == AovPenalty(d.aov))
    && x.category() != Traffic
  }

  lemma ConversionFindingFacts(rate: real)
    ensures ConversionFinding(rate).Some? <==> ConversionPenalty(rate) > 0
    ensures ConversionFinding(rate).Some? ==>
      ConversionFinding(rate).value.category() == Conversion
      && ConversionFinding(rate).value.impactScore == ConversionPenalty(rate)
  {
  }

  lemma CartFindingFacts(carts: int, orders: int)
    ensures CartFinding(carts, orders).Some? <==> CartPenalty(carts, orders) > 0
    ensures CartFinding(carts, orders).Some? ==>
      CartFinding(carts, orders).value.category() == Cart
      && CartFinding(carts, orders).value.impactScore == CartPenalty(carts, orders)
  {
  }

  lemma AovFindingFacts(aov: real)
    ensures AovFinding(aov).Some? <==> AovPenalty(aov) > 0
    ensures AovFinding(aov).Some? ==>
      AovFinding(aov).value.category() == Category.Aov
      && AovFinding(aov).value.impactScore == AovPenalty(aov)
  {
  }

  /** At most one finding per category, concatenated in category order, is in category order. */
  lemma ConcatInCategoryOrder(a: seq<LeakDetail>, b: seq<LeakDetail>, c: seq<LeakDetail>)
    requires |a| <= 1 && |b| <= 1 && |c| <= 1
    requires forall x | x in a :: x.category() == Conversion
    requires forall x | x in b :: x.category() == Cart
    requires forall x | x in c :: x.category() == Category.Aov
    ensures InCategoryOrder(a + b + c)
  {
    var p := a + b + c;
    forall i, j | 0 <= i < j < |p| ensures CategoryRank(p[i].category()) < CategoryRank(p[j].category()) {
      if i < |a| {
        assert p[i] == a[i];
        if j < |a| + |b| {
          assert p[j] == b[j - |a|];
        } else {
          assert p[j] == c[j - |a| - |b|];
        }
      } else {
        assert p[i] == b[i - |a|];
        assert p[j] == c[j - |a| - |b|];
      }
    }
  }

  lemma PushedFacts(d: FormData)
    ensures |Pushed(d)| <= 3
    ensures InCategoryOrder(Pushed(d))
    ensures forall x | x in Pushed(d) :: ScoredByPenalty(d, x)
    ensures (exists x | x in Pushed(d) :: x.category() == Conversion) <==> ConversionPenalty(d.conversionRate) > 0
    ensures (exists x | x in Pushed(d) :: x.category() == Cart) <==> CartPenalty(d.abandonedCarts30d, d.orders30d) > 0
    ensures (exists x | x in Pushed(d) :: x.category() == Category.Aov) <==> AovPenalty(d.aov) > 0
  {
    var a := AsSeq(ConversionFinding(d.conversionRate));
    var b := AsSeq(CartFinding(d.abandonedCarts30d, d.orders30d));
    var c := AsSeq(AovFinding(d.aov));
    ConversionFindingFacts(d.conversionRate);
    CartFindingFacts(d.abandonedCarts30d, d.orders30d);
    AovFindingFacts(d.aov);
    var p := a + b + c;
    assert p == Pushed(d);
    assert forall x :: x in p <==> x in a || x in b || x in c;
    ConcatInCategoryOrder(a, b, c);
  }

  /**
   * The ranked findings: at most three, at most one per category, sorted by
   * descending score with ties in push order, each scored by its category's
   * penalty, and a category present exactly when it is penalised.
   */
  lemma FindingsFacts(d: FormData)
    ensures |Findings(d)| <= 3
    ensures SortedByImpact(Findings(d))
    ensures DistinctCategories(Findings(d)) && TiesInCategoryOrder(Findings(d))
    ensures forall x | x in Findings(d) :: ScoredByPenalty(d, x)
    ensures (exists x | x in Findings(d) :: x.category() == Conversion) <==> ConversionPenalty(d.conversionRate) > 0
    ensures (exists x | x in Findings(d) :: x.category() == Cart) <==> CartPenalty(d.abandonedCarts30d, d.orders30d) > 0
    ensures (exists x | x in Findings(d) :: x.category() == Category.Aov) <==> AovPenalty(d.aov) > 0
  {
    PushedFacts(d);
    SortKeepsCategoryFacts(Pushed(d));
    SortMembers(Pushed(d));
  }

  lemma TotalImpactOfPushed(d: FormData)
    ensures TotalImpact(Pushed(d)) == ConversionPenalty(d.conversionRate)
                                     + CartPenalty(d.abandonedCarts30d, d.orders30d)
                                     + AovPenalty(d.aov)
  {
    var a := AsSeq(ConversionFinding(d.conversionRate));
    var b := AsSeq(CartFinding(d.abandonedCarts30d, d.orders30d));
    var c := AsSeq(AovFinding(d.aov));
    TotalImpactAppend(a, b);
    TotalImpactAppend(a + b, c);
  }

  /** The score is 100 less the impact scores of all findings. */
  lemma ScoreMirrorsFindings(d: FormData)
    ensures LeakScore(d) == 100 - TotalImpact(Findings(d))
  {
    TotalImpactOfPushed(d);
    TotalImpactOfSort(Pushed(d));
  }

  /** The conversion rule of identifyLeaks: below 1.5%, below 2% or below 2.5%, else nothing. */
  method PushConversionFinding(leaks: seq<LeakDetail>, rate: real) returns (r: seq<LeakDetail>)
    ensures r == leaks + AsSeq(ConversionFinding(rate))
  {
    r := leaks;
    if rate < 1.5 {
      r := r + [WithScore(LowConversion, 25)];
    } else if rate < 2.0 {
      r := r + [WithScore(LowConversion, 15)];
    } else if rate < 2.5 {
      r := r + [WithScore(ConversionMedium, 8)];
    }
  }

  /** The cart rule: more than twice the orders, or more than the orders, in abandoned carts. */
  method PushCartFinding(leaks: seq<LeakDetail>, carts: int, orders: int) returns (r: seq<LeakDetail>)
    ensures r == leaks + AsSeq(CartFinding(carts, orders))
  {
    r := leaks;
    if carts > orders * 2 {
      r := r + [WithScore(HighCartAbandon, 20)];
    } else if carts > orders {
      r := r + [WithScore(CartMedium, 12)];
    }
  }

  /** The order-value rule: below 90 or below 130. */
  method PushAovFinding(leaks: seq<LeakDetail>, aov: real) returns (r: seq<LeakDetail>)
    ensures r == leaks + AsSeq(AovFinding(aov))
  {
    r := leaks;
    if aov < 90.0 {
      r := r + [WithScore(LowAov, 12)];
    } else if aov < 130.0 {
      r := r + [WithScore(LowAov, 6)];
    }
  }

  /** identifyLeaks: pushes each category's finding, then sorts by descending impact score. */
  method IdentifyLeaks(d: FormData) returns (leaks: seq<LeakDetail>)
    ensures leaks == Findings(d)
    ensures |leaks| <= 3 && SortedByImpact(leaks)
    ensures DistinctCategories(leaks) && TiesInCategoryOrder(leaks)
  {
    leaks := [];
    leaks := PushConversionFinding(leaks, d.conversionRate);
    leaks := PushCartFinding(leaks, d.abandonedCarts30d, d.orders30d);
    leaks := PushAovFinding(leaks, d.aov);
    assert leaks == Pushed(d);
    leaks := SortByImpact(leaks);
    FindingsFacts(d);
  }

  // ---------------------------------------------------------------------------
  // Leverage simulations
  // ---------------------------------------------------------------------------

  datatype SimulationResult = SimulationResult(
    scenario: string,
    crChange: real,
    aovChange: real,
    newRevenue: int,
    uplift: int,
    upliftPercent: int)

  /**
   * One scenario: the revenue with the conversion rate raised by crChange
   * points and the order value by aovChange, compared with the baseline.
   */
  function Simulate(d: FormData, baseRevenue: real, scenario: string, crChange: real, aovChange: real)
    : SimulationResult
  {
    var projected := Revenue(d.sessions30d, d.conversionRate + crChange, d.aov + aovChange);
    SimulationResult(scenario, crChange, aovChange,
      Round(projected),
      Round(projected - baseRevenue),
      if baseRevenue > 0.0 then Round((projected - baseRevenue) / baseRevenue * 100.0) else 0)
  }

  /**
   * A scenario reports the projected revenue and its gain over the baseline,
   * each to the nearest whole unit, and the gain as a whole percentage of the
   * baseline, or 0 when the baseline is not positive.
   */
  lemma SimulateRounding(d: FormData, baseRevenue: real, scenario: string, crChange: real, aovChange: real)
    ensures var r := Simulate(d, baseRevenue, scenario, crChange, aovChange);
      var projected := Revenue(d.sessions30d, d.conversionRate + crChange, d.aov + aovChange);
      && r.scenario == scenario && r.crChange == crChange && r.aovChange == aovChange
      && projected - 0.5 < r.newRevenue as real <= projected + 0.5
      && projected - baseRevenue - 0.5 < r.uplift as real <= projected - baseRevenue + 0.5
      && (baseRevenue <= 0.0 ==> r.upliftPercent == 0)
      && (baseRevenue > 0.0 ==>
            (projected - baseRevenue) / baseRevenue * 100.0 - 0.5 < r.upliftPercent as real
            <= (projected - baseRevenue) / baseRevenue * 100.0 + 0.5)
  {
  }

  /** The four scenarios, in the order they are reported. */
  function Simulations(d: FormData, baseRevenue: real): (sims: seq<SimulationResult>)
    ensures |sims| == 4
    ensures sims[0].scenario == "Conversion Rate +0.3%" && sims[0].crChange == 0.3 && sims[0].aovChange == 0.0
    ensures sims[1].scenario == "Conversion Rate +0.5%" && sims[1].crChange == 0.5 && sims[1].aovChange == 0.0
    ensures sims[2].scenario == "AOV +$15" && sims[2].crChange == 0.0 && sims[2].aovChange == 15.0
    ensures sims[3].scenario == "AOV +$25" && sims[3].crChange == 0.0 && sims[3].aovChange == 25.0
    ensures baseRevenue <= 0.0 ==> forall i | 0 <= i < 4 :: sims[i].upliftPercent == 0
  {
    [ Simulate(d, baseRevenue, "Conversion Rate +0.3%", 0.3, 0.0),
      Simulate(d, baseRevenue, "Conversion Rate +0.5%", 0.5, 0.0),
      Simulate(d, baseRevenue, "AOV +$15", 0.0, 15.0),
      Simulate(d, baseRevenue, "AOV +$25", 0.0, 25.0) ]
  }

  /** runSimulations: pushes the four scenarios in order. */
  method RunSimulations(d: FormData, baseRevenue: real) returns (sims: seq<SimulationResult>)
    ensures sims == Simulations(d, baseRevenue)
    ensures |sims| == 4
  {
    sims := [];
    sims := sims + [Simulate(d, baseRevenue, "Conversion Rate +0.3%", 0.3, 0.0)];
    sims := sims + [Simulate(d, baseRevenue, "Conversion Rate +0.5%", 0.5, 0.0)];
    sims := sims + [Simulate(d, baseRevenue, "AOV +$15", 0.0, 15.0)];
    sims := sims + [Simulate(d, baseRevenue, "AOV +$25", 0.0, 25.0)];
  }

  /** Raising the rate, with nonnegative sessions and order value, never lowers revenue. */
  lemma RevenueMonotone(sessions: int, r1: real, r2: real, a1: real, a2: real)
    requires sessions >= 0 && 0.0 <= r1 <= r2 && 0.0 <= a1 <= a2
    ensures Revenue(sessions, r1, a1) <= Revenue(sessions, r2, a2)
  {
    var s := sessions as real;
    assert s * (r1 / 100.0) <= s * (r2 / 100.0);
    assert s * (r1 / 100.0) * a1 <= s * (r2 / 100.0) * a1;
    assert s * (r2 / 100.0) * a1 <= s * (r2 / 100.0) * a2;
  }

  /**
   * With nonnegative inputs the larger step of each lever does at least as
   * well as the smaller one: +0.5 points beats +0.3, +$25 beats +$15.
   */
  lemma LargerStepsDoBetter(d: FormData, baseRevenue: real)
    requires MetricsInBounds(d)
    ensures var sims := Simulations(d, baseRevenue);
      && sims[0].newRevenue <= sims[1].newRevenue && sims[0].uplift <= sims[1].uplift
      && sims[2].newRevenue <= sims[3].newRevenue && sims[2].uplift <= sims[3].uplift
  {
    var s, r, a := d.sessions30d, d.conversionRate, d.aov;
    RevenueMonotone(s, r + 0.3, r + 0.5, a + 0.0, a + 0.0);
    RevenueMonotone(s, r + 0.0, r + 0.0, a + 15.0, a + 25.0);
    var p0, p1 := Revenue(s, r + 0.3, a + 0.0), Revenue(s, r + 0.5, a + 0.0);
    var p2, p3 := Revenue(s, r + 0.0, a + 15.0), Revenue(s, r + 0.0, a + 25.0);
    RoundMonotone(p0, p1);
    RoundMonotone(p0 - baseRevenue, p1 - baseRevenue);
    RoundMonotone(p2, p3);
    RoundMonotone(p2 - baseRevenue, p3 - baseRevenue);
  }

  /** Against the store's own baseline, with nonnegative inputs, no scenario shows a loss. */
  lemma UpliftsNonNegative(d: FormData)
    requires MetricsInBounds(d)
    ensures forall i | 0 <= i < 4 :: Simulations(d, CalculateBaseline(d).revenueEst)[i].uplift >= 0
  {
    var s, r, a := d.sessions30d, d.conversionRate, d.aov;
    var base := CalculateBaseline(d).revenueEst;
    var raw := Revenue(s, r, a);
    assert r + 0.0 == r && a + 0.0 == a;
    RevenueMonotone(s, r, r + 0.3, a, a + 0.0);
    RevenueMonotone(s, r, r + 0.5, a, a + 0.0);
    RevenueMonotone(s, r, r + 0.0, a, a + 15.0);
    RevenueMonotone(s, r, r + 0.0, a, a + 25.0);
    RoundMonotone(-0.005, Revenue(s, r + 0.3, a + 0.0) - base);
    RoundMonotone(-0.005, Revenue(s, r + 0.5, a + 0.0) - base);
    RoundMonotone(-0.005, Revenue(s, r + 0.0, a + 15.0) - base);
    RoundMonotone(-0.005, Revenue(s, r + 0.0, a + 25.0) - base);
    assert Round(-0.005) == 0;
  }

  // ---------------------------------------------------------------------------
  // Results
  // ---------------------------------------------------------------------------

  /** DiagnosticResults; the timestamp is supplied by the caller. */
  datatype DiagnosticResults = DiagnosticResults(
    inputs: FormData,
    revenueEst: real,
    revenuePerSession: real,
    leakScore: int,
    leakBucket: Bucket,
    leakBucketLabel: string,
    topLeaks: seq<LeakDetail>,
    simulations: seq<SimulationResult>,
    analyzedAt: string)

  function Min(a: int, b: int): int {
    if a < b then a else b
  }

  /** The results runDiagnostic assembles, as a value. */
  function Diagnose(d: FormData, analyzedAt: string): DiagnosticResults {
    var baseline := CalculateBaseline(d);
    var score := LeakScore(d);
    var findings := Findings(d);
    DiagnosticResults(d, baseline.revenueEst, baseline.revenuePerSession, score,
      GetLeakBucket(score).bucket, GetLeakBucket(score).bucketLabel,
      findings[..Min(2, |findings|)], Simulations(d, baseline.revenueEst), analyzedAt)
  }

  /** runDiagnostic: every part computed from the same inputs, keeping the two highest-ranked findings. */
  method RunDiagnostic(d: FormData, analyzedAt: string) returns (res: DiagnosticResults)
    ensures res.inputs == d && res.analyzedAt == analyzedAt
    ensures res.revenueEst == CalculateBaseline(d).revenueEst
    ensures res.revenuePerSession == CalculateBaseline(d).revenuePerSession
    ensures res.leakScore == LeakScore(d) == 100 - TotalImpact(Findings(d))
    ensures res.leakBucket == GetLeakBucket(res.leakScore).bucket != Major
    ensures res.leakBucketLabel == BucketLabel(res.leakBucket)
    ensures res.topLeaks == Findings(d)[..Min(2, |Findings(d)|)]
    ensures res.simulations == Simulations(d, res.revenueEst)
    ensures res == Diagnose(d, analyzedAt)
  {
    var baseline := CalculateBaseline(d);
    var leakScore := CalculateLeakScore(d);
    var info := GetLeakBucket(leakScore);
    var leaks := IdentifyLeaks(d);
    var simulations := RunSimulations(d, baseline.revenueEst);
    ScoreMirrorsFindings(d);
    res := DiagnosticResults(d, baseline.revenueEst, baseline.revenuePerSession, leakScore,
      info.bucket, info.bucketLabel, leaks[..Min(2, |leaks|)], simulations, analyzedAt);
  }

  // ---------------------------------------------------------------------------
  // Worked examples
  // ---------------------------------------------------------------------------

  /** A store losing on conversion (8) and cart recovery (12) scores 80 and is solid. */
  lemma ExampleTwoMediumLeaks(d: FormData)
    requires d.sessions30d == 15000 && d.orders30d == 350 && d.abandonedCarts30d == 450
    requires d.conversionRate == 2.3 && d.aov == 145.0
    ensures LeakScore(d) == 80 && GetLeakBucket(LeakScore(d)).bucket == Solid
    ensures Findings(d) == [WithScore(CartMedium, 12), WithScore(ConversionMedium, 8)]
    ensures CalculateBaseline(d).revenueEst == 50025.0
  {
    assert Revenue(d.sessions30d, d.conversionRate, d.aov) == 50025.0;
    Round2OfWholeCents(50025.0);
    var conv, cart := WithScore(ConversionMedium, 8), WithScore(CartMedium, 12);
    assert Pushed(d) == [conv, cart];
    assert [conv, cart][..1] == [conv];
    assert SortByImpact([conv]) == [conv];
    assert InsertByImpact(cart, [conv]) == [cart, conv];
  }

  /** A store hit on all three fronts scores 43, the lowest possible, and is still "meaningful". */
  lemma ExampleEveryLeak(d: FormData)
    requires d.sessions30d == 10000 && d.orders30d == 100 && d.abandonedCarts30d == 300
    requires d.conversionRate == 1.2 && d.aov == 70.0
    ensures LeakScore(d) == 43 && GetLeakBucket(LeakScore(d)).bucket == Meaningful
    ensures Findings(d) == [WithScore(LowConversion, 25), WithScore(HighCartAbandon, 20), WithScore(LowAov, 12)]
  {
    var conv, cart, aov := WithScore(LowConversion, 25), WithScore(HighCartAbandon, 20), WithScore(LowAov, 12);
    assert Pushed(d) == [conv, cart, aov];
    SortedAlready(conv, cart, aov);
  }

  /** Of those three findings, the results keep conversion and cart recovery. */
  lemma ExampleEveryLeakTopTwo(d: FormData, analyzedAt: string)
    requires d.sessions30d == 10000 && d.orders30d == 100 && d.abandonedCarts30d == 300
    requires d.conversionRate == 1.2 && d.aov == 70.0
    ensures Diagnose(d, analyzedAt).topLeaks == [WithScore(LowConversion, 25), WithScore(HighCartAbandon, 20)]
  {
    ExampleEveryLeak(d);
    DiagnoseTopLeaks(d, analyzedAt);
    var f := Findings(d);
    assert f[..Min(2, |f|)] == f[..2] == [f[0], f[1]];
  }

  lemma DiagnoseTopLeaks(d: FormData, analyzedAt: string)
    ensures Diagnose(d, analyzedAt).topLeaks == Findings(d)[..Min(2, |Findings(d)|)]
  {
  }

  lemma SortedAlready(a: LeakDetail, b: LeakDetail, c: LeakDetail)
    requires a.impactScore >= b.impactScore >= c.impactScore
    ensures SortByImpact([a, b, c]) == [a, b, c]
  {
    assert [a, b, c][..2] == [a, b];
    assert [a, b][..1] == [a];
    assert SortByImpact([a]) == [a];
    assert SortByImpact([a, b]) == InsertByImpact(b, [a]) == [a, b];
    assert InsertByImpact(c, [b]) == [b, c];
    assert InsertByImpact(c, [a, b]) == [a] + InsertByImpact(c, [b]);
  }

  /** Without sessions a scenario projects nothing and gains nothing. */
  lemma SimulateWithoutSessions(d: FormData, scenario: string, crChange: real, aovChange: real)
    requires d.sessions30d == 0
    ensures Simulate(d, 0.0, scenario, crChange, aovChange) == SimulationResult(scenario, crChange, aovChange, 0, 0, 0)
  {
    assert Revenue(d.sessions30d, d.conversionRate + crChange, d.aov + aovChange) == 0.0;
  }

  /**
   * With no traffic nothing is divided by zero: the baseline is 0 and every
   * scenario reports no revenue, no uplift and no uplift percentage.
   */
  lemma ExampleNoTraffic(d: FormData)
    requires d.sessions30d == 0
    ensures CalculateBaseline(d) == Baseline(0.0, 0.0)
    ensures Simulations(d, 0.0) == [
      SimulationResult("Conversion Rate +0.3%", 0.3, 0.0, 0, 0, 0),
      SimulationResult("Conversion Rate +0.5%", 0.5, 0.0, 0, 0, 0),
      SimulationResult("AOV +$15", 0.0, 15.0, 0, 0, 0),
      SimulationResult("AOV +$25", 0.0, 25.0, 0, 0, 0)]
  {
    assert Revenue(d.sessions30d, d.conversionRate, d.aov) == 0.0;
    Round2OfWholeCents(0.0);
    SimulateWithoutSessions(d, "Conversion Rate +0.3%", 0.3, 0.0);
    SimulateWithoutSessions(d, "Conversion Rate +0.5%", 0.5, 0.0);
    SimulateWithoutSessions(d, "AOV +$15", 0.0, 15.0);
    SimulateWithoutSessions(d, "AOV +$25", 0.0, 25.0);
  }

  /** A store with good numbers has no findings and a perfect score. */
  lemma ExampleNoLeaks(d: FormData)
    requires d.conversionRate >= 2.5 && d.aov >= 130.0 && d.abandonedCarts30d <= d.orders30d
    requires d.orders30d >= 0
    ensures Findings(d) == [] && LeakScore(d) == 100
  {
  }
}
