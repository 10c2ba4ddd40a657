/**
 * The on-screen teaser (generateTeaser in src/lib/diagnostic.ts): a subset
 * of the results plus the scenario with the largest uplift.
 */
module Teaser {
  import opened Wrappers
  import opened Leaks
  import opened Validation
  import opened Diagnostic

  datatype TeaserLeak = TeaserLeak(title: string, description: string, impact: Impact)

  datatype BestSimulation = BestSimulation(scenario: string, uplift: int, upliftPercent: int)

  datatype TeaserResult = TeaserResult(
    leakScore: int,
    leakBucket: Bucket,
    leakBucketLabel: string,
    topLeaks: seq<TeaserLeak>,
    bestSimulation: BestSimulation,
    revenueEst: real)

  /** Array.prototype.reduce without an initial value throws on an empty array. */
  datatype TeaserError = ReduceOfEmptyArray

  /**
   * The index `simulations.reduce((best, current) => current.uplift > best.uplift ? current : best)`
   * ends on: the first simulation with the largest uplift, since a later one
   * replaces the best only when strictly larger.
   */
  function BestIndex(sims: seq<SimulationResult>): (k: nat)
    requires sims != []
    ensures k < |sims|
    ensures forall j | 0 <= j < |sims| :: sims[j].uplift <= sims[k].uplift
    ensures forall j | 0 <= j < k :: sims[j].uplift < sims[k].uplift
  {
    if |sims| == 1 then 0
    else
      var b := BestIndex(sims[..|sims| - 1]);
      if sims[|sims| - 1].uplift > sims[b].uplift then |sims| - 1 else b
  }

  function TeaserLeakOf(leak: LeakDetail): TeaserLeak {
    TeaserLeak(leak.title(), leak.description(), leak.impact())
  }

  /** generateTeaser: copies the headline figures and keeps the best scenario. */
  function GenerateTeaser(results: DiagnosticResults): (r: Result<TeaserResult, TeaserError>)
    ensures r.Failure? <==> results.simulations == []
    ensures r.Success? ==>
      && r.value.leakScore == results.leakScore
      && r.value.leakBucket == results.leakBucket
      && r.value.leakBucketLabel == results.leakBucketLabel
      && r.value.revenueEst == results.revenueEst
      && |r.value.topLeaks| == |results.topLeaks|
      && (forall i | 0 <= i < |results.topLeaks| ::
            r.value.topLeaks[i].title == results.topLeaks[i].title()
            && r.value.topLeaks[i].description == results.topLeaks[i].description()
            && r.value.topLeaks[i].impact == results.topLeaks[i].impact())
    ensures r.Success? ==>
      exists k | 0 <= k < |results.simulations| ::
        && r.value.bestSimulation.scenario == results.simulations[k].scenario
        && r.value.bestSimulation.uplift == results.simulations[k].uplift
        && r.value.bestSimulation.upliftPercent == results.simulations[k].upliftPercent
        && (forall j | 0 <= j < |results.simulations| :: results.simulations[j].uplift <= results.simulations[k].uplift)
        && (forall j | 0 <= j < k :: results.simulations[j].uplift < results.simulations[k].uplift)
  {
    if results.simulations == [] then Failure(ReduceOfEmptyArray)
    else
      var best := results.simulations[BestIndex(results.simulations)];
      Success(TeaserResult(
        results.leakScore,
        results.leakBucket,
        results.leakBucketLabel,
        seq(|results.topLeaks|, i requires 0 <= i < |results.topLeaks| => TeaserLeakOf(results.topLeaks[i])),
        BestSimulation(best.scenario, best.uplift, best.upliftPercent),
        results.revenueEst))
  }

  /** The results of a run always carry four simulations, so their teaser never fails. */
  lemma TeaserOfRunSucceeds(d: FormData, analyzedAt: string)
    ensures GenerateTeaser(Diagnose(d, analyzedAt)).Success?
    ensures |GenerateTeaser(Diagnose(d, analyzedAt)).value.topLeaks| <= 2
  {
    FindingsFacts(d);
  }

  /**
   * Without sessions every uplift is 0, and the tie goes to the first
   * scenario: the teaser then shows "Conversion Rate +0.3%".
   */
  lemma NoSessionsPicksFirstScenario(d: FormData, analyzedAt: string)
    requires d.sessions30d == 0
    ensures GenerateTeaser(Diagnose(d, analyzedAt)).Success?
    ensures GenerateTeaser(Diagnose(d, analyzedAt)).value.bestSimulation
         == BestSimulation("Conversion Rate +0.3%", 0, 0)
  {
    ExampleNoTraffic(d);
    var res := Diagnose(d, analyzedAt);
    assert res.revenueEst == 0.0;
    var sims := res.simulations;
    var k := BestIndex(sims);
  }
}
