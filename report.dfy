/**
 * The e-mailed report (generateFullReport and generateFullReportText in
 * src/lib/diagnostic.ts), as the sequence of blocks each one lays out. The
 * markup, styling and number formatting are not modelled; each block keeps
 * the values it shows.
 */
module Report {
  import opened Wrappers
  import opened JsText
  import opened Leaks
  import opened Validation
  import opened Diagnostic

  datatype Format = Html | Text

  /** The highlight of a priority section in the HTML report: red for the first, orange after. */
  datatype Accent = Red | Orange

  datatype ReportBlock =
    | Greeting(firstName: string, store: string)
    | ScoreBlock(score: int, statusLabel: string, colour: Option<string>)
    | MetricsBlock(sessions: int, orders: int, conversionRate: real, aov: real,
                   abandonedCarts: int, revenueEst: real, revenuePerSession: real)
    | PriorityFix(number: nat, accent: Option<Accent>, title: string, description: string,
                  checklist: seq<string>)
    | NoLeaksFallback(format: Format)
    | SimulationLine(scenario: string, newRevenue: int, uplift: int, upliftPercent: Option<int>)
    | CallToAction(url: string)

  /** The colour of the status line: below 40 red, below 70 amber, otherwise green. */
  function ScoreColour(score: int): (c: string)
    ensures c == "#fca5a5" <==> score < 40
    ensures c == "#fcd34d" <==> 40 <= score < 70
    ensures c == "#86efac" <==> 70 <= score
  {
    if score < 40 then "#fca5a5" else if score < 70 then "#fcd34d" else "#86efac"
  }

  function BucketColour(b: Bucket): string {
    match b
    case Major => "#fca5a5"
    case Meaningful => "#fcd34d"
    case Solid => "#86efac"
  }

  /** The status colour uses the same cut-offs as the bucket. */
  lemma ColourMatchesBucket(score: int)
    ensures ScoreColour(score) == BucketColour(GetLeakBucket(score).bucket)
  {
  }

  /** The store as shown: the stored URL with its first "https://" removed. */
  function StoreShown(storeUrl: string): string {
    ReplaceFirst(storeUrl, "https://", "")
  }

  /** A normalised store URL is shown as its host. */
  lemma StoreShownIsHost(url: string)
    ensures StoreShown(NormalizeStoreUrl(url)) == StoredHost(url)
  {
    ReplaceFirstOfPrefix(NormalizeStoreUrl(url), "https://");
  }

  /** One section per top leak, numbered from 1. */
  function PrioritySections(leaks: seq<LeakDetail>, format: Format): seq<ReportBlock> {
    seq(|leaks|, i requires 0 <= i < |leaks| =>
      PriorityFix(i + 1,
        if format == Html then Some(if i == 0 then Red else Orange) else None,
        leaks[i].title(), leaks[i].description(), leaks[i].checkFirst()))
  }

  /** The wording of the fallback block in each report. */
  function FallbackMessage(format: Format): string {
    if format == Html then "Great news! No major leaks detected. Focus on optimization and scaling."
    else "Great news! No major leaks detected."
  }

  /** The priority part: the sections, or the fallback message when there are none. */
  function PriorityPart(leaks: seq<LeakDetail>, format: Format): seq<ReportBlock> {
    var sections := PrioritySections(leaks, format);
    if sections == [] then [NoLeaksFallback(format)] else sections
  }

  /** One line per simulation; only the HTML report shows the uplift percentage. */
  function SimulationLines(sims: seq<SimulationResult>, format: Format): seq<ReportBlock> {
    seq(|sims|, i requires 0 <= i < |sims| =>
      SimulationLine(sims[i].scenario, sims[i].newRevenue, sims[i].uplift,
        if format == Html then Some(sims[i].upliftPercent) else None))
  }

  /** The greeting, the score and the metrics, in that order. */
  function Header(results: DiagnosticResults, format: Format): (h: seq<ReportBlock>)
    ensures |h| == 3
  {
    var inputs := results.inputs;
    [ Greeting(inputs.firstName, StoreShown(inputs.storeUrl)),
      ScoreBlock(results.leakScore, results.leakBucketLabel,
                 if format == Html then Some(ScoreColour(results.leakScore)) else None),
      MetricsBlock(inputs.sessions30d, inputs.orders30d, inputs.conversionRate, inputs.aov,
                   inputs.abandonedCarts30d, results.revenueEst, results.revenuePerSession) ]
  }

  function Layout(results: DiagnosticResults, calendarUrl: string, format: Format): seq<ReportBlock> {
    Header(results, format)
    + PriorityPart(results.topLeaks, format)
    + SimulationLines(results.simulations, format)
    + [CallToAction(calendarUrl)]
  }

  /** Indexing the middle part of a four-part layout. */
  lemma IndexOfPart(a: seq<ReportBlock>, b: seq<ReportBlock>, c: seq<ReportBlock>, e: seq<ReportBlock>, k: nat)
    requires k < |b|
    ensures (a + b + c + e)[|a| + k] == b[k]
  {
    assert (a + b + c + e) == a + (b + (c + e));
  }

  /** generateFullReport */
  function GenerateFullReport(results: DiagnosticResults, calendarUrl: string): (report: seq<ReportBlock>)
    ensures |report| == 4 + (if results.topLeaks == [] then 1 else |results.topLeaks|) + |results.simulations|
    ensures report == Layout(results, calendarUrl, Html)
  {
    Layout(results, calendarUrl, Html)
  }

  /** generateFullReportText */
  function GenerateFullReportText(results: DiagnosticResults, calendarUrl: string): (report: seq<ReportBlock>)
    ensures |report| == 4 + (if results.topLeaks == [] then 1 else |results.topLeaks|) + |results.simulations|
    ensures report == Layout(results, calendarUrl, Text)
  {
    Layout(results, calendarUrl, Text)
  }

  /**
   * Both reports open with the greeting (first name and the store without
   * "https://"), the score with its status label (coloured only in HTML) and
   * the metrics with the baseline, and close with the call to action.
   */
  lemma HeaderAndFooterShown(results: DiagnosticResults, calendarUrl: string, format: Format)
    ensures var report := Layout(results, calendarUrl, format);
      var inputs := results.inputs;
      && |report| >= 5
      && report[0] == Greeting(inputs.firstName, StoreShown(inputs.storeUrl))
      && report[1] == ScoreBlock(results.leakScore, results.leakBucketLabel,
                                 if format == Html then Some(ScoreColour(results.leakScore)) else None)
      && report[2] == MetricsBlock(inputs.sessions30d, inputs.orders30d, inputs.conversionRate, inputs.aov,
                                   inputs.abandonedCarts30d, results.revenueEst, results.revenuePerSession)
      && report[|report| - 1] == CallToAction(calendarUrl)
  {
    var head := Header(results, format);
    var rest := PriorityPart(results.topLeaks, format) + SimulationLines(results.simulations, format)
                + [CallToAction(calendarUrl)];
    assert Layout(results, calendarUrl, format) == head + rest;
  }

  /** Where the simulation lines start. */
  function SimStart(results: DiagnosticResults): nat {
    3 + (if results.topLeaks == [] then 1 else |results.topLeaks|)
  }

  /**
   * Both reports: section i (from 0) is "Priority i + 1" and shows the i-th
   * top leak's title, description and checklist; in HTML only the first is red.
   */
  lemma PrioritiesNumbered(results: DiagnosticResults, calendarUrl: string, format: Format, i: nat)
    requires i < |results.topLeaks|
    ensures var report := Layout(results, calendarUrl, format);
      && 3 + i < |report|
      && report[3 + i].PriorityFix?
      && report[3 + i].number == i + 1
      && report[3 + i].title == results.topLeaks[i].title()
      && report[3 + i].description == results.topLeaks[i].description()
      && report[3 + i].checklist == results.topLeaks[i].checkFirst()
      && (format == Html ==> report[3 + i].accent == Some(if i == 0 then Red else Orange))
  {
    var head := Header(results, format);
    var part := PriorityPart(results.topLeaks, format);
    var sections := PrioritySections(results.topLeaks, format);
    var lines := SimulationLines(results.simulations, format);
    assert |sections| == |results.topLeaks|;
    assert part == sections;
    IndexOfPart(head, part, lines, [CallToAction(calendarUrl)], i);
  }

  /** The fallback message appears exactly when there are no top leaks. */
  lemma FallbackExactlyWithoutLeaks(results: DiagnosticResults, calendarUrl: string, format: Format)
    ensures var report := Layout(results, calendarUrl, format);
      (exists k | 0 <= k < |report| :: report[k].NoLeaksFallback?) <==> results.topLeaks == []
  {
    var report := Layout(results, calendarUrl, format);
    var head := Header(results, format);
    var part := PriorityPart(results.topLeaks, format);
    var lines := SimulationLines(results.simulations, format);
    var tail := [CallToAction(calendarUrl)];
    assert report == head + part + lines + tail;
    if results.topLeaks == [] {
      IndexOfPart(head, part, lines, tail, 0);
      assert report[3].NoLeaksFallback?;
    } else {
      assert part == PrioritySections(results.topLeaks, format);
      forall k | 0 <= k < |report| ensures !report[k].NoLeaksFallback? {
        if 3 <= k < 3 + |part| {
          IndexOfPart(head, part, lines, tail, k - 3);
        } else if 3 + |part| <= k < 3 + |part| + |lines| {
          IndexOfPart(head + part, lines, tail, [], k - 3 - |part|);
          assert head + part + lines + tail + [] == report;
        } else if k >= 3 + |part| + |lines| {
          IndexOfPart(head + part + lines, tail, [], [], k - 3 - |part| - |lines|);
          assert head + part + lines + tail + [] + [] == report;
        } else {
          assert report[k] == head[k];
        }
      }
    }
  }

  /** Both reports: one line per simulation, in order, showing its values. */
  lemma OneLinePerSimulation(results: DiagnosticResults, calendarUrl: string, format: Format, j: nat)
    requires j < |results.simulations|
    ensures var report := Layout(results, calendarUrl, format);
      && SimStart(results) + j < |report|
      && report[SimStart(results) + j] == SimulationLine(
           results.simulations[j].scenario, results.simulations[j].newRevenue, results.simulations[j].uplift,
           if format == Html then Some(results.simulations[j].upliftPercent) else None)
  {
    var head := Header(results, format);
    var part := PriorityPart(results.topLeaks, format);
    var lines := SimulationLines(results.simulations, format);
    assert |part| == SimStart(results) - 3;
    IndexOfPart(head + part, lines, [CallToAction(calendarUrl)], [], j);
    assert head + part + lines + [CallToAction(calendarUrl)] + [] == Layout(results, calendarUrl, format);
  }

  /** The block without the details only the HTML report has, and with the fallback's wording dropped. */
  function Plain(b: ReportBlock): ReportBlock {
    match b
    case ScoreBlock(score, statusLabel, _) => ScoreBlock(score, statusLabel, None)
    case PriorityFix(number, _, title, description, checklist) => PriorityFix(number, None, title, description, checklist)
    case NoLeaksFallback(_) => NoLeaksFallback(Text)
    case SimulationLine(scenario, newRevenue, uplift, _) => SimulationLine(scenario, newRevenue, uplift, None)
    case _ => b
  }

  predicate SamePlain(a: seq<ReportBlock>, b: seq<ReportBlock>) {
    |a| == |b| && forall k | 0 <= k < |a| :: Plain(a[k]) == Plain(b[k])
  }

  lemma SamePlainConcat(a1: seq<ReportBlock>, a2: seq<ReportBlock>, b1: seq<ReportBlock>, b2: seq<ReportBlock>)
    requires SamePlain(a1, b1) && SamePlain(a2, b2)
    ensures SamePlain(a1 + a2, b1 + b2)
  {
    forall k | 0 <= k < |a1| + |a2| ensures Plain((a1 + a2)[k]) == Plain((b1 + b2)[k]) {
      if k >= |a1| {
        assert (a1 + a2)[k] == a2[k - |a1|] && (b1 + b2)[k] == b2[k - |a1|];
      }
    }
  }

  lemma PriorityPartsAgree(leaks: seq<LeakDetail>)
    ensures SamePlain(PriorityPart(leaks, Html), PriorityPart(leaks, Text))
  {
  }

  lemma SimulationLinesAgree(sims: seq<SimulationResult>)
    ensures SamePlain(SimulationLines(sims, Html), SimulationLines(sims, Text))
  {
  }

  /**
   * The text report carries the same blocks as the HTML one, apart from the
   * colours, the uplift percentages and the fallback's wording.
   */
  lemma ReportsAgree(results: DiagnosticResults, calendarUrl: string)
    ensures SamePlain(GenerateFullReport(results, calendarUrl), GenerateFullReportText(results, calendarUrl))
  {
    var hh, th := Header(results, Html), Header(results, Text);
    var hp, tp := PriorityPart(results.topLeaks, Html), PriorityPart(results.topLeaks, Text);
    var hs, ts := SimulationLines(results.simulations, Html), SimulationLines(results.simulations, Text);
    var cta := [CallToAction(calendarUrl)];
    assert SamePlain(hh, th) by {
      assert hh[0] == th[0] && hh[2] == th[2];
    }
    PriorityPartsAgree(results.topLeaks);
    SimulationLinesAgree(results.simulations);
    SamePlainConcat(hh, hp, th, tp);
    SamePlainConcat(hh + hp, hs, th + tp, ts);
    SamePlainConcat(hh + hp + hs, cta, th + tp + ts, cta);
  }

  /** A run's report never shows the red status colour, since its score is at least 43. */
  lemma RunReportNeverRed(d: FormData, analyzedAt: string, calendarUrl: string)
    ensures GenerateFullReport(Diagnose(d, analyzedAt), calendarUrl)[1].colour != Some("#fca5a5")
  {
  }
}
