# Revenue-leak diagnostic: a verified model

This project models two parts of a store-diagnostic web application in Dafny and proves properties of them.

The first part is the scoring engine in `src/lib/diagnostic.ts`. It takes five store metrics for the last 30 days: sessions, orders, conversion rate, average order value (AOV) and abandoned carts. From these it computes:
- a baseline revenue estimate;
- a 0–100 leak score and its bucket;
- the ranked leak findings, taken from a fixed catalogue;
- four "what if" simulations;
- the on-screen teaser;
- the structure of the e-mailed HTML and text reports.

The second part is input validation in `src/lib/validation.ts`:
- the store-URL normaliser;
- the store-URL shape check, a regular expression with no end anchor;
- the form schema's field rules and messages;
- the revenue ranges;
- the client-side per-field validators.

Modules:
- `Wrappers`: `Option` and `Result`.
- `JsMath`: `Math.round`, rounding to cents and clamping, over exact reals.
- `JsText`: `trim`, ASCII `toLowerCase`, prefix `replace`, UTF-16 length.
- `JsParse`: `parseInt(s, 10)` and `parseFloat`.
- `Leaks`: the catalogue and the stable sort by impact score.
- `Validation`: normalisation, the URL pattern, the schema and the client validators.
- `Diagnostic`: baseline, score, bucket, findings, simulations and `runDiagnostic`.
- `Teaser`: `generateTeaser`.
- `Report`: the two reports, as sequences of blocks.

The engine's step-by-step code is modelled as methods, each proved against a specification function. `calculateLeakScore` decrements a local score. `identifyLeaks` pushes findings and then sorts them. `runSimulations` pushes four records. The rest is pure and is modelled as functions.

## Model

| member | source | states |
|---|---|---|
| JsMath.Round | src/lib/diagnostic.ts:248-250 | `Math.round`: the result n satisfies x − 0.5 < n ≤ x + 0.5, so it is the nearest integer with halves rounded up |
| JsMath.Round2 | src/lib/diagnostic.ts:146-147 | Rounding to cents lands within 0.005 of the input, is a whole number of cents, and is nonnegative for nonnegative input |
| JsMath.Round2OfWholeCents | src/lib/diagnostic.ts:146-147 | An amount already in whole cents is unchanged by rounding to cents |
| JsMath.RoundMonotone | src/lib/diagnostic.ts:248-249 | Rounding preserves order |
| JsMath.Clamp | src/lib/diagnostic.ts:185 | `Math.max(0, Math.min(100, x))` lies in the bounds and leaves an in-range value unchanged |
| JsText.TrimStart | src/lib/validation.ts:5 | Removes exactly the leading whitespace: what it drops is whitespace and what it keeps does not start with whitespace |
| JsText.TrimEnd | src/lib/validation.ts:5 | Removes exactly the trailing whitespace |
| JsText.TrimUnchanged | src/lib/validation.ts:5 | Trimming a string that neither starts nor ends with whitespace changes nothing |
| JsText.TrimOfWhitespace | src/lib/validation.ts:36 | A whitespace-only string trims to the empty string |
| JsText.ToLower | src/lib/validation.ts:5 | Lower-casing keeps the length, keeps every character that is not an upper-case ASCII letter, and maps each upper-case ASCII letter to its lower-case letter |
| JsText.ToLowerUnchanged | src/lib/validation.ts:5 | Lower-casing a string without upper-case ASCII letters changes nothing |
| JsText.StripPrefix | src/lib/validation.ts:14 | An anchored literal `replace` removes the prefix when present and otherwise returns the string unchanged |
| JsText.TrimTrailingSlashes | src/lib/validation.ts:11 | Removes every trailing `/` and nothing else; the result does not end in `/` |
| JsText.IndexOf | src/lib/diagnostic.ts:436 | Finds the first occurrence of the pattern, or −1 when there is none |
| JsText.ReplaceFirstOfPrefix | src/lib/diagnostic.ts:436 | `replace('https://', '')` on a string that starts with it removes exactly that prefix |
| JsText.Utf16Length | src/lib/validation.ts:34-35 | The JavaScript length lies between the number of characters and twice that number |
| JsParse.DigitRun | src/lib/validation.ts:98 | The length of the leading digit run: all digits, followed by a non-digit or the end |
| JsParse.ParseIntOfNatToString | src/lib/validation.ts:98 | `parseInt` reads back the decimal rendering of every count, whatever non-digit text follows it |
| JsParse.ParseIntOfNegatedNatToString | src/lib/validation.ts:98 | `parseInt` reads a minus sign and a count's rendering as the negated count |
| JsParse.ParseIntAfterMinus | src/lib/validation.ts:98 | After a minus sign, `parseInt` reads the same digits, negated |
| JsParse.DigitsValueOfNatToString | src/lib/validation.ts:98 | The digits of a count's rendering have that count as their value |
| JsParse.ParseFloatOfNatToString | src/lib/validation.ts:112 | `parseFloat` reads back the decimal rendering of every count |
| JsParse.ParseFloatOfDecimal | src/lib/validation.ts:112 | `parseFloat` reads "n.ds" as n plus the fraction ds |
| Leaks.CatalogueKeysAreIds | src/lib/diagnostic.ts:54-132 | Every key of the catalogue is the id of the entry stored under it |
| Leaks.IdsAreDistinct | src/lib/diagnostic.ts:54-132 | No two catalogue entries share an id |
| Leaks.SortByImpact | src/lib/diagnostic.ts:231 | The sort keeps the length and is ordered by non-increasing impact score |
| Leaks.InsertPermutes | src/lib/diagnostic.ts:231 | Inserting adds exactly the inserted finding (as multisets) |
| Leaks.SortPermutes | src/lib/diagnostic.ts:231 | The sort is a permutation of its input |
| Leaks.SortMembers | src/lib/diagnostic.ts:231 | The sort keeps exactly the input's members |
| Leaks.InsertKeepsSorted | src/lib/diagnostic.ts:231 | Insertion into a sorted sequence keeps it sorted |
| Leaks.InsertKeepsTies | src/lib/diagnostic.ts:231 | Insertion places the new finding after the findings already present with an equal score |
| Leaks.SortKeepsTies | src/lib/diagnostic.ts:231 | Stability: for every score, the findings with that score keep their input order |
| Leaks.SortedWithSameTiesAreEqual | src/lib/diagnostic.ts:231 | Two sorted sequences with the same findings per score are equal |
| Leaks.StableSortIsUnique | src/lib/diagnostic.ts:231 | Any sorted arrangement that keeps the input order within each score equals the model's sort, so the model agrees with any stable sort |
| Leaks.InsertKeepsDistinct | src/lib/diagnostic.ts:231 | Insertion keeps findings one per category |
| Leaks.ConsKeepsTieOrder | src/lib/diagnostic.ts:231 | Adding a finding in front keeps ties in category order when it ranks before every tie it joins |
| Leaks.InsertKeepsTieOrder | src/lib/diagnostic.ts:231 | Insertion of a later category keeps equal-score findings in category order |
| Leaks.SortKeepsCategoryFacts | src/lib/diagnostic.ts:204-234 | Sorting findings pushed in category order keeps them one per category, with ties in category order |
| Leaks.TotalImpactAppend | src/lib/diagnostic.ts:155-186 | The total impact of a concatenation is the sum of the totals |
| Leaks.TotalImpactOfInsert | src/lib/diagnostic.ts:231 | Insertion adds exactly the inserted finding's score to the total |
| Leaks.TotalImpactOfSort | src/lib/diagnostic.ts:231 | Ranking neither adds nor removes impact |
| Validation.StripProtocol | src/lib/validation.ts:8 | Removes one leading `https://`, or else one leading `http://`, and otherwise changes nothing |
| Validation.StripWww | src/lib/validation.ts:14 | Removes one leading `www.` when present and otherwise changes nothing |
| Validation.StoredHost | src/lib/validation.ts:5-14 | The host kept after trim, lower-casing and stripping has no upper-case ASCII letter and does not end in `/` |
| Validation.NormalizeStoreUrl | src/lib/validation.ts:4-18 | The output starts with `https://`, has no upper-case ASCII letter, and does not end in `/` unless it is `https://` alone |
| Validation.StoredHostOfClean | src/lib/validation.ts:5-14 | On a trimmed lower-case URL, the host is the result of the three `replace` calls in order |
| Validation.CleanHttpsUrl | src/lib/validation.ts:5 | Trim and lower-casing leave `https://` followed by a lower-case tail, not ending in whitespace or `/`, unchanged |
| Validation.ProtocolOfHttpsUrl | src/lib/validation.ts:8 | Stripping the protocol from `https://` + host leaves the host |
| Validation.CanonicalHostUntouched | src/lib/validation.ts:11-14 | Slash trimming and the `www.` strip leave a canonical host unchanged |
| Validation.NormalizeKeepsCanonical | src/lib/validation.ts:4-18 | A URL already in stored form is its own normal form |
| Validation.NormalizeExample | src/lib/validation.ts:4-18 | `"WWW.www.Shop.com/"` becomes `"https://www.shop.com"`: case and the trailing slash go, and only one `www.` is removed |
| Validation.StoredHostOfExample | src/lib/validation.ts:5-14 | The host kept for `"WWW.www.Shop.com/"` is `"www.shop.com"` |
| Validation.NormalizeStripsOneProtocol | src/lib/validation.ts:8 | Only one protocol is stripped: `"https://https://shop.com"` normalises to itself, while its tail normalises to `"https://shop.com"` |
| Validation.WwwTail | src/lib/validation.ts:11-14 | With `www.` in front of a lower-case tail, slash trimming changes nothing and the `www.` strip removes exactly that `www.` |
| Validation.NormalizeOfHttpsWww | src/lib/validation.ts:4-18 | `https://www.` and a lower-case tail, not ending in whitespace or `/`, normalise to `https://` and the tail |
| Validation.NormalizeNotIdempotent | src/lib/validation.ts:4-18 | Normalising is not idempotent: `https://www.www.` + host becomes `https://www.` + host, and normalising that again gives `https://` + host, a different string |
| Validation.TestUrlPatternIsRegex | src/lib/validation.ts:52-54 | The character-scanning matcher accepts exactly the strings with a prefix in the pattern's language, which is what `test` does without an end anchor |
| Validation.ScanImpliesRegex | src/lib/validation.ts:52-54 | Whatever the matcher accepts, the regular expression matches |
| Validation.RegexImpliesScan | src/lib/validation.ts:52-54 | Whatever the regular expression matches, the matcher accepts |
| Validation.LabelEnd | src/lib/validation.ts:52 | The end of the greedy run of label characters |
| Validation.LabelEndAt | src/lib/validation.ts:52 | A label-character run ended by another character is what `LabelEnd` finds |
| Validation.NothingStripped | src/lib/validation.ts:53 | A URL starting with neither `h` nor `w` is matched against the pattern unchanged |
| Validation.PrefixesStripped | src/lib/validation.ts:53 | One protocol and one `www.` in front of a host are stripped before the test |
| Validation.PatternIgnoresTrailingText | src/lib/validation.ts:52-54 | There is no end anchor: anything after a string that passes the test still passes |
| Validation.PatternAcceptsDottedName | src/lib/validation.ts:52 | A name, a dot and a label pass, for example `mystore.com` |
| Validation.ShapeAcceptsDomain | src/lib/validation.ts:49-57 | A bare domain that starts with neither `h` nor `w` is accepted as it is |
| Validation.ShapeAcceptsFullUrl | src/lib/validation.ts:49-57 | `https://www.` followed by a host that passes the pattern, and then by any text, is accepted |
| Validation.ShapeRejectsNoDot | src/lib/validation.ts:49-57 | A URL without a dot is rejected, for example `mystore` |
| Validation.ShapeRejectsLeadingHyphen | src/lib/validation.ts:49-57 | A leading hyphen is rejected, for example `-shop.com` |
| Validation.ShapeRejectsUpperCaseProtocol | src/lib/validation.ts:53 | The protocol is stripped case-sensitively, so `HTTPS://` + anything is rejected |
| Validation.ParseRevenueRange | src/lib/validation.ts:87-88 | A string is accepted exactly when it is one of the four range values, and it names that range |
| Validation.RevenueRangesRoundTrip | src/lib/validation.ts:21-26 | The list holds every range once, and each range's value parses back to it |
| Validation.ParseFirstName | src/lib/validation.ts:32-36 | Accepted exactly when the raw length is 1 to 100 before trimming; the value is the trimmed string; a rejection carries a message |
| Validation.WhitespaceNameBecomesEmpty | src/lib/validation.ts:32-36 | A whitespace-only name of allowed length passes and becomes `""` |
| Validation.ParseEmail | src/lib/validation.ts:38-43 | Accepted exactly when non-empty, at most 255 long and an address; trimmed and lower-cased only afterwards |
| Validation.ParseStoreUrl | src/lib/validation.ts:45-58 | Accepted exactly when 1 to 500 long and of the expected shape; the value is the normalised URL |
| Validation.StoreUrlIssues | src/lib/validation.ts:47-57 | No issue exactly when the length and shape checks all pass |
| Validation.ParseNumber | src/lib/validation.ts:60-85 | A number field is accepted exactly when it is a number within its rule's bounds (whole where required, ≥ 0, ≤ the maximum if any), and the value is kept; a missing value is reported as required and any other non-number with the field's type message |
| Validation.ParseNumberCollectsAll | src/lib/validation.ts:60-63 | The checks do not stop at the first failure: a negative fraction gets the whole-number and negative messages, in that order |
| Validation.ParseNumberTooHigh | src/lib/validation.ts:60-80 | A value above its bound gets exactly the too-high message |
| Validation.ParseRange | src/lib/validation.ts:87-90 | Absent or null gives no range; a string gives a range exactly when it is one of the four values; the range's value is the string submitted |
| Validation.IssuesOf | src/lib/validation.ts:31 | A succeeded field has no issues; a failed field has one issue per message, in order, carrying that message and tagged with the field |
| Validation.Assemble | src/lib/validation.ts:31-91 | A form is built exactly when every field succeeded |
| Validation.ParseForm | src/lib/validation.ts:31-91 | `safeParse` succeeds exactly when every field's checks pass |
| Validation.CheckFieldsAcceptance | src/lib/validation.ts:31-91 | Every field succeeds exactly under its own conditions: length, format, type and bounds |
| Validation.ParseFormAcceptance | src/lib/validation.ts:31-91 | The form is accepted exactly when every field meets its own conditions |
| Validation.CheckFieldsExplained | src/lib/validation.ts:31-91 | Every failed field carries at least one message |
| Validation.AllIssuesNonEmpty | src/lib/validation.ts:31-91 | When some field failed and each failure has a message, the form's issue list is not empty |
| Validation.ParseFormReportsIssues | src/lib/validation.ts:31-91 | A rejected form always carries at least one issue |
| Validation.CheckFieldsAdmitted | src/lib/validation.ts:60-85 | Every numeric field that succeeded lies within its rule's bounds |
| Validation.AssembleInBounds | src/lib/validation.ts:60-85 | Whole numbers survive the conversion to integers, and the bounds carry over to the form |
| Validation.ParseFormValues | src/lib/validation.ts:31-91 | An accepted form holds the trimmed name, the trimmed lower-case e-mail, the normalised URL and the submitted numbers, all within bounds |
| Validation.ValidateField | src/lib/validation.ts:96-133 | No message exactly when the parsed value is a number, ≥ 0 and not above the field's maximum; the checks run in the order not-a-number, negative, too high |
| Validation.ClientAcceptsNumerals | src/lib/validation.ts:97-132 | The count validators accept every decimal numeral, whatever follows it |
| Validation.ClientRejectsNegativeNumerals | src/lib/validation.ts:97-132 | The count validators reject a minus sign followed by a positive numeral with the field's negative message |
| Validation.ClientBoundsWholeNumbers | src/lib/validation.ts:111-125 | The rate and AOV validators accept a whole numeral exactly up to their maximum and give the too-high message above it |
| Validation.SchemaRejectsTooManySessions | src/lib/validation.ts:64 | The schema rejects more than 100,000,000 sessions |
| Validation.ClientAcceptsTooManySessions | src/lib/validation.ts:97-102 | The sessions validator accepts counts that the schema rejects as too high |
| Validation.ClientAcceptsFractionalOrders | src/lib/validation.ts:104-109 | The orders validator reads only the whole part of "12.5" and accepts it, while the schema rejects 12.5 |
| Diagnostic.BaselineRounding | src/lib/diagnostic.ts:141-149 | The revenue estimate is the raw estimate to the nearest cent. Revenue per session is the unrounded estimate over the sessions, to the nearest cent, or exactly 0 without sessions |
| Diagnostic.BaselineNonNegative | src/lib/diagnostic.ts:141-149 | With in-bounds inputs both baseline figures are nonnegative |
| Diagnostic.ConversionPenalty | src/lib/diagnostic.ts:159-165 | The conversion deduction is one of 0, 8, 15 and 25, and it is positive exactly below 2.5% |
| Diagnostic.CartPenalty | src/lib/diagnostic.ts:171-175 | The cart deduction is one of 0, 12 and 20, and, for a nonnegative order count, it is positive exactly when abandoned carts exceed orders |
| Diagnostic.AovPenalty | src/lib/diagnostic.ts:178-182 | The AOV deduction is one of 0, 6 and 12, and it is positive exactly below 130 |
| Diagnostic.LeakScore | src/lib/diagnostic.ts:155-186 | The score always lies in [43, 100] |
| Diagnostic.ClampNeverFires | src/lib/diagnostic.ts:184-185 | The clamp never changes the score: it equals 100 minus the three deductions |
| Diagnostic.CalculateLeakScore | src/lib/diagnostic.ts:155-186 | The method's chained decrements produce `LeakScore`, which lies in [43, 100] |
| Diagnostic.GetLeakBucket | src/lib/diagnostic.ts:191-199 | The buckets partition all scores: major exactly below 40, meaningful exactly in [40, 70), solid exactly from 70; each carries its fixed label |
| Diagnostic.BucketMonotone | src/lib/diagnostic.ts:191-199 | A higher score never falls into a worse bucket |
| Diagnostic.MajorUnreachable | src/lib/diagnostic.ts:155-199 | No engine-computed score is in the major bucket |
| Diagnostic.OtherBucketsReachable | src/lib/diagnostic.ts:155-199 | Both remaining buckets occur for in-bounds inputs |
| Diagnostic.ConversionFindingFacts | src/lib/diagnostic.ts:208-214 | A conversion finding is pushed exactly when there is a conversion deduction, with that deduction as its score |
| Diagnostic.CartFindingFacts | src/lib/diagnostic.ts:217-221 | A cart finding is pushed exactly when there is a cart deduction, with that deduction as its score |
| Diagnostic.AovFindingFacts | src/lib/diagnostic.ts:224-228 | An AOV finding is pushed exactly when there is an AOV deduction, with that deduction as its score |
| Diagnostic.ConcatInCategoryOrder | src/lib/diagnostic.ts:207-228 | At most one finding per category, pushed conversion, cart, AOV, is in category order |
| Diagnostic.PushedFacts | src/lib/diagnostic.ts:204-228 | The pushed findings: at most three, in category order, each scored by its category's deduction, and each category present exactly when it is penalised |
| Diagnostic.FindingsFacts | src/lib/diagnostic.ts:204-234 | The ranked findings: at most three, one per category, sorted by descending score with ties in push order, each scored by its deduction, and each category present exactly when penalised |
| Diagnostic.TotalImpactOfPushed | src/lib/diagnostic.ts:155-228 | The pushed findings' scores add up to the three deductions |
| Diagnostic.ScoreMirrorsFindings | src/lib/diagnostic.ts:155-234 | The score is 100 minus the sum of all findings' impact scores |
| Diagnostic.PushConversionFinding | src/lib/diagnostic.ts:208-214 | The conversion branch appends exactly the conversion finding, if any |
| Diagnostic.PushCartFinding | src/lib/diagnostic.ts:217-221 | The cart branch appends exactly the cart finding, if any |
| Diagnostic.PushAovFinding | src/lib/diagnostic.ts:224-228 | The AOV branch appends exactly the AOV finding, if any |
| Diagnostic.IdentifyLeaks | src/lib/diagnostic.ts:204-234 | The method returns the ranked findings: at most three, sorted, one per category, with ties in push order |
| Diagnostic.SimulateRounding | src/lib/diagnostic.ts:243-250 | A scenario reports the projected revenue and its gain over the baseline, each to the nearest unit, and the gain as a rounded percentage of the baseline, or 0 when the baseline is not positive |
| Diagnostic.Simulations | src/lib/diagnostic.ts:239-287 | Exactly four scenarios in the fixed order +0.3 points, +0.5 points, +$15, +$25; every uplift percentage is 0 when the baseline is not positive |
| Diagnostic.RunSimulations | src/lib/diagnostic.ts:239-287 | The method's four pushes produce `Simulations` |
| Diagnostic.RevenueMonotone | src/lib/diagnostic.ts:243-276 | With nonnegative inputs, raising the rate or the order value never lowers projected revenue |
| Diagnostic.LargerStepsDoBetter | src/lib/diagnostic.ts:239-287 | With in-bounds inputs, +0.5 points does at least as well as +0.3 points, and +$25 at least as well as +$15, in revenue and in uplift |
| Diagnostic.UpliftsNonNegative | src/lib/diagnostic.ts:239-287 | Against the store's own baseline and with in-bounds inputs, no scenario shows a loss |
| Diagnostic.RunDiagnostic | src/lib/diagnostic.ts:300-318 | The inputs are echoed; the baseline, score, bucket and label come from their functions; the bucket is never major; the top leaks are the first min(2, n) ranked findings; the simulations use the rounded baseline |
| Diagnostic.DiagnoseTopLeaks | src/lib/diagnostic.ts:314 | The results keep the first min(2, n) ranked findings |
| Diagnostic.ExampleTwoMediumLeaks | src/lib/diagnostic.ts:155-234 | A store losing on conversion (8) and cart recovery (12) scores 80 and is solid; the cart finding ranks first, and the baseline is 50025 |
| Diagnostic.ExampleEveryLeak | src/lib/diagnostic.ts:155-234 | A store hit on all three fronts scores 43, the minimum, is still meaningful, and has findings ranked 25, 20, 12 |
| Diagnostic.ExampleEveryLeakTopTwo | src/lib/diagnostic.ts:314 | Of those three findings, the results keep low conversion and high cart abandonment |
| Diagnostic.SortedAlready | src/lib/diagnostic.ts:231 | Sorting three findings already in descending order changes nothing |
| Diagnostic.SimulateWithoutSessions | src/lib/diagnostic.ts:239-287 | Without sessions, a scenario projects no revenue, no uplift and no uplift percentage |
| Diagnostic.ExampleNoTraffic | src/lib/diagnostic.ts:141-149 | Without sessions nothing is divided by zero: the baseline is (0, 0) and all four scenarios report zeros |
| Diagnostic.ExampleNoLeaks | src/lib/diagnostic.ts:155-234 | A store with good numbers has no findings and a perfect score |
| Teaser.BestIndex | src/lib/diagnostic.ts:351-353 | The reduce ends on a simulation with the largest uplift, and on the first such one, since a later one wins only when strictly larger |
| Teaser.GenerateTeaser | src/lib/diagnostic.ts:349-371 | Fails (reduce of an empty array) exactly without simulations. Otherwise it copies score, bucket, label and revenue, maps the top leaks in order to their title, description and impact, and reports the first simulation with the largest uplift |
| Teaser.TeaserOfRunSucceeds | src/lib/diagnostic.ts:349-371 | The teaser of a run never fails and shows at most two leaks |
| Teaser.NoSessionsPicksFirstScenario | src/lib/diagnostic.ts:351-353 | Without sessions all uplifts tie at 0, and the teaser shows "Conversion Rate +0.3%" |
| Report.ScoreColour | src/lib/diagnostic.ts:448 | The status colour is red exactly below 40, amber exactly in [40, 70), green exactly from 70 |
| Report.ColourMatchesBucket | src/lib/diagnostic.ts:448 | The colour cut-offs are the bucket's cut-offs |
| Report.RunReportNeverRed | src/lib/diagnostic.ts:448 | A run's report never shows the red status colour |
| Report.StoreShownIsHost | src/lib/diagnostic.ts:436 | A normalised store URL is shown as its host |
| Report.Header | src/lib/diagnostic.ts:430-488 | The header is three blocks |
| Report.HeaderAndFooterShown | src/lib/diagnostic.ts:430-488 | Both reports open with the first name and the store without `https://`, then the score and status label (coloured only in HTML), then the five metrics with both baseline figures; the last block is the call to action with the calendar link |
| Report.GenerateFullReport | src/lib/diagnostic.ts:384-546 | The HTML report is the HTML layout: four fixed blocks, one per top leak (or the fallback alone) and one per simulation, so the layout lemmas apply to it |
| Report.GenerateFullReportText | src/lib/diagnostic.ts:551-609 | The text report is the text layout, with the same block count |
| Report.PrioritiesNumbered | src/lib/diagnostic.ts:387-406 | Section i is numbered i + 1 and shows the i-th top leak's title, description and checklist; in HTML only the first is red |
| Report.FallbackExactlyWithoutLeaks | src/lib/diagnostic.ts:495 | The "no major leaks" fallback appears exactly when there are no top leaks |
| Report.OneLinePerSimulation | src/lib/diagnostic.ts:408-418 | One line per simulation, in order, showing its scenario, new revenue and uplift; only HTML shows the percentage |
| Report.ReportsAgree | src/lib/diagnostic.ts:551-609 | The text report carries the same blocks as the HTML one, apart from the colours, the uplift percentages and the fallback's wording |

## Left out

- Numbers are exact reals, not IEEE-754 doubles. Rounding artefacts such as `1.005 * 100` and negative zero are not modelled.
- `parseInt` and `parseFloat` never overflow in the model: a numeral too long for a double does not become Infinity, and the 2^53 precision limit is not modelled.
- Number formatting (`toLocaleString`, `toFixed`) and the HTML and CSS text of the reports are not modelled. Each report is modelled as a sequence of blocks that keep the values shown.
- The fallback wording of each report is kept in `Report.FallbackMessage`; the blocks record only which report they belong to.
- `toLowerCase` is modelled on ASCII letters only; other upper-case letters are left as they are.
- The e-mail address check of the schema library is a parameter (`isEmail`) of `ParseEmail` and `ParseForm`.
- The library's default messages (required, wrong type, not an option) have no wording in the model; the schema's own messages are spelled out in `Message.text` and `NumberRule`.
- The submitted body is modelled as one raw value per known field. Unknown keys, and bodies that are not JSON objects, are not modelled.
- The timestamp `analyzedAt` comes from the clock; it is a parameter of `RunDiagnostic` and `Diagnose`.
- The in-place mechanics of `Array.prototype.sort` are not modelled: the ranking is a stable insertion sort on values. `Leaks.StableSortIsUnique` shows it equals the result of any stable sort.
- The `calendarUrl` is passed through to the call-to-action block; e-mail sending, the API routes, the database and the CRM integrations are outside this model. So is the `cartAbandonRate` field read by src/app/api/diagnostic/route.ts:73 and src/lib/integrations.ts:109; the engine's rule compares the abandoned-cart count with the orders.
- Leaks.LeakDefinition: the catalogue's texts are member functions without contracts. `Leaks.CatalogueKeysAreIds` and `Leaks.IdsAreDistinct` state what is proved about them.
- Diagnostic.CalculateBaseline, Diagnostic.Simulate: their rounding contracts are stated by `Diagnostic.BaselineRounding` and `Diagnostic.SimulateRounding` rather than on the functions themselves.
- JsParse.ParseInt (`parseInt(value, 10)`, src/lib/validation.ts:98,105,128): its own contract says only that it never yields Infinity. Its values are stated by `JsParse.ParseIntOfNatToString`, `JsParse.ParseIntOfNegatedNatToString` and `JsParse.ParseIntAfterMinus`.
- JsParse.ParseFloat (`parseFloat(value)`, src/lib/validation.ts:112,120): no contract of its own. Its values are stated by `JsParse.ParseFloatOfNatToString` and `JsParse.ParseFloatOfDecimal`.
- JsText.Trim (`.trim()`, src/lib/validation.ts:5,36,43): no contract of its own. It is `TrimEnd` after `TrimStart`, whose contracts characterise it; `JsText.TrimUnchanged` and `JsText.TrimOfWhitespace` state its fixed points and its whitespace-only case.
- JsText.ReplaceFirst and Report.StoreShown (`.replace('https://', '')`, src/lib/diagnostic.ts:436,575): no contract of their own. `JsText.IndexOf` characterises the occurrence they replace, `JsText.ReplaceFirstOfPrefix` states the prefix case, and `Report.StoreShownIsHost` states what a normalised URL shows.
- Validation.TestUrlPattern (`urlPattern.test(cleaned)`, src/lib/validation.ts:52-54): no contract of its own. `Validation.TestUrlPatternIsRegex` states that it accepts exactly the strings with a prefix in the pattern's language.
- Validation.StoreUrlShapeOk (the refine callback, src/lib/validation.ts:49-55): no contract of its own. `Validation.NothingStripped`, `Validation.PrefixesStripped` and the `Validation.Shape…` lemmas state what it accepts and rejects.

Two facts about the code that a reader of the reports may not expect:
- The text report omits each simulation's uplift percentage (src/lib/diagnostic.ts:568) and the second sentence of the fallback (src/lib/diagnostic.ts:593). `Report.ReportsAgree` states what the two reports share.
- `uplift` is `Math.round(projection − revenueEst)` (src/lib/diagnostic.ts:249), computed from the unrounded projection. It can therefore differ by one from `Math.round(newRevenue − revenueEst)`.
