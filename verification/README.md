# Browser checker: scoring and classification engine

This project models the engine of the browser checker page (`app.js`), a Vue
setup function that inspects the visitor's browser and scores it from 100 down.
The engine runs in three stages, in this order:

- **Feature stage (`checkModernFeatures`).**
  - Runs a list of feature probes in order and records `{ name, supported }` for each.
  - Takes 3 points off for every unsupported feature.
  - Sorts the records in place: supported first, then by name.
- **Browser stage (`detectBrowserInfo`).**
  - Classifies the user agent with a first-match table of case-insensitive patterns.
  - Takes 30 points off a regional custom browser and 15 off an in-app webview.
  - Reads the `chrome/<digits>` token and distrusts versions above 110 reported by those two families: they are recorded as text and scored as 103.
  - Takes off a banded penalty for the engine version and clamps the score at 0.
- **Recommendation stage (`generateRecommendation`).**
  - Builds the recommendation from the support-rate sentence and the upgrade sentence.
  - Sets the switch advice for the two penalised families.

`onMounted` runs the first two stages. When anything throws, it sets the score to 50 and the recommendation to a fixed error text.

Modules:

- `Text`: the matching primitives.
  - The patterns are literal alternatives with the `i` flag and without the `u` flag. A test is therefore ASCII case folding followed by substring search.
  - Also: the greedy `\d+` run, `parseInt` of a digit run, and the decimal text of a number.
- `Features`:
  - probe outcomes and result records
  - the supported and unsupported counts
  - `getSupportRate`
  - the comparator and the in-place sort of `detectionResults`
  - `scoreColorClass`
- `Browser`:
  - the family table
  - the version token
  - the distrust rule
  - the version bands
  - the penalties
- `Recommendation`: the sentences of `generateRecommendation`.
- `Detector`: the page state as a class, with one field per `ref` of the engine (`isLoading` and `displayScore` are left out). Its methods update the fields in place, as the source does, and `Run` runs a page visit from fresh state.

Environment inputs are parameters:

- The user agent is a string argument.
- Each probe is given by its outcome (`Returns(b)` or `Throws`).
- `localeCompare(…, 'zh-CN')` is an abstract `collate` function. Its only assumption is what `sort` needs: the sign flips when the arguments are swapped, and "not after" is transitive.

`safeTest` (app.js:77-88) would turn a throwing probe into an unsupported one, but nothing calls it: `checkModernFeatures` calls `feature.test()` directly (app.js:381). The model follows the code:

- A throwing probe aborts the `map`.
- The points already taken off stay taken off.
- `detectionResults` keeps its old value.
- The browser stage does not run.
- `onMounted`'s `catch` sets the score to 50 and the error text.

## Model

| member | source | states |
|---|---|---|
| `Text.ContainsCI` | app.js:415-449 | `/pat/i.test(s)` for a literal pattern: some position of `s` where the pattern matches after ASCII case folding of both sides; `ClassificationTable` and `XwebIsRegional` state the family rows with it |
| `Text.ContainsAnyCI` | app.js:415-422 | The test of an alternation of literal patterns under the `i` flag, as in the two marker regexes: it holds exactly when one of the alternatives occurs, ignoring case |
| `Text.Contains` | app.js:526 | `s.includes(pat)`: some position of `s` where `pat` occurs exactly, case-sensitively; `DisguisedTextCarriesMarker`, `FeatureSentenceNamesRate` and `VersionAdviceNamesVersion` state their results with it |
| `Text.DigitsValue` | app.js:461 | `parseInt(ds, 10)` of a run of ASCII digits, most significant first; `DecimalRoundTrip` and `DigitsRoundTrip` prove it inverts `Decimal` |
| `Text.Decimal` | app.js:469 | The text a whole number concatenates to is non-empty, all ASCII digits, and has no leading zero |
| `Text.DecimalRoundTrip` | app.js:461 | `parseInt` of the decimal text of `n` gives back `n` |
| `Text.DigitsRoundTrip` | app.js:461 | A digit run without a leading zero is exactly the decimal text of the number `parseInt` reads from it |
| `Text.DigitRunEnd` | app.js:458 | The greedy `\d+` after a position ends at the first non-digit or at the end of the string, and everything it takes is a digit |
| `Features.FirstThrow` | app.js:380-390 | When some probe throws, the one that aborts the `map` throws and every probe before it returned |
| `Features.ResultOf` | app.js:386-389 | The record `{ name, supported }` of a probe that returned carries the feature's name and the value the probe returned |
| `Features.Results` | app.js:380-390 | Exactly one record per feature, in definition order, carrying that feature's name and its probe's result |
| `Features.ProbePenaltyAppend` | app.js:380-385 | Each further record adds 3 to the feature penalty when it is unsupported and nothing when supported |
| `Features.CountSupported` | app.js:35-38 | `filter(item => item.supported).length`: at most the number of records; with `CountUnsupported` it partitions them (`CountsPartition`) and is invariant under reordering (`CountsPermutation`) |
| `Features.CountUnsupported` | app.js:40-44 | `filter(item => !item.supported).length`: at most the number of records; see `CountsPartition`, `CountsConcat` and `CountsPermutation` |
| `Features.ProbePenalty` | app.js:382-385 | The points the feature stage takes off: 3 per unsupported record, one record at a time as `ProbePenaltyAppend` states |
| `Features.CountsPartition` | app.js:35-44 | Every record is counted once, as supported or as unsupported: the two counts add up to the number of records |
| `Features.CountsConcat` | app.js:35-44 | Both counts are additive over a concatenation of record lists |
| `Features.CountsPermutation` | app.js:393-403 | Reordering the records changes neither count, so the counts read after the sort are the counts of the probes |
| `Features.SupportRate` | app.js:47-51 | The support rate is at most 100, and 0 when there are no records |
| `Features.SupportRateRounds` | app.js:47-51 | The rate is the whole number nearest to 100·supported/total, with halves rounding up: (2r−1)·n ≤ 200·s < (2r+1)·n |
| `Features.RoundedPercent` | app.js:50 | `Math.round((supportedCount / detectionResults.value.length) * 100)`, for a length n > 0 and a count s ≤ n, is at most 100; `RoundedPercentRounds` proves it is the exact ratio rounded half up |
| `Features.RoundedPercentRounds` | app.js:50 | The integer formula for `Math.round((supportedCount / detectionResults.value.length) * 100)` is at most 100 and within half a unit of the exact ratio |
| `Features.Compare` | app.js:393-400 | The comparator: supported records before unsupported ones, otherwise `localeCompare` of the names; its consistency is `CompareConsistent` and the order it defines is characterised by `SortedMeaning` |
| `Features.CompareConsistent` | app.js:393-400 | The comparator's sign flips when its arguments are swapped (negative one way exactly when positive the other, so 0 both ways together), and its "not after" relation is transitive, given the same of `localeCompare` |
| `Features.SortedMeaning` | app.js:393-400 | A list is in comparator order exactly when every supported record precedes every unsupported one and records of equal status are in collation order of their names |
| `Features.SortResults` | app.js:393-400 | The in-place sort leaves the array in comparator order and a permutation of what it held |
| `Features.InsertLast` | app.js:393-400 | One insertion step extends the sorted prefix by one record, permutes the array and leaves the rest untouched |
| `Features.ScoreColorClass` | app.js:19-24 | The colour tiers: green exactly at 100, yellow for 80-99, orange for 70-79, red below 70 |
| `Browser.LabelInjective` | app.js:429-455 | Different families are stored as different `browserType` texts |
| `Browser.Label` | app.js:430-453 | The eight texts stored in `browserType`; `LabelInjective` proves them pairwise different |
| `Browser.IsRegional` | app.js:415 | `isChinaBrowser`: one of HeyTap, Quark, baidu, xweb, miuibrowser, mibrowser occurs in the user agent, ignoring case |
| `Browser.IsWebview` | app.js:422 | `isWebView`: one of WeChat, MicroMessenger, QQ, xweb occurs in the user agent, ignoring case; `XwebIsRegional` proves the two lists overlap on xweb |
| `Browser.Classify` | app.js:429-455 | The first-match family table; `ClassificationTable` states each row as an if-and-only-if and `XwebIsRegional` the overlap of the two marker lists |
| `Browser.ClassificationTable` | app.js:415-455 | Each family is chosen exactly when its own test passes and the tests of every row above it fail |
| `Browser.XwebIsRegional` | app.js:415-434 | A user agent containing "xweb" matches both marker lists and is classified as a regional browser |
| `Browser.FamilyPenalty` | app.js:429-436 | Only the regional (30) and webview (15) families lose points for their family |
| `Browser.TokenAt` | app.js:458 | `/chrome\/(\d+)/i` can start matching at a position exactly when `chrome/` in any case begins there and a digit follows it; `FindToken` and `ChromeMatch` find the leftmost such position |
| `Browser.FindToken` | app.js:458 | Finds the leftmost position at or after a start where `chrome/` (any case) followed by a digit begins, or there is none |
| `Browser.ChromeMatch` | app.js:458-459 | The regex matches exactly when a token exists; the match is the leftmost token and its digit group is the maximal digit run after it |
| `Browser.ReportedVersion` | app.js:458-461 | A version is reported exactly when the user agent holds a `chrome/<digit>` token |
| `Browser.ReportedVersionOfToken` | app.js:458-461 | A user agent with `Chrome/<n>` after a token-free prefix, not followed by a digit, reports exactly `n` |
| `Browser.DisguisedTextCarriesMarker` | app.js:468-469 | The recorded text of a distrusted version always contains the marker the recommendation stage tests for, so the two stages agree on which versions are distrusted |
| `Browser.IsUnreliable` | app.js:462 | `isUnreliableVersion`: the browser is regional or a webview and the reported version is above 110; `SpoofRule` states what follows from it |
| `Browser.EffectiveVersion` | app.js:462-465 | The version used for scoring never exceeds the reported one |
| `Browser.RecordedVersion` | app.js:465-474 | The stored `chromeVersion` is the reported number, or the text form naming the reported number and 103; `SpoofRule` says which |
| `Browser.ChromeVersion.Display` | app.js:469 | The text `伪装成 <reported> 的 <assumed>` of a distrusted version, or the number's decimal text; `DisguisedTextCarriesMarker` proves the text form holds the marker |
| `Browser.ChromeVersion.IsDisguisedText` | app.js:526 | The recommendation stage's test `typeof chromeVersion === 'string' && chromeVersion.includes('伪装')`: the stored version is the text form and that text contains the marker; `DisguisedTextCarriesMarker` proves it holds exactly for the text form |
| `Browser.SpoofRule` | app.js:462-477 | A version is distrusted exactly when the browser is regional or a webview and reports above 110; it is then recorded as text naming the reported number and 103, and banded as 103 (40 points); otherwise it is recorded and banded as reported |
| `Browser.VersionPenalty` | app.js:478-498 | The band penalty, at most 50; `VersionPenaltyAntitone` proves the bands cover every version and never rise with it |
| `Browser.VersionPenaltyAntitone` | app.js:477-498 | Every version falls into a band (0, 10, 15, 20, 30, 40 or 50 points), a newer engine never loses more, and only versions above 132 lose nothing |
| `Browser.BrowserPenalty` | app.js:429-498 | The browser stage takes off at most 80 points, and only the family penalty when there is no token |
| `Browser.DistrustedPenalty` | app.js:462-492 | A distrusted version costs a regional browser 70 points and a webview 55 in all |
| `Browser.ClampAtZero` | app.js:503-507 | The clamped score is never negative, never lower than before, and unchanged when already non-negative |
| `Recommendation.FeatureSentence` | app.js:564-574 | The five-tier feature sentence; `FeatureSentenceNamesRate` proves every tier names `<rate>%` |
| `Recommendation.FeatureSentenceNamesRate` | app.js:562-574 | Every tier of the feature sentence names the support rate as `<rate>%` |
| `Recommendation.VersionAdvice` | app.js:533-543 | The five-tier advice for a numeric version; `VersionAdviceNamesVersion` proves every tier names `Chromium <v>` |
| `Recommendation.VersionAdviceNamesVersion` | app.js:533-543 | Every tier of the numeric upgrade advice names the version as `Chromium <v>` |
| `Recommendation.UpgradeSentence` | app.js:521-548 | The upgrade sentence is never empty |
| `Recommendation.UpgradeSentenceCases` | app.js:521-548 | No Chromium engine gives the generic advice, a distrusted version the fixed warning, a numeric version the banded advice for that number |
| `Recommendation.SwitchSuggestion` | app.js:551-559 | The new `switchSuggestion` from the stored label and the previous value; `SwitchSuggestionByFamily` states it per family |
| `Recommendation.SwitchSuggestionByFamily` | app.js:550-559 | Switch advice is set only for the regional and webview families, each with its own text; every other family keeps the previous value |
| `Recommendation.Combine` | app.js:577-581 | The feature sentence, then a space and the upgrade sentence when that is not empty; `CombineParts` proves the space and upgrade sentence are always added |
| `Recommendation.CombineParts` | app.js:576-581 | The recommendation is the feature sentence, one space, then the upgrade sentence |
| `Detector.Detector.constructor` | app.js:7-14 | The initial values of the page state: empty texts, no engine, version 0, score 100, no records |
| `Detector.Detector.CheckModernFeatures` | app.js:380-400 | When every probe returns: a new array of one record per feature, sorted and a permutation of the records, with 3 points off per unsupported one. When a probe throws: the records are not replaced and only the probes before it have taken off points. No other field changes |
| `Detector.Detector.RunProbes` | app.js:380-390 | The `map` loop: the records so far are those of the probes run so far, and the score has lost 3 points per unsupported one |
| `Detector.Detector.DetectBrowserInfo` | app.js:408-513 | Stores the user agent, the family label and the version record, takes off the family and version penalties, clamps at 0, then sets the recommendation and switch advice from the new state |
| `Detector.Detector.ApplyBrowserPenalties` | app.js:414-507 | The family rows, the version rows and the clamp together take `BrowserPenalty` off the score and clamp it at 0 |
| `Detector.Detector.ApplyFamily` | app.js:428-455 | Sets `browserType` to the label of the classified family and takes off that family's penalty |
| `Detector.Detector.ApplyChromeVersion` | app.js:457-501 | Without a token nothing changes; with one, the engine is marked, the version recorded by the distrust rule, and the band penalty of the effective version taken off |
| `Detector.Detector.GenerateRecommendation` | app.js:516-584 | The recommendation is built from the support rate of the current records and the recorded version; the switch advice follows the stored family label |
| `Detector.Detector.Mount` | app.js:587-625 | When every probe returns, both stages run in order with their combined effect on every field. When one throws, the score is 50, the recommendation is the error text, and the browser fields are untouched |
| `Detector.Run` | app.js:587-627 | A page visit ends with a score in [0, 100] equal to max(0, 100 − 3·unsupported − family penalty − version penalty). The records are a sorted permutation of the probe results, and the recommendation is the feature sentence, a space and the upgrade sentence. The stored user agent is `ua`, and the switch advice is non-empty only for the two penalised families. On a throwing probe it ends with score 50 and the error text, and every other field keeps its initial value: no user agent, no records, no family, no engine, version 0, no switch advice |

## Left out

- The probe bodies (app.js:95-377): each probe is given by its outcome, because the probes read the live browser environment.
- All `console.log`/`console.error` output, because it has no effect on the state.
- `animateScore` and `displayScore` (app.js:53-74), the timers, the DOM class changes and `isLoading` in `onMounted`: they are timing, animation and rendering. `animateScore` is called inside the `try` of `onMounted` (app.js:603), so a throw from its first `requestAnimationFrame` (app.js:67) would reach the `catch` and replace a finished report with score 50 and the error text; that throw path is not modelled.
- `scoreColorGradient` (app.js:27-32): it is presentation only, and it has the same tiers as `scoreColorClass`.
- Vue reactivity: each `ref` is a plain field of the `Detector` class.
- The collation order of `localeCompare(…, 'zh-CN')`: it is an abstract parameter, since ICU's order cannot be written out here.
- `Features.SortResults`: stability is not stated. The engine's `Array.prototype.sort` is stable (records that compare equal keep their definition order), and the insertion sort that stands in for it is stable too, but the contract states only that the result is in comparator order and a permutation.
- `Features.SupportRate`: computed on exact rationals. The source divides in floating point before rounding, which can differ at exact halves.
- `Browser.ReportedVersion`: versions are unbounded whole numbers. `parseInt` in the source reads a digit run exactly only up to 2^53 (9007199254740992); above that it rounds to the nearest double (or to `Infinity` past the largest double).
- `Text.Decimal`: always writes plain digits. The source writes numbers from 1e21 up in exponent form.
- `Features.ProbeOutcome`: a probe that returns a falsy non-boolean (the CSS Variables probe returns `undefined` when `window.CSS` is absent) is modelled as returning `false`. In the source such a record holds that value, and the comparator's `!==` test can then treat two "unsupported" records as having different status.
