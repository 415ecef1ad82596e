# Go/no-go decision engine

A Dafny model of the decision core of a small client-side flight-conditions
tool (`app.js`). The tool looks up a place, fetches the current weather and,
when a nearby station publishes one, an aviation terminal forecast (TAF), and
shows a GO / CAUTION / NO-GO recommendation. The model covers the part that
decides:

- `RULES` — the fixed thresholds (wind 10 / 14 m/s, gusts 18 m/s, rain
  0.5 / 2 mm/h, snow 0.5 mm/h, visibility 3000 m, cloud base 120 m);
- `evaluateConditions` — builds the ordered list of checks (wind speed, wind
  gusts, precipitation, snowfall, visibility, cloud base, then the TAF check
  when there is one) by appending to a list, and reduces it to the most severe
  level; modelled as the method `Evaluator.EvaluateConditions`, which appends
  to a local `seq` just as the source pushes onto its array;
- `evaluateTafRisk` — upper-cases the forecast text and searches it for
  severe tokens, then caution tokens; `String.prototype.includes` and
  `Array.prototype.some` are modelled as `TafClassifier.Includes`,
  `TafClassifier.SomeIncluded` and `Evaluator.HasLevel`, and proved equal to
  the plain "occurs at some position" definitions;
- `condition` — the record builder; it is the constructor of the
  `Evaluator.Condition` datatype (its `label` field is called `factor`,
  because `label` is a Dafny keyword);
- `recommendationLabel` — the display label of a level string.

Files: `wrappers.dfy` (Option, standing in for `null`), `ascii.dfy` (ASCII
upper-casing), `levels.dfy` (levels and their labels), `rules.dfy`
(thresholds and per-factor tiers), `taf_risk.dfy` (forecast classifier),
`evaluator.dfy` (the evaluator, and a client that evaluates five sample readings: calm
weather, which is go, then the same weather with one factor over its limit
each: wind 12 m/s, gusts 20 m/s, rain 3 mm/h, visibility 2000 m).

Readings are Dafny `real`s: the rules are only strict comparisons against
constants, so exact reals give the same verdicts as the source's numbers.
The number-to-text conversion of the displayed values is a parameter
`show: real -> string`; the unit suffixes and `Math.round` (nearest integer,
halves up) applied to visibility and cloud base are modelled.

The thresholds are the constant `RULES` (app.js:1-10), and app.js has no
error path for a missing reading, so the model has neither a threshold
parameter nor an error result.

## Model

| member | source | states |
|---|---|---|
| `Rules.WindSpeedLevel` | app.js:141 | no-go exactly above 14 m/s; at least caution exactly above 10 m/s |
| `Rules.WindGustLevel` | app.js:142 | never caution; no-go exactly above 18 m/s |
| `Rules.PrecipitationLevel` | app.js:143 | no-go exactly above 2 mm/h; at least caution exactly above 0.5 mm/h |
| `Rules.SnowfallLevel` | app.js:144 | never caution; no-go exactly above 0.5 mm/h |
| `Rules.VisibilityLevel` | app.js:145 | never caution; no-go exactly below 3000 m |
| `Rules.CloudBaseLevel` | app.js:146 | never caution; no-go exactly below 120 m |
| `Rules.StrictThresholds` | app.js:1-10 | a reading equal to a limit stays in the lower tier: wind 10 is go and 14 is caution, gusts 18, rain 0.5, snow 0.5, visibility 3000 and cloud base 120 are go, rain 2 is caution |
| `Rules.RaisingNeverImproves` | app.js:141-144 | a higher wind speed, gust, precipitation or snowfall never gives that factor a less severe level |
| `Rules.LoweringNeverImproves` | app.js:145-146 | a lower visibility or cloud base never gives that factor a less severe level |
| `Evaluator.Round` | app.js:145-146 | the rounded value is the integer nearest the reading, halves going up |
| `Evaluator.HasLevel` | app.js:153-154 | the left-to-right scan reports a level exactly when some check has it |
| `Evaluator.EvaluateConditions` | app.js:138-158 | six checks in the fixed order with their labels, values with units and per-factor levels, plus a seventh "TAF hazards" check exactly when the classifier returns an assessment; the overall level is the most severe check level: no-go iff some check is no-go, caution iff none is no-go and some is caution, go iff all are go |
| `TafClassifier.IncludesIffOccurs` | app.js:165 | `Includes`, the model of `includes`: the left-to-right substring scan succeeds exactly when the token occurs at some position of the text |
| `TafClassifier.SomeIncludedIffContainsAny` | app.js:165 | `SomeIncluded`, the model of `tokens.some((token) => upper.includes(token))` at app.js:165 and 170: testing every token of a list agrees with "some token of the list occurs somewhere" |
| `TafClassifier.EvaluateTafRisk` | app.js:160-175 | no assessment exactly when the text is absent or empty; otherwise one of the three fixed level/reason pairs |
| `TafClassifier.TafRiskTiers` | app.js:163-174 | for non-empty text: no-go iff a severe token occurs in the upper-cased text, whatever caution tokens are present; caution iff no severe and some caution token occurs; go iff no token of either list occurs |
| `TafClassifier.CaseInsensitive` | app.js:163 | texts that differ only in the case of ASCII letters get the same assessment |
| `TafClassifier.UpperOccurrence` | app.js:163-165 | a stretch of the text that upper-cases to a token is an occurrence of that token in the upper-cased text |
| `TafClassifier.LetterGIsCautionToken` | app.js:169-170 | any 'g' or 'G' in the text matches the bare "G" caution token |
| `TafClassifier.LetterGMeansCaution` | app.js:163-171 | a text holding 'g' or 'G' and no severe token is classified caution |
| `TafClassifier.NoSpaceOnlyLetterGCounts` | app.js:164-174 | in a text without a space no severe token can match, and it is caution exactly when it holds 'g' or 'G', otherwise go |
| `TafClassifier.LeadingThunderstormIsGo` | app.js:164-174 | "TSRA" alone, a thunderstorm code with no space before it, is classified go |
| `TafClassifier.ThunderstormWithBrokenCloudIsNoGo` | app.js:164-167 | "TEMPO 1500 TSRA BKN008" is no-go although it also holds the broken-cloud caution token |
| `Ascii.UpperChar` | app.js:163 | a lower-case ASCII letter becomes the matching capital; every other character is unchanged; the result is never a lower-case letter |
| `Ascii.Upper` | app.js:163 | upper-casing keeps the length and upper-cases each character in place |
| `Levels.RecommendationLabel` | app.js:205-209 | "GO" exactly for "go", "CAUTION" exactly for "caution", "NO-GO" for any other string |
| `Levels.LabelIsUpperCasedName` | app.js:205-209 | for each of the three levels the label is its name in capitals, so distinct levels get distinct labels |

## Left out

- Network access (`geocode`, `fetchOpenMeteo`, `fetchAviationData`): calls to third-party services; the model takes the parsed reading and the forecast text as inputs. Of the aviation record only the TAF text is used by the core; the station id and METAR are display-only.
- The page (element lookups, listeners, `renderResult`, `setLoadingState`, `showError`, `hideError`) and the request sequencing in `checkWeather`: user-interface and asynchronous glue.
- The text of displayed numbers: JavaScript's number-to-string conversion is the parameter `show`.
- Floating point: readings are exact reals, so a value a binary double cannot hold exactly and the rounding quirks of `Math.round` on doubles are not modelled.
- Missing readings: the model takes typed readings and so has no such inputs. In JavaScript a `null` reading (how a JSON response carries a missing value) compares as 0, so it gets the level of reading 0.0: a null wind, gust, rain or snow reading is go and shows as "null m/s" or "null mm/h", while a null visibility or cloud base is no-go (`null < 3000` and `null < 120` hold) and shows as "0 m". An `undefined` or NaN reading makes every comparison false and so is go for every factor.
- Non-ASCII case mapping: `toUpperCase` is modelled for ASCII letters only, and every other character is left unchanged. This changes verdicts where a non-ASCII character upper-cases to a token's letters. U+017F (long s) has the capital 'S', so app.js upper-cases `" ſn"` to `" SN"` and returns no-go, while the model classifies it go. U+00DF (sharp s) has the two-letter capital "SS", so app.js upper-cases `" tß"` to `" TSS"`, which holds `" TS"`, and returns no-go, while the model classifies it go. A character whose capital is a letter no token holds, such as U+0131 (dotless i, capital 'I'), cannot change a verdict.
