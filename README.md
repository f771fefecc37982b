# WeatherMind temperature insight, modelled in Dafny

This project models the core of WeatherMind's weather insights. There are two parts.

The first is the temperature-insight pipeline. It takes a list of temperature readings in
chronological order (oldest first) and passes it through four stages:

- **Analyser** (`analyze_temperature`). It reduces the readings to three labels:
  - trend: up / down / stable;
  - variation: low / moderate / high;
  - stability: stable / unstable.

  Fewer than two readings give `insufficient_data` on every axis.
- **Interpreter** (`interpret_temperature_analysis`). It turns the labels into one Portuguese
  sentence of three comma-separated clauses.
- **Impact assessor** (`assess_temperature_impact`). It builds a health text and a comfort text
  from fragments appended in a fixed order, joined by single spaces.
- **Suggestion generator** (`suggest_actions_from_temperature`). It returns an ordered list of
  one to three suggestions.

The builder (`build_temperature_insight`) composes the four stages into one insight.

The second part is the thermal-comfort rules (`thermal_comfort_insight`). They turn the current
temperature and humidity into a comfort level, a summary and the list of factors that apply.

Modules and files:

- `strings.dfy` (`Strings`): joining with a separator, counting a character, and the "trimmed"
  property. Trimmed means non-empty, with no leading, trailing or doubled space.
- `temperature.dfy` (`Temperature`): the analyser and its properties.
- `interpretation.dfy` (`Interpretation`): the interpreter.
- `impact.dfy` (`Impact`): the impact assessor.
  - `AssessTemperatureImpact` is a method that builds the two message lists by appends.
  - It is proved equal to the rule function `ImpactOf`.
- `suggestions.dfy` (`Suggestions`): the suggestion generator.
  - `SuggestActionsFromTemperature` is a method built by appends.
  - It is proved equal to `Texts(SuggestionsFor(..))`.
- `comfort.dfy` (`Comfort`): the thermal-comfort rules.
  - `ThermalComfortInsight` is a method that appends factors and then tests membership.
  - It is proved equal to `ComfortOf`, which states the thresholds directly.
- `temperature_insight.dfy` (`TemperatureInsight`): the builder and cross-stage properties.
- `insight_api.dfy` (`InsightApi`): how the temperature-insight API endpoint calls the builder.
  It records one finding (see "## Findings").

Modelling choices:

- **Analysis values.** The analysis is a dictionary whose values are read with `.get` and compared
  against string literals. Each value is modelled by the enumeration `Temperature.Label`.
  - The enumeration has one case per literal.
  - It also has `Unrecognised`, which stands for any other string or a missing key. All of these
    compare unequal to every literal, so the code treats them alike.
  - This lets the model state how each stage treats values the analyser never produces.
- **Readings** are mathematical reals. The mean difference uses real division, as the source does.
- **Message texts** are the source's own strings, character for character. Long literals are
  written as concatenations of shorter pieces.
- **Impact messages.** Each impact fragment is written as its list of words, because its text is
  the words joined by single spaces. This is what lets the model prove the spacing of the joined
  health and comfort texts.
- **Message identities.** The impact and suggestion methods append message identities (a
  datatype), not strings. The identities are mapped to their texts when the result is assembled.

The builder's docstring (backend/weather/services/insights/temperature_insight.py:15-21) lists
`min`, `max` and `average` in the analysis. `analyze_temperature` returns only `trend`,
`variation` and `stability` (backend/weather/services/analysis/temperature.py:46-50). The model
follows the code: its `Analysis` has exactly those three fields.

## Model

| member | source | states |
|---|---|---|
| Temperature.Analyze | backend/weather/services/analysis/temperature.py:4-50 | Fewer than two readings (none included) give `insufficient_data` on all three axes. With two or more, trend is one of up/down/stable, variation one of low/moderate/high, and stability one of stable/unstable, so no axis is ever `insufficient_data`. |
| Temperature.ClassificationRules | backend/weather/services/analysis/temperature.py:12-44 | For two or more readings, each label holds in both directions exactly when its rule holds. Trend: up iff last > first, down iff last < first, stable iff they are equal. Variation: low iff amplitude < 2, moderate iff 2 <= amplitude <= 5, high iff amplitude > 5. Stability: stable iff the sum of the n-1 absolute differences is below n-1, that is, their mean is below 1. |
| Temperature.MaxIsGreatest | backend/weather/services/analysis/temperature.py:24 | `max` of a non-empty list is one of its elements and no element exceeds it. |
| Temperature.MinIsLeast | backend/weather/services/analysis/temperature.py:24 | `min` of a non-empty list is one of its elements and no element is below it. |
| Temperature.SameValuesSameExtremes | backend/weather/services/analysis/temperature.py:24 | Two lists holding the same values have the same max and min, whatever the order. |
| Temperature.DeltasReverse | backend/weather/services/analysis/temperature.py:34-37 | The absolute differences of the reversed readings are the original differences reversed. |
| Temperature.SumReverse | backend/weather/services/analysis/temperature.py:39 | A sum does not depend on the order of its terms when they are reversed. |
| Temperature.ReversalSymmetry | backend/weather/services/analysis/temperature.py:12-44 | Reversing the readings swaps up and down and keeps stable. Variation and stability are unchanged. |
| Temperature.DeltasAtMostAmplitude | backend/weather/services/analysis/temperature.py:24-37 | Every consecutive absolute difference is at most max - min. |
| Temperature.SmallAmplitudeIsStable | backend/weather/services/analysis/temperature.py:24-44 | Two or more readings with amplitude below 1 are always classified `stable`. |
| Temperature.ConstantReadings | backend/weather/services/analysis/temperature.py:16-44 | Two or more equal readings give stable / low / stable. |
| Temperature.BoundaryExamples | backend/weather/services/analysis/temperature.py:5-44 | The empty list and one reading are insufficient. [20, 25] gives up / moderate / unstable, because the moderate boundary 5 is inclusive. [20, 19] gives down / low / unstable, because a mean difference of exactly 1 is not below 1. |
| Temperature.RisingExample | backend/weather/services/analysis/temperature.py:12-44 | [22, 23, 25, 28, 27, 26] gives up / high / unstable: amplitude 6, mean difference 1.6. |
| Interpretation.Interpret | backend/weather/services/analysis/interpretation.py:4-34 | `interpret_temperature_analysis`: the no-data sentence when the trend is `insufficient_data`, otherwise the trend, variation and stability clauses separated by ", " and closed by a period. Its contract: every result is non-empty and ends with a period. |
| Interpretation.InsufficientSentence | backend/weather/services/analysis/interpretation.py:9-10 | When the trend is `insufficient_data`, the result is the fixed no-data sentence whatever the variation and stability are. |
| Interpretation.TrendClauseHasNoComma | backend/weather/services/analysis/interpretation.py:13-18 | None of the three trend clauses contains a comma. |
| Interpretation.VariationClauseHasNoComma | backend/weather/services/analysis/interpretation.py:21-26 | None of the three variation clauses contains a comma. |
| Interpretation.StabilityClauseHasNoComma | backend/weather/services/analysis/interpretation.py:29-32 | Neither stability clause contains a comma. |
| Interpretation.NoDataSentenceShape | backend/weather/services/analysis/interpretation.py:10 | The no-data sentence has no comma and ends with a period. |
| Interpretation.SentenceShape | backend/weather/services/analysis/interpretation.py:9-34 | A three-clause sentence holds exactly two commas and the no-data sentence none, so the two kinds can never be confused. |
| Interpretation.ReadAsAgrees | backend/weather/services/analysis/interpretation.py:13-32 | Unrecognised values take the default branches: trend reads as stable, variation as high, stability as unstable. Replacing them by those defaults leaves the sentence unchanged. Classified analyses are read as themselves. |
| Interpretation.CutSentence | backend/weather/services/analysis/interpretation.py:34 | Cutting `trend, variation, stability.` at its two commas gives back the three clauses, when the first two contain no comma. |
| Interpretation.ClausesDistinct | backend/weather/services/analysis/interpretation.py:13-32 | On each axis, two values read differently have different clause texts. |
| Interpretation.SentenceDeterminesAnalysis | backend/weather/services/analysis/interpretation.py:13-34 | For analyses with data, two sentences are equal iff the analyses are read the same on all three axes. |
| Interpretation.InterpretInjective | backend/weather/services/analysis/interpretation.py:13-34 | Distinct classified (trend, variation, stability) triples give distinct sentences. |
| Impact.AssessTemperatureImpact | backend/weather/services/analysis/impact.py:4-70 | The method's message lists, grown by conditional appends in the order variation, stability, trend and then space-joined, give exactly `ImpactOf`, the rule table per axis. |
| Impact.NoDataImpact | backend/weather/services/analysis/impact.py:9-13 | When the trend is `insufficient_data`, health and comfort are the two fixed "cannot assess" texts. |
| Impact.MessageOrder | backend/weather/services/analysis/impact.py:18-65 | Comfort is one variation fragment, then one trend fragment exactly when the trend is up or down (1 or 2 fragments). Health is one variation fragment, one stability fragment, then one trend fragment exactly when the trend is up or down (2 or 3 fragments). Every position holds a fragment of the right group. |
| Impact.StabilityOnlyInHealth | backend/weather/services/analysis/impact.py:41-49 | Changing the stability never changes the comfort text. |
| Impact.StabilityNotInComfort | backend/weather/services/analysis/impact.py:41-49 | No stability fragment is ever among the comfort fragments. |
| Impact.SteadyTrendAddsNothing | backend/weather/services/analysis/impact.py:52-70 | With a stable trend, health is the variation and stability fragments joined by one space, and comfort is the variation fragment alone. |
| Impact.OtherValuesDefault | backend/weather/services/analysis/impact.py:33-49 | Any variation other than high or moderate, and any stability other than unstable, give the same texts as low variation and stable. |
| Impact.MessageTrimmed | backend/weather/services/analysis/impact.py:11-65 | Every fragment text is non-empty, with no leading, trailing or doubled space. |
| Strings.JoinTrimmed | backend/weather/services/analysis/impact.py:67-70 | Space-joining a non-empty list of such texts gives such a text. |
| Impact.ImpactTextsTrimmed | backend/weather/services/analysis/impact.py:67-70 | For every analysis, both the health and the comfort text are non-empty, with no leading, trailing or doubled space. |
| Suggestions.SuggestActionsFromTemperature | backend/weather/services/analysis/suggestions.py:4-47 | The method's list, grown by conditional appends, is exactly the texts of `SuggestionsFor`, the rule table per axis. |
| Suggestions.WaitWithoutData | backend/weather/services/analysis/suggestions.py:12-13 | When the trend is `insufficient_data`, the result is the one-element "wait for more data" list. |
| Suggestions.SuggestionCount | backend/weather/services/analysis/suggestions.py:15-47 | Otherwise the length is 1 + [variation is high or moderate] + [trend is up or down], so it is between 1 and 3. |
| Suggestions.StabilityAdvicePresent | backend/weather/services/analysis/suggestions.py:27-35 | Exactly one stability suggestion is present, right after the variation suggestion if there is one. It is the unstable variant exactly when stability is `unstable`. |
| Suggestions.AxesIncrease | backend/weather/services/analysis/suggestions.py:17-45 | Along the list the axis strictly increases (variation, stability, trend), so the order is fixed and no axis contributes twice. |
| Suggestions.QuietAxesAddNothing | backend/weather/services/analysis/suggestions.py:18-45 | Low variation and a stable trend contribute nothing: only the stability suggestion remains. |
| Suggestions.ImpactIgnored | backend/weather/services/analysis/suggestions.py:4-47 | The result is the same for any impact value. |
| Comfort.ThermalComfortInsight | backend/core/insights/comfort.py:2-47 | The method is exactly `ComfortOf(temperature, humidity)`. The factor list is grown by appends and the level is chosen by membership tests on it. The wind speed cannot affect the result. |
| Comfort.MissingReading | backend/core/insights/comfort.py:11-16 | A missing temperature or humidity gives level unknown, the fixed summary and no factors. |
| Comfort.FactorsApplicable | backend/core/insights/comfort.py:18-27 | The factor list is high humidity if humidity >= 70, then high temperature if temperature >= 30, then low temperature if temperature <= 10. |
| Comfort.ApplicableMembers | backend/core/insights/comfort.py:18-27 | A factor is reported exactly when it is a candidate and its threshold holds. |
| Comfort.ApplicableOrdered | backend/core/insights/comfort.py:18-27 | The reported factors keep the candidates' fixed order. |
| Comfort.FactorRules | backend/core/insights/comfort.py:18-27 | Each factor is present iff its threshold holds. The factors come in the order humidity, high temperature, low temperature, without repetition. High and low temperature are never both present. |
| Comfort.LevelRule | backend/core/insights/comfort.py:29-47 | With both readings, the level is low iff (temperature >= 30 and humidity >= 70) or temperature <= 10, moderate otherwise, and never unknown. |
| Comfort.SummaryFollowsLevel | backend/core/insights/comfort.py:29-47 | The hot-and-humid summary appears iff it is hot and humid, the cold summary iff temperature <= 10, and the comfortable summary iff the level is moderate. |
| Comfort.HumidButModerate | backend/core/insights/comfort.py:18-47 | Humidity 75 at temperature 28 gives level moderate with factors [high humidity]: factors are reported even at the moderate level. |
| TemperatureInsight.BuildTemperatureInsight | backend/weather/services/insights/temperature_insight.py:54-82 | `build_temperature_insight`: the insight holds exactly the four fields. The analysis is that of the readings; the interpretation, the impact and the suggestions are each computed from that analysis, and the suggestions also receive the impact. |
| TemperatureInsight.OnlyTheAnalysisMatters | backend/weather/services/insights/temperature_insight.py:67-74 | Two reading lists with the same analysis get the same insight. |
| TemperatureInsight.TooFewReadings | backend/weather/services/insights/temperature_insight.py:67-82 | Fewer than two readings give the insufficient analysis, the no-data sentence, the "cannot assess" impact and the "wait" suggestion. |
| TemperatureInsight.EnoughReadings | backend/weather/services/insights/temperature_insight.py:67-82 | The interpretation is the no-data sentence iff there are fewer than two readings. With two or more: the analysis is classified, the sentence has two commas and a final period, both impact texts are trimmed, and there are one to three suggestions. |
| TemperatureInsight.ReversedReadings | backend/weather/services/insights/temperature_insight.py:67-74 | Reversing the readings changes the insight only through the trend, where up and down swap. |
| TemperatureInsight.ReadingOrderMatters | backend/weather/services/insights/temperature_insight.py:61-74 | With two or more readings, the reversed list gets the same sentence iff the first and last readings are equal. |
| InsightApi.ApiViewInsight | backend/api/views/temperature_insight.py:94-97 | The endpoint as written passes the newest-first history to the builder unchanged. So with two or more records the trend is `up` iff the oldest record (the last) is warmer than the newest (the first), that is, when the temperature fell, and `down` iff it rose. |
| InsightApi.ApiViewInsightCorrected | backend/api/views/temperature_insight.py:94-97 | The endpoint as intended reverses the history into chronological order before building. With two or more records the trend is `up` iff the newest record is warmer than the oldest, and `down` iff it is colder. |
| InsightApi.ApiViewInvertsTrend | backend/api/views/temperature_insight.py:79-97 | As written, the endpoint's analysis of a history (the readings newest first) is the chronological analysis with up and down swapped. |
| InsightApi.ApiViewRiseReportedAsFall | backend/api/views/temperature_insight.py:79-97 | A rise from 20 to 25, stored newest first as [25, 20], is reported as `down` by the endpoint as written, while the builder reports the rise as `up`. |
| InsightApi.CorrectedApiViewIsChronological | backend/api/views/temperature_insight.py:79-97 | Reversing the history before building gives, for every history, the insight of the readings in the order they happened. |

## Left out

- **HTTP layer.** The HTTP views, routing, status codes and JSON encoding are not modelled. The
  API endpoint is modelled only as far as the order in which it passes readings to the builder.
- **Persistence and network.** The database queries, the weather provider clients, caching and
  forecast aggregation are outside the modelled core.
  - The newest-first order of the history query (backend/weather/services/history.py:57-60) is
    taken as given.
  - Its limit of ten records is not modelled.
- **Floating point.** Readings are mathematical reals, so IEEE rounding, NaN and infinities are not
  modelled. A Python int or float is one real.
- **Non-list inputs.** `analyze_temperature` also accepts `None`, which `not temperatures`
  treats like an empty list. The model's input is always a sequence, and the empty sequence
  covers that branch.
- **Other dictionary contents.** The stages read three keys of a dictionary with `.get`. The model
  passes a three-field record instead.
  - A missing key or an unexpected string is the single value `Unrecognised`.
  - Extra keys are not represented, because no stage reads them.
- **Other comfort inputs.** `weather_data` is modelled as three optional readings. Other keys are
  not represented, and values of other types (strings, say) are not modelled.
- **Wind speed.** The wind speed is read and then unused. The model reads it
  into a local that nothing uses. That it never matters is stated by the method's contract,
  which mentions only temperature and humidity.
- **The impact argument.** The source annotates `impact` as a string but is
  passed the impact dictionary. The model takes the impact record, and its value is never read.

## Findings

| source | as written | input that shows it | evidently intended | confidence | as-written member | corrected member |
|---|---|---|---|---|---|---|
| backend/api/views/temperature_insight.py:79-97 | The endpoint passes the city history straight to `build_temperature_insight`. The history query returns it newest first (backend/weather/services/history.py:57-60), but the builder expects oldest first (backend/weather/services/insights/temperature_insight.py:61). So every up/down trend is reported inverted. | Readings 20 then 25 (a rise) are stored newest first as [25, 20], and the endpoint reports trend `down`. | Put the history in chronological order (reverse it) before building the insight. The other caller (backend/weather/services/weather_service.py:67) already orders oldest first. | not executed; high: the ordering is explicit in both files | InsightApi.ApiViewRiseReportedAsFall | InsightApi.CorrectedApiViewIsChronological |
