# Call analytics, phone helper and settings of the eternal-agent voice agent

This project models three parts of the eternal-agent voice agent in Dafny and
proves properties about them.

- **The call analytics ledger** (`src/utils/analytics.py`). A
  `SessionAnalytics` object owns a `UsageTotals` counter record. Provider
  metric events arrive through `ingest_metrics`, and an end-of-call usage
  summary arrives through `ingest_usage_summary`. Each event is classified
  as llm, stt, tts or unknown, from its class name or else from its
  normalised `type` field. Its counters are read through "first present,
  int-convertible field" chains (`_first_int`) and added to the totals.
  `end()` fixes the end instant once and derives the session duration.
  `compute_cost_usd()` prices the totals linearly. `report()` does both.
- **The phone and date helpers** (`src/utils/utils.py`). `normalize_phone`
  keeps the digits and drops a leading "91" from twelve-digit numbers.
  `get_booking_window_end_ist_date` adds the window to today.
- **The settings loader** (`src/config/config.py`). `_get_env` strips a
  variable and falls back to a default when it is unset or blank.
  `Settings.from_env` reads the string settings and the two boolean flags.
  `Settings.validate` lists the empty required settings in declaration
  order and raises.

Layout:

- `python.dfy`: the Python built-ins the code relies on. It has dynamically
  typed values, truthiness, `int()`, `float()`, `str.strip()`, `str.lower()`,
  `str()` and substring tests.
- `analytics.dfy`: records and pure specification functions. It also holds
  the classes `UsageTotals` and `SessionAnalytics`, whose methods update
  the counters in place. Each method is proved against those functions.
- `analytics_lemmas.dfy`: properties of ingestion, the summary, `end()` and
  the cost. It ends with a client method that runs one call from start to
  report.
- `utils.dfy` and `utils_lemmas.dfy`: the phone and date helpers.
- `config.dfy` and `config_lemmas.dfy`: the settings loader.

Instants are integer microseconds, the resolution of `datetime`. Dates are
proleptic Gregorian day numbers, as `date.toordinal()` gives them. The
current time, today's date and the environment are parameters.

A few behaviours of the code are easy to miss. The model follows the code
in each.

- `ingest_usage_summary` can raise in two cases:
  - A truthy section that is not a dict raises AttributeError on `.get`.
  - An stt `audio_duration` that `float()` rejects raises at line 216.
  The model returns a `Raised(section)` outcome. The sections processed
  before the failure stay added.
- The code adds whatever integer a field converts to, negative ones
  included. The model does too, so `CostNonNegative` assumes non-negative
  totals.
- The two channels order the stt fields oppositely. An event prefers
  `audio_duration` in seconds. A summary prefers `audio_duration_ms`.
  `ChannelsDisagreeOnSttPriority` exhibits this.
- A list or tuple passed to `ingest_metrics` is iterated, but a list or
  tuple inside it is not: it is one record of unknown category
  (`NestedSequenceAddsNothing`).

## Model

| member | source | states |
|---|---|---|
| Python.Strip | src/config/config.py:16 | the result is a slice of the input with only whitespace outside it, and has no whitespace at either end |
| Python.StripLeft | src/config/config.py:16 | the result is a suffix of the input, the dropped prefix is all whitespace, and the result does not start with whitespace |
| Python.StripRight | src/config/config.py:16 | the result is a prefix of the input, the dropped suffix is all whitespace, and the result does not end with whitespace |
| Python.StripSlice | src/config/config.py:16 | stripping the left and then the right end leaves a slice with only whitespace outside it |
| Python.StripNoSpace | src/config/config.py:16 | a string with no whitespace at either end is left unchanged |
| Python.Lower | src/utils/analytics.py:104 | ASCII lower-casing keeps the length and leaves no upper-case letter |
| Python.LowerOfLower | src/utils/analytics.py:104 | a string without upper-case letters is unchanged by lower-casing |
| Python.LowerConcat | src/utils/analytics.py:33 | lower-casing a concatenation lower-cases each part |
| Python.Truthy | src/utils/analytics.py:93 | Python truthiness: None, False, 0, 0.0 and "" are falsy, and any other object is as its `bool()` says (SttFalsyAudioDuration, SummaryNonDictSection use it) |
| Python.Contains | src/utils/analytics.py:106-111 | `sub in s`: `sub` occurs at some position of `s` (defines the test; ContainsChars and MissingCharNotContained state its consequences) |
| Python.ContainsChars | src/utils/analytics.py:106-111 | every character of a contained substring occurs in the string |
| Python.MissingCharNotContained | src/utils/analytics.py:106-111 | a string lacking one character of `sub` does not contain `sub` |
| Python.PyStr | src/utils/analytics.py:33 | `str(v)`: "None", "True"/"False", the decimal text of an int, a string itself, an object's own text (IntStrRoundTrip states the int case) |
| Python.StrToInt | src/utils/analytics.py:44 | `int(s)` accepts surrounding whitespace, an optional sign and one or more decimal digits and nothing else (StrToIntSigned states its value) |
| Python.StrToIntSigned | src/utils/analytics.py:44 | `int()` of a digit string, optionally preceded by '-', is its decimal value with that sign |
| Python.DigitsOfDecimal | src/utils/analytics.py:44 | reading back the decimal text of a natural number gives the number |
| Python.IntStrRoundTrip | src/utils/analytics.py:44 | `int(str(i)) == i` for every int |
| Python.StrToFloat | src/utils/analytics.py:156 | `float(s)` of signed fixed-point decimal text; anything else is rejected (SttSecondsExample states a value) |
| Python.ToInt | src/utils/analytics.py:43-46 | `int(v)` for each kind of value, None where it raises ValueError or TypeError (FirstIntSkips and FirstIntFirstQualifying use it) |
| Python.ToFloat | src/utils/analytics.py:156 | `float(v)` for each kind of value, None where it raises ValueError or TypeError |
| Python.SecondsToMs | src/utils/analytics.py:155-158 | `int(float(v) * 1000)`, in exact arithmetic; None where `float()` rejects (SttSecondsExample: 2.5 s is 2500 ms) |
| Python.Trunc | src/utils/analytics.py:156 | `int()` of a float truncates toward zero: the result lies within one of the argument, on the side of zero |
| Analytics.Get | src/utils/analytics.py:12-18 | `_get`: the default for a missing object or key, the stored value otherwise (Field and UsageField build on it) |
| Analytics.Field | src/utils/analytics.py:114 | `_get(m, key, None)` on a metric record: the attribute when present, else None (DictTypeTag, SttMillisecondFallback use it) |
| Analytics.UsageField | src/utils/analytics.py:133-144 | `_get(usage, key, None) if usage else None`: None without a usage object (LlmInputFallbackExample uses it) |
| Analytics.AfterLastDot | src/utils/analytics.py:35-36 | `s.split(".")[-1]` is a suffix of `s` without '.', preceded by a '.' when shorter than `s` |
| Analytics.NormMetricType | src/utils/analytics.py:20-37 | None normalises to ""; the result has no upper-case letter; without a string `.value` it has no '.' |
| Analytics.FirstInt | src/utils/analytics.py:39-48 | `_first_int`: no contract of its own; FirstIntFirstQualifying, FirstIntNoneQualify, FirstIntIgnoresLater and FirstIntSkips state what it returns |
| Analytics.MetricType | src/utils/analytics.py:104-114 | the `mtype` string: class-name substrings first, then the normalised `type` field (ClassNameTakesPrecedence states the order) |
| Analytics.Classify | src/utils/analytics.py:132-174 | the branch `mtype` selects: llm, stt, tts, or none of them (DictTypeTag and ClassNameTakesPrecedence state its cases) |
| Analytics.LlmInputTokens | src/utils/analytics.py:133-141 | the first int among `usage.input_tokens`, `usage.prompt_tokens`, `input_tokens`, `prompt_tokens`, else 0 (LlmInputFallbackExample) |
| Analytics.LlmOutputTokens | src/utils/analytics.py:142-148 | the first int among `usage.output_tokens`, `usage.completion_tokens`, `output_tokens`, `completion_tokens`, else 0 |
| Analytics.SttAudioMs | src/utils/analytics.py:150-166 | `audio_duration` seconds in ms when present (0 if `float()` rejects it), else the first int of the two ms fields (SttSecondsTakePrecedence, SttMillisecondFallback) |
| Analytics.TtsChars | src/utils/analytics.py:168-174 | the first int among the three character-count fields, else 0 |
| Analytics.Contribution | src/utils/analytics.py:132-174 | what one event adds: the fields of its category and nothing else (ApplyMetricFrame, UnknownIsNoOp) |
| Analytics.ApplyMetric | src/utils/analytics.py:132-174 | the totals after one present event, the old ones plus its contribution (ApplyMetricFrame, ApplyItemOnlyAdds) |
| Analytics.ApplyItem | src/utils/analytics.py:100-174 | a None item changes nothing, a present one is applied (NoneElementsSkipped, ApplyItemOnlyAdds) |
| Analytics.Falsy | src/utils/analytics.py:93-94 | `not metrics_input`: None, an empty list or an empty dict (ElementAlone uses it) |
| Analytics.ItemsOf | src/utils/analytics.py:97 | a list or tuple is iterated, anything else is wrapped as a one-element list |
| Analytics.IngestItems | src/utils/analytics.py:99-174 | the loop as a fold over the items (IngestItemsSnoc, IngestItemsConcat and IngestItemsOnlyAdds state its properties) |
| Analytics.Ingest | src/utils/analytics.py:88-174 | falsy input changes nothing, other input runs the loop (IngestKeepsSessionMs, BatchIsOneByOne) |
| Analytics.SectionOf | src/utils/analytics.py:195 | `summary.get(key, {})`: a missing section is an empty dict and is skipped (SummaryNonDictSection and SummaryRaisesOnBadAudioDuration rely on it for the absent sections) |
| Analytics.SectionTruthy | src/utils/analytics.py:196 | `if llm_data:` and the stt and tts twins at lines 210 and 221: a dict is truthy when non-empty, any other value as Python says (SummaryNonDictSection) |
| Analytics.Lookup | src/utils/analytics.py:199-226 | `d.get(key)` inside a section: the value, or None when missing (SummarySttPriority uses it) |
| Analytics.SummarySecondsTerm | src/utils/analytics.py:216 | the third `_first_int` argument: 0 for a falsy `audio_duration`, its ms otherwise, None where `float()` raises |
| Analytics.SummaryLlm | src/utils/analytics.py:195-207 | the llm section: skipped when falsy, raises when a truthy non-dict, adds its first token counts otherwise (LlmSectionSeven, SummaryNonDictSection) |
| Analytics.SummaryStt | src/utils/analytics.py:209-218 | the stt section, with `audio_duration_ms` first and the seconds field last (SummarySttPriority, SttSectionRaises) |
| Analytics.SummaryTts | src/utils/analytics.py:220-228 | the tts section with its three character-count fields |
| Analytics.ApplySummary | src/utils/analytics.py:176-228 | the three sections in order, stopping at the first that raises (SummaryNoOp, SummaryOnlyAdds, SummaryRaisesOnBadAudioDuration) |
| Analytics.SessionMs | src/utils/analytics.py:233-234 | the non-negative whole milliseconds between two instants, in exact arithmetic (SessionMsOfElapsed, SessionMsClamped) |
| Analytics.Finish | src/utils/analytics.py:230-234 | `end()` on the object's value (FinishIdempotent, FinishFrame) |
| Analytics.CostUsd | src/utils/analytics.py:237-265 | the total is the sum of the four provider terms; token and character counts are reported unchanged |
| Analytics.IngestItemsSnoc | src/utils/analytics.py:99-101 | the loop over one more item applies that item last, after the earlier ones |
| Analytics.UsageTotals.constructor | src/utils/analytics.py:63-76 | a new counter record is all zeros |
| Analytics.SessionAnalytics.constructor | src/utils/analytics.py:78-85 | a new session has the given pricing and start, no end, zero counters and a fresh counter record |
| Analytics.SessionAnalytics.IngestMetrics | src/utils/analytics.py:88-174 | falsy input changes nothing; otherwise the items are applied in order, None skipped; only the counters change, and the session duration stays as it was |
| Analytics.SessionAnalytics.IngestItem | src/utils/analytics.py:99-174 | one pass of the loop extends the processed prefix by one element, skipping None, and keeps the session duration |
| Analytics.SessionAnalytics.AddEvent | src/utils/analytics.py:103-174 | an event adds to the counters of its category (llm tokens, stt milliseconds or tts characters) and changes nothing else |
| Analytics.SessionAnalytics.IngestUsageSummary | src/utils/analytics.py:176-228 | a non-dict or empty summary changes nothing; otherwise llm, stt and tts sections are added in that order, stopping at the first that raises, and the outcome says which |
| Analytics.SessionAnalytics.AddLlmSection | src/utils/analytics.py:195-207 | a falsy section is skipped, a truthy non-dict raises, a dict adds its first convertible input and output token counts |
| Analytics.SessionAnalytics.AddSttSection | src/utils/analytics.py:209-218 | as for llm, and a truthy `audio_duration` that `float()` rejects raises before anything is added |
| Analytics.SessionAnalytics.AddTtsSection | src/utils/analytics.py:220-228 | as for llm, with the three character-count fields |
| Analytics.SessionAnalytics.End | src/utils/analytics.py:230-234 | the end instant is set only if unset; the duration is recomputed from it; no other counter changes; on an ended session nothing changes at all |
| Analytics.SessionAnalytics.ComputeCostUsd | src/utils/analytics.py:237-265 | the reported session minutes and the avatar cost follow from the session duration |
| Analytics.SessionAnalytics.Report | src/utils/analytics.py:267-271 | the state is that of `end()` and the report is the cost of the finished totals |
| AnalyticsProperties.DictNamesNoProvider | src/utils/analytics.py:104-111 | a plain dict's class name contains none of "stt", "llm", "tts" |
| AnalyticsProperties.PlainStringNormalised | src/utils/analytics.py:33-37 | a string with no surrounding space, upper case or dot is its own normal form |
| AnalyticsProperties.TagNormalised | src/utils/analytics.py:20-37 | "llm", "stt" and "tts" normalise to themselves |
| AnalyticsProperties.DictTypeTag | src/utils/analytics.py:112-114 | a dict record whose `type` is a provider tag is classified by that tag |
| AnalyticsProperties.FirstIntFirstQualifying | src/utils/analytics.py:39-48 | `_first_int` returns the int value of the first argument that is not None and converts |
| AnalyticsProperties.FirstIntNoneQualify | src/utils/analytics.py:39-48 | when no argument qualifies the default is returned |
| AnalyticsProperties.FirstIntIgnoresLater | src/utils/analytics.py:40-47 | arguments after a qualifying one are never consulted |
| AnalyticsProperties.FirstIntSkips | src/utils/analytics.py:41-46 | a None or non-convertible first argument is skipped |
| AnalyticsProperties.ClassNameTakesPrecedence | src/utils/analytics.py:103-114 | class-name substrings decide, in the order stt, llm, tts; the `type` field is used only when none matches |
| AnalyticsProperties.AfterDotTag | src/utils/analytics.py:35-36 | the text after the last '.' of `pre.tag` is `tag` |
| AnalyticsProperties.DottedReprNormalised | src/utils/analytics.py:33-37 | a value without a string `.value` whose normalised text is `pre.tag` normalises to `tag` |
| AnalyticsProperties.EnumReprNormalised | src/utils/analytics.py:26 | a repr such as "MetricType.LLM" normalises to "llm" |
| AnalyticsProperties.EnumValueNormalised | src/utils/analytics.py:30-32 | a string `.value` wins over the repr and is stripped and lower-cased |
| AnalyticsProperties.UnknownIsNoOp | src/utils/analytics.py:132-174 | an event of unknown category changes no counter |
| AnalyticsProperties.ApplyMetricFrame | src/utils/analytics.py:132-174 | an event changes only its own category's counters and never the session duration |
| AnalyticsProperties.ApplyItemOnlyAdds | src/utils/analytics.py:132-174 | an event adds to the totals what it adds to zero counters |
| AnalyticsProperties.IngestItemsConcat | src/utils/analytics.py:99-174 | ingesting `xs + ys` is ingesting `xs` and then `ys` |
| AnalyticsProperties.IngestItemsKeepSessionMs | src/utils/analytics.py:99-174 | no event of the loop changes the session duration |
| AnalyticsProperties.OnlyAddsStep | src/utils/analytics.py:99-174 | the additive form of the loop's totals survives one more item |
| AnalyticsProperties.IngestItemsOnlyAdds | src/utils/analytics.py:99-174 | ingestion adds to the old totals, whatever they were, and keeps the session duration |
| AnalyticsProperties.IngestKeepsSessionMs | src/utils/analytics.py:88-174 | `ingest_metrics` never changes the session duration |
| AnalyticsProperties.NoneElementsSkipped | src/utils/analytics.py:100-101 | None elements of a list have no effect |
| AnalyticsProperties.ElementAlone | src/utils/analytics.py:93-97 | one element that is not a list or tuple, ingested alone, has its in-list effect, even an empty dict that `not metrics_input` rejects |
| AnalyticsProperties.OneByOneStep | src/utils/analytics.py:93-101 | one more element, not a list or tuple, ingested in a call of its own extends the loop's fold by that element |
| AnalyticsProperties.OneByOneIsLoop | src/utils/analytics.py:93-101 | separate calls, one per element, give the totals of the loop over the whole list when no element is a list or tuple |
| AnalyticsProperties.BatchIsOneByOne | src/utils/analytics.py:93-101 | a list none of whose elements is a list or tuple has the effect of its elements ingested one call at a time, in order |
| AnalyticsProperties.ListNamesNoProvider | src/utils/analytics.py:104-111 | the class name "list" contains none of "stt", "llm", "tts" |
| AnalyticsProperties.TupleNamesNoProvider | src/utils/analytics.py:104-111 | the class name "tuple" contains none of "stt", "llm", "tts" |
| AnalyticsProperties.NestedSequenceAddsNothing | src/utils/analytics.py:97-114 | a list or tuple inside the argument is not iterated into: without a `type` attribute it adds nothing |
| AnalyticsProperties.LlmInputFallbackExample | src/utils/analytics.py:135-141 | `usage.input_tokens` wins over `usage.prompt_tokens` |
| AnalyticsProperties.SttSecondsTakePrecedence | src/utils/analytics.py:152-158 | a present `audio_duration` decides alone, and a value `float()` rejects contributes 0 |
| AnalyticsProperties.SttMillisecondFallback | src/utils/analytics.py:159-165 | without `audio_duration`, `audio_duration_ms` then `audio_ms` then 0 |
| AnalyticsProperties.SttSecondsExample | src/utils/analytics.py:154-156 | 2.5 seconds of audio add exactly 2500 ms |
| AnalyticsProperties.SummaryNoOp | src/utils/analytics.py:181-182 | a non-dict or empty summary changes nothing and completes |
| AnalyticsProperties.SummaryOnlyAdds | src/utils/analytics.py:195-228 | a summary adds to the totals rather than replacing them; its effect and outcome do not depend on the starting totals; it keeps the session duration |
| AnalyticsProperties.SummarySttPriority | src/utils/analytics.py:212-218 | in a summary `audio_duration_ms` wins, then `audio_ms`, then the seconds field |
| AnalyticsProperties.ChannelsDisagreeOnSttPriority | src/utils/analytics.py:150-218 | the same stt fields add 2500 ms as an event and 100 ms as a summary section |
| AnalyticsProperties.LlmSectionSeven | src/utils/analytics.py:195-207 | an llm section with 7 input tokens and no output counts adds exactly 7 input tokens |
| AnalyticsProperties.SttFalsyAudioDuration | src/utils/analytics.py:216 | a falsy `audio_duration` is not converted: the seconds term is 0 and the stt section completes |
| AnalyticsProperties.SttEmptyListAudioDuration | src/utils/analytics.py:209-218 | an stt section holding only an empty list as `audio_duration` completes and adds nothing |
| AnalyticsProperties.SttSectionRaises | src/utils/analytics.py:216 | a truthy `audio_duration` that `float()` rejects raises with nothing added |
| AnalyticsProperties.SummaryRaisesOnBadAudioDuration | src/utils/analytics.py:195-218 | the llm section stays added when the stt section raises afterwards |
| AnalyticsProperties.SummaryNonDictSection | src/utils/analytics.py:195-197 | a truthy non-dict section raises and a falsy one is skipped |
| AnalyticsProperties.SessionMsOfElapsed | src/utils/analytics.py:233-234 | for a forward clock the duration is the whole elapsed milliseconds, in exact arithmetic |
| AnalyticsProperties.SessionMsClamped | src/utils/analytics.py:234 | a backward clock gives duration 0 |
| AnalyticsProperties.FinishIdempotent | src/utils/analytics.py:230-234 | a second `end()` keeps the first end instant and duration |
| AnalyticsProperties.FinishFrame | src/utils/analytics.py:230-234 | `end()` keeps the start and every counter but the duration, which is non-negative |
| AnalyticsProperties.CostAdditive | src/utils/analytics.py:241-248 | every cost term and the total are additive in the totals |
| AnalyticsProperties.CostNonNegative | src/utils/analytics.py:241-248 | non-negative prices and counters give non-negative terms, each at most the total |
| AnalyticsProperties.DefaultOpenAiExample | src/utils/analytics.py:50-61 | one million input and half a million output tokens cost 1.20 at the default prices |
| AnalyticsProperties.ScenarioLlm | src/utils/analytics.py:132-148 | the scenario's llm event adds 2000 input and 1000 output tokens |
| AnalyticsProperties.ScenarioStt | src/utils/analytics.py:150-166 | the scenario's stt event adds 30000 ms |
| AnalyticsProperties.ScenarioTts | src/utils/analytics.py:168-174 | the scenario's tts event adds 50000 characters |
| AnalyticsProperties.IngestThree | src/utils/analytics.py:99 | three items are applied in list order |
| AnalyticsProperties.ScenarioIngest | src/utils/analytics.py:88-174 | the three scenario events give the totals (2000, 1000, 30000, 50000, 0) |
| AnalyticsProperties.ScenarioCost | src/utils/analytics.py:50-61 | the default-price cost of the scenario's totals, term by term |
| AnalyticsProperties.EndToEndScenario | src/utils/analytics.py:267-271 | a session that ingests the three events and then reports gives exactly those usage figures and that total |
| Utils.Digits | src/utils/utils.py:32 | the filter's result holds only digits and is no longer than its input |
| Utils.NormalizePhone | src/utils/utils.py:26-35 | the result holds only digits and is no longer than `raw or ""` |
| Utils.BookingWindowEnd | src/utils/utils.py:76-88 | the end is a valid date exactly `window_days - 1` (inclusive) or `window_days` days after today; it is absent exactly when `timedelta` or the addition overflows |
| UtilsProperties.DigitsConcat | src/utils/utils.py:32 | the filter distributes over concatenation |
| UtilsProperties.DigitsFixedPoint | src/utils/utils.py:32 | a string is its own filter exactly when it is all digits |
| UtilsProperties.DigitsCounts | src/utils/utils.py:32 | every digit is kept as often as it occurs and every other character is dropped |
| UtilsProperties.NormalizeNothing | src/utils/utils.py:32 | None and "" normalise to "" |
| UtilsProperties.NormalizeIndianPrefix | src/utils/utils.py:33-34 | twelve digits starting with "91" lose that prefix, leaving ten |
| UtilsProperties.NormalizeOtherwise | src/utils/utils.py:32-35 | any other number keeps all its digits |
| UtilsProperties.NormalizeIsSuffixOfDigits | src/utils/utils.py:26-35 | the result is the digits, or the last ten of twelve |
| UtilsProperties.NormalizeIdempotent | src/utils/utils.py:26-35 | normalising twice is normalising once |
| UtilsProperties.CountryCodeDigits | src/utils/utils.py:32 | the digits of "+91 " are "91" |
| UtilsProperties.NormalizeWithCountryCode | src/utils/utils.py:28-34 | "+91 " followed by a ten-digit number normalises to the number |
| UtilsProperties.InclusiveIsDayBeforeExclusive | src/utils/utils.py:87 | the inclusive end is the day before the exclusive end |
| UtilsProperties.FifteenDayWindow | src/utils/utils.py:80-82 | a 15-day window ends 14 days after today, the default 14-day window 13 days after |
| UtilsProperties.WindowPastLastDate | src/utils/utils.py:88 | an end past 9999-12-31 is absent (OverflowError) |
| UtilsProperties.WindowMonotone | src/utils/utils.py:76-88 | a longer window never ends earlier |
| Config.OrElse | src/config/config.py:56-74 | `x or d`: the value when it is present and non-empty, else the fallback (StringSetting states the combination) |
| Config.GetEnv | src/config/config.py:12-17 | an unset or blank variable gives the default, any other the stripped value |
| Config.StringSetting | src/config/config.py:56-74 | a string setting is its literal default or the variable's non-empty stripped value |
| Config.Flag | src/config/config.py:76-81 | a boolean flag: true exactly for the true words after stripping and lower-casing, and true when unset (FlagOfValue, FlagDefaultsTrue) |
| Config.FromEnv | src/config/config.py:54-85 | the settings read from the environment; every setting with a non-empty default is non-empty (FromEmptyEnv states the empty environment) |
| Config.RequiredPairs | src/config/config.py:89-100 | the ten required settings and their names, in the order of the `required` list |
| Config.MissingKeys | src/config/config.py:88-102 | no more keys than pairs (MissingKeysMembers: exactly the keys of pairs with an empty value) |
| Config.Join | src/config/config.py:106 | `sep.join(xs)` (OneMissingKey states the one-key case) |
| Config.NoMissingKeys | src/config/config.py:88-102 | no key is listed exactly when every required value is non-empty |
| Config.Validate | src/config/config.py:87-107 | it passes exactly when all ten required settings are non-empty; otherwise the message is the prefix and the empty settings' names, in the order of the `required` list, joined by ", " |
| ConfigProperties.StripIdempotent | src/config/config.py:16 | stripping twice is stripping once |
| ConfigProperties.GetEnvNormal | src/config/config.py:12-17 | a value read from the environment is non-empty and unpadded unless it is the default |
| ConfigProperties.GetEnvReread | src/config/config.py:12-17 | writing a read value back and reading again gives the same value |
| ConfigProperties.StringSettingNonEmpty | src/config/config.py:59-70 | a setting with a non-empty literal default is never empty |
| ConfigProperties.StringSettingValue | src/config/config.py:56-74 | the default when unset or blank, the stripped value otherwise |
| ConfigProperties.AgentNameFallback | src/config/config.py:59 | `agent_name` falls back to "eternal-agent" |
| ConfigProperties.FlagDefaultsTrue | src/config/config.py:76-81 | an unset or blank flag is true |
| ConfigProperties.FlagOfValue | src/config/config.py:76-81 | a set flag is true exactly when its stripped, lower-cased value is "1", "true", "yes" or "y" |
| ConfigProperties.FlagUpperCaseYes | src/config/config.py:76-77 | "YES" switches a flag on |
| ConfigProperties.FlagNo | src/config/config.py:76-77 | "no" switches a flag off |
| ConfigProperties.FlagZero | src/config/config.py:76-77 | "0" switches a flag off |
| ConfigProperties.FlagOffWord | src/config/config.py:76-81 | an unpadded lower-case word that is not a true word switches a flag off |
| ConfigProperties.FlagOfPlainValue | src/config/config.py:76-81 | for an unpadded value the flag is whether its lower-case form is a true word |
| ConfigProperties.MissingKeysMembers | src/config/config.py:88-102 | a key is listed exactly when some pair carries it with an empty value |
| ConfigProperties.MissingKeysConcat | src/config/config.py:88-102 | keys are listed in the order of the pairs |
| ConfigProperties.AllMissing | src/config/config.py:88-102 | when every value is empty every key is listed |
| ConfigProperties.FromEmptyEnv | src/config/config.py:54-85 | an empty environment gives the literal defaults and both flags on |
| ConfigProperties.NoneMissingIn | src/config/config.py:101-102 | a stretch of set values lists no key |
| ConfigProperties.OneMissingKey | src/config/config.py:104-107 | a single empty value is listed alone, so the message names just that key |

## Left out

- Logging in `ingest_usage_summary` (lines 184-186, 197, 211, 222) has no effect on the counters.
- Rounding: `compute_cost_usd` rounds to 6 and 4 decimal places, and those roundings are not modelled. `CostUsd` reports exact values.
- Analytics.CostUsd: prices and counts are exact reals rather than IEEE doubles, so double-precision rounding in the products and sums is not modelled.
- `report()` wraps the cost dictionary under the key "cost". The model returns the dictionary itself.
- The `dur_ms` computation at lines 116-130 is unused by the code, so it is not modelled. It can still raise: `float()` of an int too large for a double raises OverflowError, which the `(ValueError, TypeError)` handlers at lines 124 and 129 do not catch, so such a `duration_ms` or `duration` makes `ingest_metrics` raise. The model does not capture that exception path.
- Python.SecondsToMs: `int(float(v) * 1000)` is computed in exact arithmetic, not in doubles. The two can differ by one millisecond: for 1.001 seconds the code counts 1000 ms (1.001 * 1000 is 1000.9999999999999 in doubles), the model 1001. `float()` of an int too large for a double raises OverflowError, which escapes the handler at line 157; the model converts any int.
- Analytics.SessionMs: the elapsed milliseconds are computed in exact arithmetic; `total_seconds() * 1000` in doubles can be one millisecond lower.
- Floats are finite reals. Infinity and NaN are not modelled. So the OverflowError that `int(float("inf") * 1000)` raises past the `(ValueError, TypeError)` handler is not modelled either.
- Python.StrToInt rejects underscores between digits and non-ASCII Unicode digits, which `int()` accepts. Like `int()`, it rejects exponents and "inf"/"nan".
- Python.StrToFloat rejects underscores between digits, non-ASCII Unicode digits, exponents and "inf"/"infinity"/"nan", all of which `float()` accepts.
- Utils.Digits keeps ASCII digits only. `\D` also keeps other Unicode decimal digits.
- Python.Lower lower-cases ASCII letters only, and a class name or environment value may hold other characters. The outcome of every comparison after `.lower()` is still the same: the compared literals ("stt", "llm", "tts", the provider tags and the true words) are ASCII, and the only non-ASCII capitals that Python lower-cases to ASCII letters, the Kelvin sign and "İ", give "k" and "i" (the latter followed by a combining dot), which none of those literals contains. The lower-cased strings themselves may differ from Python's.
- Python.PyStr: the `str()` text of a float is carried with the value instead of being computed from it.
- Provider objects are abstracted to a class name, a map of attributes and an optional `usage` map. An object's `.value` attribute matters only when it is a string. The kinds of value are Python None, bool, int, float and str. Any other value (a list, a non-section dict, an enum member, a `Decimal`) is an object given by its `str()` text, its truthiness and what `int()` and `float()` return for it, so falsy containers and numeric objects are covered. The model does not tie these fields to one another: nothing forces, say, an empty list's text to be "[]".
- Analytics.Falsy: a metric record is falsy only as an empty dict. A record of another class whose `__bool__` or `__len__` makes it falsy is treated as truthy, so `ingest_metrics` on such a lone record is not modelled as returning early.
- Analytics.FirstInt has no contract of its own: what it returns is stated by the separate lemmas `FirstIntFirstQualifying` and `FirstIntNoneQualify`.
- `os.getenv`, the wall clock and today's date are inputs of the model. The time zone conversion to IST is not modelled. `get_booking_window_end_ist_date` receives today as a day number.
- Config.FromEnv models only environments where `EAGER_EOT_THRESHOLD` and `FALSE_INTERRUPTION_TIMEOUT` are unset, blank or text `float()` accepts. `from_env` raises ValueError for any other value (lines 75, 82-84), and the model has no such error path. The two float tunings themselves are not part of `Settings` in the model.
- `prewarm`, `parse_iso`, `iso_to_ist_iso`, `now_ist_iso`, `get_today_ist_date`, `get_today_ist_str` and `get_booking_window_end_ist_str` (lines 91-97, which formats the end date with `strftime("%d %b %Y")`) are not part of this model. They are library calls on the clock, dates and the voice activity detector.
