# India trade analyst: verified model of the deterministic core

This project models, in Dafny, the parts of the trade-analysis web application
whose behaviour is fixed by its own code rather than by a network service, a
database or the browser:

- **The Gemini client** (`lib/gemini.ts`, module `Gemini`):
  - the "APPLIED FILTERS" block built from an optional filter record: the
    imperative pushes, their fixed order and which default or empty filters
    are suppressed;
  - the failure semantics of `analyzeTradeQuery`: a thrown call, a missing or
    empty response text, or a parse error all yield one fixed fallback
    analysis, which is modelled literally.

  The model call and `JSON.parse` are function parameters (`respond`,
  `parse`).
- **The forecaster** (`lib/forecasting.ts`, module `Forecasting`):
  - the main forecasting loop, with the two fitted linear models as an oracle
    (`Regression`, or `None` when fitting throws);
  - the confidence heuristic;
  - the fallback loop that compounds the clamped average growth of the last
    three years;
  - the growth-rate loop and the confidence interval.

  JavaScript numbers are `real`s, and `Math.round(x)` is `Floor(x + 1/2)`.
- **The chat reducer** `analyzeTradeData` (`app/actions.ts`, module
  `Actions`). It is a pure transition over the message list. The fresh ids and
  the outcome of the awaited analysis are parameters.
- **The filter panel's record updates** (`components/filters/FilterPanel.tsx`,
  module `FilterPanel`): the list toggles, the single-field updates and the
  year options.
- **The contact form** (`components/landing/ContactSection.tsx`, module
  `ContactSection`):
  - the e-mail pattern, stated structurally;
  - the per-field validation rules and their messages;
  - the component state as a class whose methods update it: change, validate,
    the submit gate, and the completion and reset steps.
- **Shared modules:**
  - `Text` gives the JavaScript string primitives the core relies on over
    `seq<char>`: `trim`, `\s`, `join`, integer `toString` and `parseInt`.
  - `TradeSchema` gives the `TradeData` records.
  - `Wrappers` gives `Option`.

## Model

| member | source | states |
|---|---|---|
| Gemini.BuildFilterContext | lib/gemini.ts:94-119 | The imperative construction yields exactly the filter block: empty without filters or without any applicable line, otherwise the header and the numbered lines. |
| Gemini.CollectFilterParts | lib/gemini.ts:96-114 | The four guarded pushes leave exactly the lines of the applicable constraint kinds, each built by its template. |
| Gemini.FilterParts | lib/gemini.ts:96-114 | Line i of the parts is the line of the i-th applicable constraint kind, and there is one line per applicable kind. |
| Gemini.PartsInSourceOrder | lib/gemini.ts:98-114 | The parts are sectors, then countries, then trade type, then year range, each present exactly when it applies. |
| Gemini.AppliedConstraintsOrdered | lib/gemini.ts:96-114 | A kind of line is emitted exactly when it applies, at most once, in strictly increasing order of the fixed ranking. |
| Gemini.NoFiltersNoBlock | lib/gemini.ts:94-95 | With no filter record the block is the empty string. |
| Gemini.BlockEmptyIffNothingApplies | lib/gemini.ts:116-118 | The block is empty exactly when no constraint applies. |
| Gemini.DefaultFiltersNoBlock | lib/gemini.ts:98-116 | No sectors, no countries, trade type 'both' or unset, and years 2010 to 2025 or unset give no block at all. |
| Gemini.BlockLayout | lib/gemini.ts:116-117 | A non-empty block is two newlines, the header, a newline, the numbered lines joined by newlines, and a final newline. Line i is "i+1. " followed by the line of the i-th applicable kind, and its number reads back as i+1. |
| Gemini.NumberedLine | lib/gemini.ts:117 | Numbered line i is the decimal text of i+1, ". ", then part i, and `parseInt` reads it as i+1. |
| Gemini.ListLines | lib/gemini.ts:98-104 | The sector and country lines appear exactly for non-empty lists and join the entries in input order with ", " after their fixed prefixes. |
| Gemini.TradeTypeLine | lib/gemini.ts:106 | The trade-type line appears exactly when the type is set and not 'both'. |
| Gemini.TradeTypeText | lib/gemini.ts:107 | 'imports' gives "Focus ONLY on imports (not exports)"; any other type t gives "Focus ONLY on t (not imports)". |
| Gemini.YearRangeLine | lib/gemini.ts:110-114 | The year-range line appears exactly when both years are set and either differs from 2010/2025. |
| Gemini.FailuresFallBack | lib/gemini.ts:187-199 | A thrown call, an undefined or empty text, or a text that does not parse each return the fallback analysis. |
| Gemini.ParsedTextReturned | lib/gemini.ts:187-192 | A non-empty text that parses is returned exactly as parsed. |
| Gemini.ResultOrigin | lib/gemini.ts:187-199 | The function never fails. Its result is either the fallback or the parse of the non-empty text returned for this very prompt. |
| Gemini.FallbackChartYears | lib/gemini.ts:206-222 | The fallback chart has 15 points, and point i is dated with the decimal text of 2010+i. |
| Gemini.FallbackChartYearsParse | lib/gemini.ts:206-222 | The fallback years read back as 2010, 2011, … 2024: consecutive and strictly increasing. |
| Gemini.FallbackChangeYears | lib/gemini.ts:206-248 | The year-over-year changes are given for exactly the chart years after the first, in the same order. |
| Gemini.FallbackFigures | lib/gemini.ts:206-231 | Every fallback year has positive exports and imports above exports, and six sectors are listed. |
| Text.Trim | app/actions.ts:20 | `trim` gives the empty string exactly for blank input; otherwise the result neither starts nor ends with white space. |
| Text.TrimCutsOnlyWhitespace | app/actions.ts:20 | `trim` returns a slice of its input with only white space cut off on either side. |
| Text.ParseIntOfIntToString | lib/forecasting.ts:47-65 | `parseInt` reads back every integer that `toString` writes. |
| Text.IntToStringInjective | components/filters/FilterPanel.tsx:48 | Different integers have different decimal texts. |
| Forecasting.Confidence | lib/forecasting.ts:136-142 | The heuristic confidence is never below 50. |
| Forecasting.CalculateConfidence | lib/forecasting.ts:122-143 | `calculateConfidence` is never below 50. It sees the data only through the coefficient of variation of the last five totals. |
| Forecasting.ConfidenceCeiling | lib/forecasting.ts:136-142 | For a non-negative coefficient of variation, the confidence is at most max(50, 85 - 10(yearsAhead - 1)). |
| Forecasting.ConfidenceNonIncreasing | lib/forecasting.ts:136-142 | A later year is never forecast with more confidence. |
| Forecasting.ConfidenceFirstTwoYears | lib/forecasting.ts:136-142 | The first year is exactly 10 points more confident than the second, whatever the volatility. |
| Forecasting.ConfidenceUsesLastFive | lib/forecasting.ts:124-133 | History older than the last five points does not change the coefficient of variation. |
| Forecasting.CoefficientOfVariationUnique | lib/forecasting.ts:127-133 | At most one coefficient of variation fits the data, so the confidence is determined by the data. |
| Forecasting.CoefficientOfVariationNonNegative | lib/forecasting.ts:127-133 | With non-negative yearly totals, the coefficient of variation is non-negative. |
| Forecasting.CalculateAverageGrowth | lib/forecasting.ts:181-194 | The loop collects the consecutive relative changes. The result is their clamped mean, or the 5% default, and lies in [-15%, +20%]. |
| Forecasting.AverageGrowthClamp | lib/forecasting.ts:182-193 | Fewer than two values give 0.05. Otherwise the mean rate is returned when it is in [-0.15, 0.20], and otherwise the bound it exceeds. |
| Forecasting.SteadyGrowthReported | lib/forecasting.ts:184-193 | Values that grow at one in-range rate g are reported as growing at exactly g. |
| Forecasting.Extrapolate | lib/forecasting.ts:163-173 | The fallback loop yields one entry per year. Entry i holds the values compounded i+1 times, year last+i+1, and confidence 75 - 10i. |
| Forecasting.SimpleForecast | lib/forecasting.ts:148-176 | Empty data throws (`None`). Otherwise the result is the closed-form compounded forecast of the last point at the growth of the last three points. |
| Forecasting.CompoundedForecast | lib/forecasting.ts:152-173 | Exactly max(yearsToPredict, 0) entries. Exports and imports are compounded independently from the last point's values. |
| Forecasting.CompoundClosedForm | lib/forecasting.ts:163-165 | Compounding n times at rate g multiplies by (1+g)^n. |
| Forecasting.CompoundedForecastYearsAndConfidence | lib/forecasting.ts:168-171 | Fallback entry i is dated lastYear+i+1 and has confidence exactly 75 - 10i, with no floor. |
| Forecasting.CompoundBounded | lib/forecasting.ts:156-165 | A non-negative value compounded at the clamped rate stays between compounding at 0.85 and at 1.20. |
| Forecasting.CompoundedForecastNonNegative | lib/forecasting.ts:160-170 | From a non-negative last point, every fallback prediction is non-negative. |
| Forecasting.YearLabelParses | lib/forecasting.ts:51-65 | The forecast year text reads back as lastYear + i. |
| Forecasting.Project | lib/forecasting.ts:49-75 | The main loop yields one entry per year. Entry i holds the rounded model values at index last+i+1, year last+i+1, and the confidence for i+1 years ahead. |
| Forecasting.RegressionForecast | lib/forecasting.ts:49-69 | Exactly max(yearsToPredict, 0) entries. The confidence of entry i is `calculateConfidence(data, i+1)`. |
| Forecasting.RegressionForecastYearsAndConfidence | lib/forecasting.ts:49-69 | Main-path entries are dated consecutively after the last year. Their confidence is at least 50 and never rises. |
| Forecasting.ForecastTradeData | lib/forecasting.ts:25-91 | Empty history gives `None` (the fallback throws too). A failed fit gives the fallback forecast; otherwise the result is the regression forecast. |
| Forecasting.CalculateConfidenceInterval | lib/forecasting.ts:199-209 | For prediction >= 0 and confidence <= 100, lower <= round(prediction) <= upper. A non-negative confidence keeps lower >= 0. Confidence 100 gives lower = upper = round(prediction). |
| Forecasting.RoundNearest | lib/forecasting.ts:142 | `Math.round` is within one half of its argument, halves rounding up. |
| Actions.Reply | app/actions.ts:36-54 | Success gives an assistant message with the fixed text and the analysis as data. Failure gives an assistant message with the apology and no data. |
| Actions.AnalyzeTradeData | app/actions.ts:17-56 | A missing or blank query leaves the state as it was, and only such a query does. Any other query appends two messages after the unchanged old list: the untrimmed query as a user message, then the reply. |
| Actions.InitialStateWellFormed | components/TradeAnalyst.tsx:10-16 | The state the chat starts from, the assistant's greeting alone, is well formed and holds no user query. |
| Actions.AnalyzePreservesPairing | app/actions.ts:17-56 | From a well-formed state, every transition keeps the conversation the greeting followed by (user query, assistant reply) pairs, so every reachable state has that shape. |
| Actions.QueryRecordedOnce | app/actions.ts:24-44 | A non-blank query is recorded exactly once, after the earlier queries. |
| Actions.RepliesAlwaysCarryAnalysis | app/actions.ts:33-45 | With the real client, and for parse results that are well-formed trade data, the reply always carries the analysis and never the apology. The request carries no filter block. |
| FilterPanel.RemoveAll | components/filters/FilterPanel.tsx:53 | Filtering removes the item and keeps the membership of every other item. |
| FilterPanel.RemoveAllCounts | components/filters/FilterPanel.tsx:53 | Filtering sets the item's multiplicity to zero and keeps every other multiplicity. |
| FilterPanel.RemoveAllAppend | components/filters/FilterPanel.tsx:53 | Filtering distributes over concatenation, so the remaining items keep their relative order. |
| FilterPanel.ToggleSector | components/filters/FilterPanel.tsx:51-56 | Only `sectors` changes, and the sector's membership flips. |
| FilterPanel.ToggleCountry | components/filters/FilterPanel.tsx:58-63 | Only `countries` changes, and the country's membership flips. |
| FilterPanel.SelectTradeType | components/filters/FilterPanel.tsx:83 | Only `tradeType` changes, to the chosen type. |
| FilterPanel.SelectYearFrom | components/filters/FilterPanel.tsx:102 | Only `yearFrom` changes, to the chosen year. |
| FilterPanel.SelectYearTo | components/filters/FilterPanel.tsx:114 | Only `yearTo` changes, to the chosen year. |
| FilterPanel.ToggleAbsentAppends | components/filters/FilterPanel.tsx:52-54 | Toggling an absent item appends it at the end. |
| FilterPanel.TogglePresentRemoves | components/filters/FilterPanel.tsx:52-53 | Toggling a present item removes every occurrence and changes no other multiplicity. |
| FilterPanel.ToggleFlipsMembership | components/filters/FilterPanel.tsx:52-54 | The toggled item's membership flips, and every other item's stays. |
| FilterPanel.ToggleTwiceRestores | components/filters/FilterPanel.tsx:52-54 | Toggling an absent item twice restores the list exactly. |
| FilterPanel.ToggleTwiceMovesToEnd | components/filters/FilterPanel.tsx:52-54 | Toggling a present item twice leaves one copy of it, at the end. |
| FilterPanel.YearsRange | components/filters/FilterPanel.tsx:48 | There are sixteen year options, from "2010" to "2025". |
| FilterPanel.YearsAreConsecutive | components/filters/FilterPanel.tsx:48 | Option i reads back as the year 2010 + i. |
| ContactSection.EmailShapeExactly | components/landing/ContactSection.tsx:34-37 | The pattern accepts exactly the texts with no white space and exactly one '@' that is not first, whose part after the '@' has a '.' that is neither its first nor its last character. |
| ContactSection.ValidEmailNotBlank | components/landing/ContactSection.tsx:46-50 | An accepted address is never blank, so "required" and "invalid" exclude each other. |
| ContactSection.RequiredErrorExactly | components/landing/ContactSection.tsx:42-54 | The name (and the subject) error is set exactly when the value is blank, and it carries the field's message. |
| ContactSection.EmailErrorExactly | components/landing/ContactSection.tsx:46-50 | "Email is required" exactly when blank. "Please enter a valid email" exactly when not blank and the pattern rejects the untrimmed text. No error exactly when the pattern accepts it. |
| ContactSection.MessageErrorExactly | components/landing/ContactSection.tsx:56-60 | "required" exactly when blank, "too short" exactly when the trimmed text is non-empty and under 10 characters, and no error exactly from 10 characters. |
| ContactSection.ValidFormExactly | components/landing/ContactSection.tsx:39-64 | A form has no errors exactly when the name and subject are not blank, the e-mail matches and the trimmed message has at least 10 characters. |
| ContactSection.CollectErrors | components/landing/ContactSection.tsx:40-61 | The field-by-field if-chain yields exactly the per-field rules' errors. |
| ContactSection.SetField | components/landing/ContactSection.tsx:87 | The given field takes the value, and every other field is unchanged. |
| ContactSection.ClearError | components/landing/ContactSection.tsx:90 | The given field's error is cleared, and every other error is unchanged. |
| ContactSection.EmptyFormAllRequired | components/landing/ContactSection.tsx:80-83 | The empty form, as left by the reset, fails with all four "required" messages. |
| ContactSection.ContactForm.constructor | components/landing/ContactSection.tsx:22-31 | The initial state: empty fields, no errors, neither submitting nor succeeded. |
| ContactSection.ContactForm.ValidateForm | components/landing/ContactSection.tsx:39-64 | Stores exactly the errors of the current data. Returns true exactly when no key is set. |
| ContactSection.ContactForm.HandleChange | components/landing/ContactSection.tsx:86-92 | Sets only the given field. Clears only that field's error, and only when it had one. Leaves the flags unchanged. |
| ContactSection.ContactForm.HandleSubmit | components/landing/ContactSection.tsx:66-71 | Stores the errors of the data. Submission starts exactly when the form is valid, and an invalid form never reaches the submitting state. |
| ContactSection.ContactForm.FinishSubmit | components/landing/ContactSection.tsx:76-77 | After the simulated request, the form is no longer submitting and shows success. |
| ContactSection.ContactForm.ResetAfterSuccess | components/landing/ContactSection.tsx:80-83 | The delayed reset empties every field and drops the success state. |

## Left out

- The Gemini request itself (lib/gemini.ts:91, 121-185):
  - the API key, the network call, the model settings and the prompt prose are not modelled;
  - `Prompt` keeps only the query and the filter block, the two parts the code computes;
  - `respond` is a parameter standing for whatever the call did.
- `JSON.parse` and the `as TradeData` cast (lib/gemini.ts:192) are the parameter `parse`, which yields only well-formed `TradeData`. The cast checks nothing, so the source returns whatever the parse produced, including JSON that violates the schema (`null`, `[]`, an object without `chartData`). Such results are not represented.
- Actions.RepliesAlwaysCarryAnalysis: holds only for parse results the model represents. For a response text such as `null`, the source's reply carries `data: null`.
- The logging in the `catch` branches (lib/gemini.ts:195-198, lib/forecasting.ts:86, app/actions.ts:47) is output only.
- The TensorFlow models (lib/forecasting.ts:36-58, 96-116) are training code with shuffling and float32 tensors. `Regression` stands for the fitted predictions, and `None` for a fit that threw.
- Tensor disposal (lib/forecasting.ts:72-82) only frees memory.
- `Math.sqrt` (lib/forecasting.ts:130) is replaced by a relation: `cv * mean` is the non-negative root of the variance.
- IEEE-754 doubles are modelled as exact reals, with no rounding error, infinities or NaN.
- Forecasting.CalculateConfidence: requires a non-zero mean of the last five totals. JavaScript would divide by zero and get NaN or an infinity.
- Forecasting.CalculateAverageGrowth: requires every value it divides by to be non-zero. A zero would give an infinity or NaN in JavaScript.
- Forecasting.SimpleForecast: requires the same non-zero divisors of the last three exports and imports, for the same reason.
- Forecasting.ForecastTradeData: requires those divisors on the fallback path and a matching coefficient of variation on the main path, for the same reasons.
- Forecasting.ForecastTradeData: the default `yearsToPredict = 2` is not modelled; the count is always passed.
- `Math.round` on non-finite values is not modelled, since NaN and infinities are not modelled.
- Text.ParseInt: hexadecimal `0x` prefixes, radix arguments and non-ASCII digits are not modelled. The year texts it reads arrive as unconstrained input, so a text such as "0x7E8" reads as 0 in the model but as 2024 in JavaScript.
- ContactSection.MessageErrorExactly: it counts Unicode scalar values, whereas JavaScript's `length` counts UTF-16 code units. They differ only for characters outside the Basic Multilingual Plane.
- The timers in `handleSubmit` (components/landing/ContactSection.tsx:74, 80) are not modelled. The steps they delay are the separate methods `FinishSubmit` and `ResetAfterSuccess`, called in that order.
- React's batched, asynchronous state updates are not modelled; each handler's updates take effect at once.
- `focusedField` (components/landing/ContactSection.tsx:32) is presentation state and is not modelled.
- The panel's `SECTORS` and `COUNTRIES` option lists (components/filters/FilterPanel.tsx:22-46) are display data; the toggles accept any string. `onReset` belongs to the parent component.
- `formData.get('query')` (app/actions.ts:18) is modelled as an optional string. The case where a file is uploaded under that name is left out.
- `nanoid()` ids are parameters.
- The apology branch of `analyzeTradeData` is modelled, to match the source. `Actions.RepliesAlwaysCarryAnalysis` shows that the real client never takes it.
- Persistence, authentication, PDF export, charts and the landing pages are not part of this model.
