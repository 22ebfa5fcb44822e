# LLM API cost calculator — a Dafny model

This project models the core of a React single-page calculator. The calculator
estimates what a workload of LLM API calls costs across a fixed catalog of
models from OpenAI, Anthropic and Groq, in US dollars or Indian rupees. The
Dafny model covers the following:

- **Cost engine** (`cost_calculator.dfy`, module `CostCalculator`). It turns
  per-request sizes (words or tokens), a request count and one model's rates
  per million tokens into token counts and USD/INR costs.
- **Pricing catalog** (`model_pricing.dfy`, module `ModelPricing`). It holds
  the five catalog entries, the per-provider filter and the list of all models.
- **Cost analysis panel** (`cost_breakdown.dfy`, module `CostBreakdown`):
  - the chosen models, restricted by provider and by the ticked model ids;
  - their costs and rounded efficiency scores;
  - the total, average and cheapest cost, the best-value model and the
    potential savings;
  - currency formatting.
- **Results table** (`results_table.dfy`, module `ResultsTable`):
  - the per-model rows;
  - the row comparator and a verified in-place sort on an `array`;
  - the header-click sort state (a class);
  - the model-id checkbox toggle.
- **Bar chart** (`cost_visualization.dfy`, module `CostVisualization`):
  - bars sorted most expensive first;
  - labels and tooltip titles;
  - the height rule;
  - the crore/lakh/thousand tick formatting.
- **Feature matrix** (`model_feature_matrix.dfy`, module `ModelFeatureMatrix`).
  It holds the deduplicated, name-sorted feature columns and the check marks.
- **Parameter form** (`calculator_form.dfy`, module `CalculatorForm`):
  - field-by-field parameter updates;
  - the `parseInt(text) || 0` reading of number fields;
  - provider buttons.
- **Older standalone calculator** (`calculator.dfy`, module `Calculator`):
  - its own rate table, cost formula (output words count 0.75 tokens, INR at 83)
    and deviation-from-mean comparison;
  - its component state as a class.
- **Shared modules**:
  - `types.dfy` holds the enumerations and records;
  - `list_ops.dfy` holds subsequences, the toggle, remove-all and sums;
  - `string_order.dfy` holds JavaScript's code-unit string order as a total
    order.

JavaScript numbers are modelled as exact `real`s. NaN and the infinities are
modelled in two places:
- the `Math.min` seed is a `Bound` datatype;
- a division by a zero mean gives `None`.

The third place the source can produce one, the `1 / costPerToken` of a model
whose rates are both zero, is excluded by a precondition (see "## Left out").

Where the code and its documentation disagree, the model follows the code:
- `CostCalculator.WordsExample` gives the code's exact figures for the
  workload of the worked example in `src/components/Documentation.tsx:118-133`.
  That page uses a different per-word figure: 26.67 and 266.67 tokens per
  request, about 4/3 of a token a word. The code's 1.333 gives 26.66 and 266.6,
  so 2,666 and 26,660 tokens rather than the page's 2,667 and 26,667.
- The older calculator returns an empty table for an empty provider
  selection, because it maps over an empty list. Its average is then never
  read, so `Calculator.CalculateCosts` has no precondition.

## Model

| member | source | states |
|---|---|---|
| Types.FeatureNameInjective | src/types.ts:12-18 | two features have the same name exactly when they are the same feature, so sorting by name orders features strictly |
| CostCalculator.TokensOf | src/utils/costCalculator.ts:24-25 | in tokens mode the size is taken as is; in words mode it is multiplied by 1.333; a non-negative size gives a non-negative count |
| CostCalculator.CalculateCosts | src/utils/costCalculator.ts:13-59 | per-request tokens come from the unit conversion; totals are requests times per-request tokens; each currency's total is input plus output; every INR figure is the USD figure times 86.65 |
| CostCalculator.CostsIn | src/components/CostBreakdown.tsx:73 | a component shows either all the USD figures or all the INR figures of one result, never a mix, and the shown total is the sum of its parts |
| CostCalculator.MatchesDocumentedFormula | src/components/Documentation.tsx:40-45 | each USD component equals (tokens per request × requests / 1,000,000) × rate per million |
| CostCalculator.TotalFormula | src/utils/costCalculator.ts:27-34 | the dollar total is (input tokens × input rate + output tokens × output rate) × requests / 1,000,000 |
| CostCalculator.ZeroWorkloadCostsNothing | src/utils/costCalculator.ts:28-39 | zero requests, or zero input and output size, gives zero total tokens and zero cost in both currencies |
| CostCalculator.NonNegativeInputsGiveNonNegativeCosts | src/utils/costCalculator.ts:24-39 | non-negative sizes, requests and rates never give a negative token total or cost |
| CostCalculator.LinearInRequests | src/utils/costCalculator.ts:28-39 | scaling the request count by k scales every token total and every cost by k |
| CostCalculator.AdditiveInRequests | src/utils/costCalculator.ts:28-34 | the USD total for n1 + n2 requests is the sum of the totals for n1 and for n2 |
| CostCalculator.WordsExample | src/components/Documentation.tsx:118-133 | 20/200 words, 100 requests at $3/$15 give 2,666 and 26,660 tokens, $0.407898 and ₹35.3443617 exactly |
| CostCalculator.TokensExample | src/utils/costCalculator.ts:24-34 | the same sizes in tokens mode give 2,000 and 20,000 tokens and $0.306 |
| ModelPricing.FilterMembers | src/data/modelPricing.ts:57 | an entry survives the provider filter exactly when it is in the list and has that provider |
| ModelPricing.FilterKeepsOrder | src/data/modelPricing.ts:57 | the filtered list is a subsequence of the input: entries keep their original order |
| ModelPricing.GetModelsByProvider | src/data/modelPricing.ts:56-58 | a model is returned exactly when it is in the catalog with that provider |
| ModelPricing.FlatFilterMembers | src/components/ResultsTable.tsx:27 | for any rate list, the flatMap of per-provider filters holds exactly the entries whose provider is listed |
| ModelPricing.ModelsOfProviders | src/components/ResultsTable.tsx:27 | the flatMap over providers holds exactly the catalog models whose provider is listed |
| ModelPricing.GetAllModels | src/data/modelPricing.ts:60-62 | the whole catalog is the OpenAI, then Anthropic, then Groq models |
| ModelPricing.FilterAppend | src/data/modelPricing.ts:57 | filtering a concatenation is the concatenation of the filtered parts |
| ModelPricing.ModelsOfProvidersAppend | src/components/ResultsTable.tsx:27 | the models of two provider lists joined are the two lists' models joined |
| ModelPricing.CatalogIdsDistinct | src/data/modelPricing.ts:3-54 | no two catalog entries share an id |
| ModelPricing.CatalogWellFormed | src/data/modelPricing.ts:3-54 | every entry has positive rates, a context window in (0, 200000], at most 6 distinct features |
| ModelPricing.CatalogByProvider | src/data/modelPricing.ts:3-58 | each provider's list is exactly its catalog entries in catalog order: GPT-4 Turbo and GPT-3.5 Turbo; Claude 3 Opus and Claude 3 Sonnet; Mixtral 8x7B |
| ModelPricing.ProviderCounts | src/data/modelPricing.ts:3-58 | 2, 2 and 1 models per provider |
| ModelPricing.AllProvidersGiveCatalog | src/components/ResultsTable.tsx:27 | selecting OpenAI, Anthropic and Groq in that order shows exactly the list getAllModels returns |
| CostBreakdown.FilterByIds | src/components/CostBreakdown.tsx:22 | keeps exactly the models whose id is ticked, every copy of each (the multiset clause), in their original order |
| CostBreakdown.SelectModels | src/components/CostBreakdown.tsx:20-22 | a model is analysed exactly when it is in the catalog, its provider is selected and its id is ticked |
| CostBreakdown.CatalogScoresNormalised | src/components/CostBreakdown.tsx:66-69 | for catalog models the feature and context scores lie in [0, 1] and the composite score is positive |
| CostBreakdown.RoundToTenth | src/components/CostBreakdown.tsx:74 | the result is a whole number of tenths in (x − 0.05, x + 0.05], the only such number, so halves round up as `Math.round` does |
| CostBreakdown.CostOf | src/components/CostBreakdown.tsx:55-76 | the record carries the model, the engine's figures in the chosen currency, and the score rounded to one decimal place, `RoundToTenth` of the formula, hence within 0.05 of it |
| CostBreakdown.RawEfficiencyScore | src/components/CostBreakdown.tsx:66-69 | the unrounded score of a model with a positive rate sum and a non-negative context window is positive |
| CostBreakdown.CheaperScoresHigher | src/components/CostBreakdown.tsx:66-69 | of two models with equal feature count and context window, the one with the lower mean rate scores strictly higher |
| CostBreakdown.MinFrom | src/components/CostBreakdown.tsx:86-88 | the Math.min fold is finite on a non-empty list, is one of its elements or the seed, and is below every element |
| CostBreakdown.OptimalCost | src/components/CostBreakdown.tsx:86-88 | the optimal cost is one of the totals and no total is below it; the +Infinity seed never survives |
| ListOps.Mean | src/components/CostBreakdown.tsx:80 | the mean times the count is the sum; the panel's average cost and the older calculator's mean (src/components/Calculator.tsx:32) are both this function |
| CostBreakdown.PotentialSavings | src/components/CostBreakdown.tsx:89 | the savings are never negative |
| CostBreakdown.AverageBetweenMinAndMax | src/components/CostBreakdown.tsx:79-80 | the average cost lies between the cheapest and the dearest total |
| CostBreakdown.SavingsCharacterised | src/components/CostBreakdown.tsx:86-89 | potential savings are never negative, and are zero exactly when all totals are equal |
| CostBreakdown.BestValueFrom | src/components/CostBreakdown.tsx:81-83 | the reduce returns a highest-scoring index, the first one on ties |
| CostBreakdown.BestValueIndex | src/components/CostBreakdown.tsx:81-83 | the best-value model scores at least as high as every model and strictly higher than every earlier one |
| CostBreakdown.ModelCosts | src/components/CostBreakdown.tsx:55-76 | one record per chosen model, in order |
| CostBreakdown.Analyze | src/components/CostBreakdown.tsx:20-89 | the panel shows the empty message exactly when no model is chosen; otherwise every figure is the stated fold of the records |
| CostBreakdown.EqualTotalsSaveNothing | src/components/CostBreakdown.tsx:86-89 | when every total is the same, the potential savings are zero |
| CostBreakdown.UnequalTotalsSaveSomething | src/components/CostBreakdown.tsx:86-89 | when two totals differ, the potential savings are strictly positive |
| CostBreakdown.Summarise | src/components/CostBreakdown.tsx:78-89 | the summary keeps the records and carries their total, average, first best-scoring record, cheapest total and savings |
| CostBreakdown.SummaryGuarantees | src/components/CostBreakdown.tsx:78-89 | for any non-empty list of records, the summary is consistent: optimal cost is a record's total and at most the average, savings are zero exactly when totals are equal, the best-value record scores highest |
| CostBreakdown.AnalysisGuarantees | src/components/CostBreakdown.tsx:78-89 | the optimal cost is some chosen model's cost and at most the average; savings are non-negative and zero exactly when all costs are equal; the best-value model is among the records and none scores higher |
| CostBreakdown.RupeeSignMisencoded | src/components/CostBreakdown.tsx:92 | the stored INR sign is three characters that differ from "₹"; the USD sign is right |
| CostBreakdown.FormatCurrency | src/components/CostBreakdown.tsx:91-96 | shows the intended sign; M exactly from 1e6, K exactly in [1e3, 1e6), plain below 1e3; scaled value × suffix factor gives back the amount |
| Calculator.LegacyTableMatchesCatalog | src/data/models.ts:3-34 | the older table has the catalog's names, providers and rates, index by index |
| Calculator.FilterBySelected | src/components/Calculator.tsx:19 | keeps exactly the rows whose provider is selected, every copy of each (the multiset clause), in table order |
| Calculator.TotalCost | src/components/Calculator.tsx:21-27 | no requests cost nothing, and a non-negative workload at non-negative rates never costs a negative amount |
| Calculator.TokenModeMatchesEngine | src/components/Calculator.tsx:21-27 | in token mode this variant's dollar cost equals the shared engine's dollar total for the same workload and rates |
| Calculator.WordModeIsTokenModeAtRatios | src/components/Calculator.tsx:21-27 | in word mode the cost is the token-mode cost of 1.333 tokens per input word and 0.75 per output word |
| Calculator.InrIsExchangeRateTimesUsd | src/components/Calculator.tsx:24-27 | the rupee cost is exactly 83 times the dollar cost |
| Calculator.WordModeWeighsOutputLess | src/components/Calculator.tsx:21-27 | in word mode, with any output, this variant's dollar cost is strictly below the shared engine's dollar total for the same workload and rates (0.75 rather than 1.333 tokens per output word) |
| Calculator.ComparisonPercentage | src/components/Calculator.tsx:35 | undefined exactly when the mean is zero; around a positive mean, positive exactly above it and zero exactly at it |
| Calculator.Compare | src/components/Calculator.tsx:20-36 | one row per model, in order, with its cost and its deviation from the given mean |
| Calculator.CalculateCosts | src/components/Calculator.tsx:18-37 | one row per selected model in table order; each row's cost is the variant's formula and its comparison is the deviation from the mean of the selected costs; empty for an empty selection |
| Calculator.ComparisonsSumToZero | src/components/Calculator.tsx:32-36 | deviations from a non-zero mean, in percent, sum to zero |
| Calculator.TableComparisonsSumToZero | src/components/Calculator.tsx:18-37 | the comparison column of a non-empty table around a non-zero mean sums to zero |
| Calculator.ScaledDeviationsSum | src/components/Calculator.tsx:35 | the deviations from c sum to ((sum − n·c) / c) × 100 |
| Calculator.EqualCostsCompareAtZero | src/components/Calculator.tsx:32-35 | when all selected models cost the same, every comparison is 0% |
| Calculator.CalculatorState.constructor | src/components/Calculator.tsx:9-16 | starts at 20 words in, 200 out, 100 requests, USD, words mode, all three providers |
| Calculator.CalculatorState.ToggleProvider | src/components/Calculator.tsx:131-135 | the clicked provider's membership flips, every other provider's stays, inputs are unchanged |
| Calculator.CalculatorState.SetUseTokens | src/components/Calculator.tsx:73 | only the unit switch changes |
| Calculator.CalculatorState.SetInputText | src/components/Calculator.tsx:82 | only the input size changes |
| Calculator.CalculatorState.SetOutputText | src/components/Calculator.tsx:94 | only the output size changes |
| Calculator.CalculatorState.SetRequests | src/components/Calculator.tsx:106 | only the request count changes |
| Calculator.CalculatorState.SetCurrency | src/components/Calculator.tsx:115 | only the currency changes |
| ResultsTable.WithCosts | src/components/ResultsTable.tsx:30-49 | the row's token total is input plus output totals, and its costs are the engine's in the chosen currency |
| ResultsTable.ModelsWithCosts | src/components/ResultsTable.tsx:27-49 | one row per model of the selected providers, in provider order; a model has a row exactly when its provider is selected |
| ResultsTable.Compare | src/components/ResultsTable.tsx:52-58 | the comparator as written answers only 1 or −1, never 0 |
| ResultsTable.CompareAgreesWithBefore | src/components/ResultsTable.tsx:52-58 | where keys differ, the comparator's sign puts the row with the earlier key first, in either direction |
| ResultsTable.TiesAreInconsistent | src/components/ResultsTable.tsx:55-57 | for equal keys the comparator gives the same answer in both orders, so tie order is unspecified |
| ResultsTable.SortRows | src/components/ResultsTable.tsx:52-58 | after the in-place sort the array is ordered by the chosen field and direction and holds the same rows |
| ResultsTable.InsertLast | src/components/ResultsTable.tsx:52-58 | one step of that sort: with the first i rows ordered, row i is moved into place so the first i+1 rows are ordered, and the array keeps the same rows |
| ResultsTable.SortedRows | src/components/ResultsTable.tsx:52 | the sorted copy is ordered and is a permutation of the rows |
| ResultsTable.SortedByNameIsStrict | src/components/ResultsTable.tsx:54-55 | with distinct names, a name-sorted table is strictly ordered |
| ResultsTable.CheapestFirst | src/components/ResultsTable.tsx:57 | sorted by total cost ascending, the first row is the cheapest |
| ResultsTable.CostFieldsSortByTotal | src/components/ResultsTable.tsx:57 | every cost header orders rows by total cost |
| ResultsTable.NextSort | src/components/ResultsTable.tsx:60-67 | clicking the current header flips the direction; clicking another starts ascending on it |
| ResultsTable.SameHeaderTwiceRestores | src/components/ResultsTable.tsx:60-67 | two clicks on the current header restore the sort state |
| ResultsTable.NewHeaderTwiceDescends | src/components/ResultsTable.tsx:60-67 | two clicks on a new header sort by it descending |
| ResultsTable.SortState.constructor | src/components/ResultsTable.tsx:23-24 | the table starts sorted by name, ascending |
| ResultsTable.SortState.HandleSort | src/components/ResultsTable.tsx:60-67 | the new field and direction are the header-click transition of the old ones |
| ResultsTable.HandleModelToggle | src/components/ResultsTable.tsx:69-75 | the clicked id's membership flips; a new id is appended; a selected one is removed with every copy, while every copy of every other id stays, in order |
| ListOps.RemoveAll | src/components/Calculator.tsx:133 | removes every occurrence of the element and keeps every copy of every other element, in order |
| ListOps.Toggle | src/components/ResultsTable.tsx:69-75 | the element's membership flips; an absent one is appended; a present one is removed with all its copies while every copy of every other element stays, in order |
| ListOps.ToggleTwice | src/components/ResultsTable.tsx:69-75 | two toggles restore membership; an absent element leaves the list exactly as it was |
| CostVisualization.BarOf | src/components/CostVisualization.tsx:34-49 | the bar's name and provider are the model's; its segments are the engine's input and output cost in the chosen currency |
| CostVisualization.ModelData | src/components/CostVisualization.tsx:33-50 | one bar per model of the selected providers, in provider order |
| CostVisualization.Insert | src/components/CostVisualization.tsx:53-55 | inserting a bar adds exactly that bar to the multiset, and the head is the new bar or the old head |
| CostVisualization.InsertKeepsOrder | src/components/CostVisualization.tsx:53-55 | inserting a bar into a list ordered by descending total keeps it ordered |
| CostVisualization.SortedData | src/components/CostVisualization.tsx:53-55 | the sorted bars are a permutation of the bars, longest first |
| CostVisualization.MostExpensiveFirst | src/components/CostVisualization.tsx:53-55 | the first sorted bar is at least as long as every bar |
| CostVisualization.Label | src/components/CostVisualization.tsx:72 | the label is exactly the model name, then " (", the provider's name and ")" |
| CostVisualization.TooltipTitle | src/components/CostVisualization.tsx:124 | the title is the longest prefix without " ("; it is the whole label or stops exactly at the first " (" |
| CostVisualization.TooltipShowsName | src/components/CostVisualization.tsx:124 | for a name without " (", the tooltip title of its label is the name |
| CostVisualization.CatalogNamesHaveNoSeparator | src/data/modelPricing.ts:3-54 | no catalog name contains " (" |
| CostVisualization.ChartDataOf | src/components/CostVisualization.tsx:71-89 | index i of the labels and of both datasets is the i-th sorted bar: its label, its input cost in the input dataset and its output cost in the output dataset (adding up to its total), and its tooltip shows the model name |
| CostVisualization.CalculatedHeight | src/components/CostVisualization.tsx:177-179 | the height is the larger of 300 and 40 per bar, so up to 7 bars get 300 |
| CostVisualization.FormatCurrency | src/components/CostVisualization.tsx:58-69 | dollars use M from 1e6 and K from 1e3; rupees use Cr from 1e7, L from 1e5 and K from 1e3; the scaled value × suffix factor gives back the amount |
| CostVisualization.DollarFormatsAgree | src/components/CostVisualization.tsx:59-62 | for dollars the chart and the analysis panel format every amount alike |
| CostVisualization.RupeeFormatsDiffer | src/components/CostVisualization.tsx:63-68 | ten lakh rupees show as 10.00L on the chart but 1.00M on the analysis panel |
| ModelFeatureMatrix.FeatureOccurrences | src/components/ModelFeatureMatrix.tsx:11 | a feature occurs exactly when some shown model lists it |
| ModelFeatureMatrix.Dedup | src/components/ModelFeatureMatrix.tsx:10-11 | the deduplicated list has the same members, each once, in order of first occurrence |
| ModelFeatureMatrix.SortByName | src/components/ModelFeatureMatrix.tsx:12 | the sorted columns are a permutation ordered by name |
| ModelFeatureMatrix.AllFeatures | src/components/ModelFeatureMatrix.tsx:10-12 | a feature is a column exactly when some shown model lists it, and columns are strictly increasing by name (no repeats) |
| ModelFeatureMatrix.HasFeature | src/components/ModelFeatureMatrix.tsx:83 | a cell is checked exactly when the model lists the feature |
| ModelFeatureMatrix.EveryFeatureHasAColumn | src/components/ModelFeatureMatrix.tsx:10-12 | no check mark is lost: every listed feature of a shown model has a column |
| ModelFeatureMatrix.EveryColumnIsUsed | src/components/ModelFeatureMatrix.tsx:10-12 | every column is checked for some shown model |
| ModelFeatureMatrix.NoModelsNoColumns | src/components/ModelFeatureMatrix.tsx:10-12 | with no models there are no feature columns |
| CalculatorForm.ParseInt | src/components/CalculatorForm.tsx:108 | reads an optional sign and the leading digits; NaN exactly when no digit follows the sign |
| CalculatorForm.Coerce | src/components/CalculatorForm.tsx:108 | the number read, or 0 when parseInt gives NaN |
| CalculatorForm.ParseShowRoundTrip | src/components/CalculatorForm.tsx:105-108 | reading back the whole number a field shows gives that number |
| CalculatorForm.ParseStopsAtNonDigit | src/components/CalculatorForm.tsx:108 | reading stops at the first non-digit |
| CalculatorForm.ParseExamples | src/components/CalculatorForm.tsx:108 | "1.5" and "1e5" read as 1, "-5" as −5, and "", "abc" and "-" as 0 |
| CalculatorForm.OnUseTokens | src/components/CalculatorForm.tsx:71-74 | only the unit switch changes, to the new value |
| CalculatorForm.OnInputSize | src/components/CalculatorForm.tsx:106-109 | only the input size changes, to the text's parseInt-or-0 |
| CalculatorForm.OnOutputSize | src/components/CalculatorForm.tsx:128-131 | only the output size changes, to the text's parseInt-or-0 |
| CalculatorForm.OnRequests | src/components/CalculatorForm.tsx:150-153 | only the request count changes, to the text's parseInt-or-0 |
| CalculatorForm.OnCurrency | src/components/CalculatorForm.tsx:170-173 | only the currency changes |
| CalculatorForm.RetypingShownValueChangesNothing | src/components/CalculatorForm.tsx:105-109 | typing back a whole-number input size that the field shows leaves the parameters unchanged |
| CalculatorForm.OnProviderClick | src/components/CalculatorForm.tsx:201-206 | the clicked provider's membership flips; a new one is appended; a selected one is removed with every copy, while every copy of every other provider stays, in order |
| CalculatorForm.ProviderClickTwice | src/components/CalculatorForm.tsx:201-206 | two clicks restore the selection's membership, and restore it exactly for an unselected provider |

## Left out

- Rendering (JSX, Tailwind classes, icons, animations, dark mode), Chart.js configuration other than labels, data, tooltip titles and height, `App.tsx` wiring, `Header.tsx` and the prose of `Documentation.tsx`: these are presentation, not computation.
- `toFixed(2)` and `toLocaleString` text rendering: a `Display` keeps the symbol, the scaled value and the suffix, but not the decimal string.
- IEEE-754 rounding, NaN and the infinities in general: the model computes with exact reals, so `WordsExample` states exact values, where the browser may differ in the last binary digit.
- CostBreakdown.RawEfficiencyScore: a model whose rate sum is not positive is excluded by `requires m.inputCost + m.outputCost > 0.0`, here and in `CostOf` and `ModelCosts`. For a zero sum the source would compute `1 / 0`, an Infinity score; for a negative sum, a negative score. Every catalog entry has positive rates (`ModelPricing.CatalogWellFormed`), so no selectable model reaches either case.
- CalculatorForm.ParseInt: leading whitespace, a radix and the "0x" prefix are not modelled. A number input's value never carries them.
- Calculator.CalculatorState.SetInputText: `Number(text)` is taken as already parsed to a real. The empty-string-to-0 and NaN cases of `Number` are not modelled. The same holds for SetOutputText and SetRequests.
- CostVisualization.SortedData: the order among bars of equal total is not stated. The browser's `sort` is stable, and `Insert` in fact keeps equal bars in input order, but no ensures says so; only the descending order and the permutation are proved.
- ResultsTable.SortRows: the browser's sort algorithm is not specified, and the comparator never returns 0 (`TiesAreInconsistent`). The model therefore proves the order and permutation promised for any consistent sort, and leaves tie order unspecified.
- ResultsTable.SortState.HandleSort: only the name header is clickable in the page. The model allows all four fields, as the handler's type does.
- StringOrder compares code points, which equal JavaScript's UTF-16 code units for every name in the catalog (all in the Basic Multilingual Plane).
- The older calculator's rupee sign in `src/components/Calculator.tsx:197` has the same mis-encoding as the finding below. Its table rendering is not part of this model.
- `ChartType` and `TimeFrame` are carried in the parameters but never used in any computation, as in the source.

## Findings

| source | as written | input that shows it | evidently intended | confidence | as-written member | corrected member |
|---|---|---|---|---|---|---|
| src/components/CostBreakdown.tsx:92 | the INR symbol literal is the three characters "â‚¹": the UTF-8 bytes of U+20B9 decoded as Windows-1252 | currency INR, any amount: every analysis figure is prefixed with "â‚¹" | the rupee sign "₹" (U+20B9), as the chart formatter at src/components/CostVisualization.tsx:64-67 uses | not executed | CostBreakdown.RupeeSignMisencoded | CostBreakdown.FormatCurrency |
