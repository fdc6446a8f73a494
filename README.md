# SEO forecaster: event-impact engine

A Dafny model of the logic around the forecasting model in the SEO
forecaster tool. The tool turns a site's Search Console click history and a
list of marketing/technical events into a traffic forecast. The model covers:

- the curve generator, which turns each event (window, decay, step, ramp)
  into a per-date regressor column with a sanitised name;
- the orchestration of a forecast run. Events are split into those the
  model is fitted on and future-only "override" events. Overrides are
  multiplied in place into `yhat`, `yhat_lower` and `yhat_upper`. The run
  also checks how many regressor values are non-zero, builds component
  diagnostics and computes the accuracy, mean and delta metrics;
- the assistant's add/remove/update/upsert merge of suggested events into the
  session's event list;
- the prospecting-preset generator, which emits setup, monthly-package and
  extra events from a proposal form;
- the ingestion validators for the click history and the regressor workbook;
- the scenario comparison (per month/quarter), the per-regressor impact table
  and the year-over-year metrics;
- the project store: name sanitisation, project creation, and save, load and
  delete of scenarios in a per-project index. The file system is a map;
- the parameter advisor's decision table for the model's settings.

Modules:

- `Common`: `Option`, the event record, and sums/means/extrema over `real`.
- `Text`: ASCII string helpers: lower, strip, filter, decimal rendering.
- `Grouping`: group-by-sum as a strictly sorted association list, and the
  sorted outer join.
- `Regressors`, `Forecast`, `ChatActions`, `Presets`, `Ingest`,
  `ScenarioAnalysis`, `Projects`, `ParamAdvisor`: one per source file of the
  core.

The outside world enters as parameters:

- the numeric primitives `exp`, `sqrt` and `std`;
- calendar arithmetic: month addition, one-year-back, period grouping,
  period labels, and quarter parsing;
- the current day and the timestamp;
- the fitted forecasting model, as a datatype of functions.

## Model

| member | source | states |
|---|---|---|
| Regressors.ColumnNames | tools/regressor_logic.py:16-18 | one name per event, the i-th being the sanitised name of event i |
| Regressors.ColumnNameShape | tools/regressor_logic.py:17-18 | the name is `reg_<i>_` + the lower-cased name with spaces as `_`, filtered to alphanumerics and `_`; every character is a lower-case letter, digit or `_` |
| Regressors.ColumnNamesDistinct | tools/regressor_logic.py:17-18 | events at different indices get different column names whatever their names |
| Regressors.Tau | tools/regressor_logic.py:47 | the decay time constant is always positive (duration/3, or 1 when duration <= 0) |
| Regressors.Curve | tools/regressor_logic.py:34-71 | one value per date, each the signal of the event's shape at the elapsed days |
| Regressors.MaskedAssign | tools/regressor_logic.py:39 | a masked `df.loc` assignment: rows in the mask get the value, all other rows keep theirs |
| Regressors.WriteShape | tools/regressor_logic.py:36-71 | writing the shape's masked slices into a zeroed column leaves exactly the signal of every date |
| Regressors.WriteRamp | tools/regressor_logic.py:63-71 | the ramp's two masked writes (growth, then plateau) leave exactly the ramp value at every date |
| Regressors.FillColumn | tools/regressor_logic.py:20-71 | the zero-filled column after the event's writes equals the event's curve |
| Regressors.ApplyRegressors | tools/regressor_logic.py:4-75 | the copied frame gets one column per event in event order, and the returned names are the event column names |
| Regressors.WithRegressorsKeys | tools/regressor_logic.py:16-21 | the columns afterwards are the original ones plus exactly one per event |
| Regressors.WithRegressorsCurves | tools/regressor_logic.py:16-73 | the column of event i holds that event's curve over the frame's dates |
| Regressors.WithRegressorsKeepsOthers | tools/regressor_logic.py:10 | a column not named after an event is passed through unchanged |
| Regressors.WindowShape | tools/regressor_logic.py:36-39 | window is `impact` for 0 <= t <= duration and 0 otherwise |
| Regressors.StepIsPermanent | tools/regressor_logic.py:52-56 | step is `impact` for every t >= 0, ten years later as well, and 0 before the start |
| Regressors.RampShape | tools/regressor_logic.py:63-71 | with duration > 0: 0 before and at the start, `(t/duration)*impact` while growing, `impact` from `duration` on, and always between 0 and `impact` |
| Regressors.RampMidpoint | tools/regressor_logic.py:63-71 | halfway through an even-length ramp the value is half the impact; at twice the duration it is the full impact |
| Regressors.RampDegenerate | tools/regressor_logic.py:64-71 | with duration <= 0 the ramp is a plateau from t = duration: equal to step at 0, starting before the start date when negative |
| Regressors.DecayShape | tools/regressor_logic.py:41-50 | given exp(0) = 1: decay is `impact` at t = 0, `impact*exp(-3)` at t = duration, and 0 before the start and after the duration |
| Regressors.DecayFormula | tools/regressor_logic.py:41-50 | decay is `impact*exp(-t/tau)` on [0, duration], tau = duration/3 or 1, and 0 elsewhere |
| Regressors.UnknownTypeIsZero | tools/regressor_logic.py:21 | an event of an unrecognised type still yields a column, and it is all zeros |
| Regressors.ZeroBeforeStart | tools/regressor_logic.py:34-71 | every shape (a ramp with non-negative duration included) is 0 before the event's start |
| Forecast.KeptPairs | tools/run_forecast.py:11-13 | only pairs where neither value is NaN are kept |
| Forecast.AbsErrors | tools/run_forecast.py:28 | the i-th entry is the absolute error of pair i |
| Forecast.PercentErrors | tools/run_forecast.py:21-22 | empty exactly when every actual value is 0 |
| Forecast.PairMetrics | tools/run_forecast.py:15-30 | no pairs gives all-zero metrics; MAE is never negative |
| Forecast.CalculateMetrics | tools/run_forecast.py:8-30 | no kept pairs gives `(0, 0, 0)`; MAE is never negative and MAE times the number of kept pairs is the sum of absolute errors; MAPE is NaN exactly when pairs remain and every actual is 0; with pairs left, RMSE is `sqrt(m)` for the `m` whose product with the pair count is the sum of squared errors |
| Forecast.Mae | tools/run_forecast.py:28 | the mean absolute error is never negative |
| Forecast.MeanNonNegative | tools/run_forecast.py:22-28 | the mean of non-negative errors is non-negative, and 0 exactly when every error is 0 |
| Forecast.PairMaeMeaning | tools/run_forecast.py:28 | with pairs left, the reported MAE times their number is the sum of the absolute errors |
| Forecast.PairRmseMeaning | tools/run_forecast.py:25 | with pairs left, the reported RMSE is the square root of their mean squared error |
| Forecast.MaeIsMeanAbsError | tools/run_forecast.py:28 | MAE times the pair count is the sum of absolute errors |
| Forecast.MapeIsMeanPercentError | tools/run_forecast.py:21-22 | MAPE times the number of non-zero actuals is 100 times the sum of relative errors over those actuals |
| Forecast.MapeNanIff | tools/run_forecast.py:15-22 | MAPE is NaN exactly when pairs remain but every actual is 0 |
| Forecast.MaeZeroIffExact | tools/run_forecast.py:28 | MAE is 0 exactly when every prediction equals its actual |
| Forecast.NanPairIgnored | tools/run_forecast.py:11-13 | appending a pair with a NaN on either side changes none of the metrics |
| Forecast.MetricsExample | tools/run_forecast.py:8-30 | actuals [100,100,100] against [110,90,100] give MAE 20/3, MAPE 20/3 and RMSE sqrt(200/3) |
| Forecast.SplitEvents | tools/run_forecast.py:83-93 | the loop builds exactly the fit and override lists |
| Forecast.SplitPartition | tools/run_forecast.py:83-93 | every event lands in exactly one list (multiset union); overrides are exactly the events starting after the last history date |
| Forecast.SplitKeepsOrder | tools/run_forecast.py:83-93 | both lists keep input order: splitting a concatenation concatenates the splits |
| Forecast.Multiplier | tools/run_forecast.py:146 | the multiplier is `1 + signal` elementwise |
| Forecast.Times | tools/run_forecast.py:147-149 | elementwise product |
| Forecast.ScaledIsProduct | tools/run_forecast.py:121-167 | multiplying in per-event factor columns one after the other leaves each value times the product of its date's factors, whatever the factors |
| Forecast.ImposedIsProduct | tools/run_forecast.py:121-167 | after all overrides each row is the original value times the product of every `(1 + s_k)` |
| Forecast.GainBeforeStarts | tools/run_forecast.py:121-167 | on a date before every override's start (ramps with non-negative duration) the product of multipliers is 1 |
| Forecast.HistoryRowsUnchanged | tools/run_forecast.py:124 | rows dated no later than the last history date are unchanged by the overrides |
| Forecast.OverrideMultiplier | tools/run_forecast.py:124-146 | the curve that `apply_regressors` builds on a scratch frame of the timeline, plus 1, is the event's factor on every date |
| Forecast.ImposedSnoc | tools/run_forecast.py:121-167 | one more override event multiplies the imposed column by that event's factor column |
| Forecast.MultiplyInPlace | tools/run_forecast.py:147-149 | `*=` on an array leaves the elementwise product of the old values and the multiplier |
| Forecast.ImposeOverrides | tools/run_forecast.py:121-169 | the three columns each end as the imposed product, whatever the seasonality mode; the names returned are those of the overrides in order |
| Forecast.BuildDataCheck | tools/run_forecast.py:179-193 | one entry per fit column, holding the non-zero counts and maxima of its history and timeline values |
| Forecast.CurveAppend | tools/regressor_logic.py:34-71 | a curve over a concatenated timeline is the concatenation of the curves |
| Forecast.FutureCoversHistory | tools/run_forecast.py:181-186 | since the timeline extends the history, its non-zero count is at least the history's, and its maximum is no smaller |
| Forecast.AbsAll | tools/run_forecast.py:208 | elementwise absolute value, never negative |
| Forecast.BuildDiagnostics | tools/run_forecast.py:206-214 | the loop yields exactly the diagnostics list |
| Forecast.DiagnosticsCover | tools/run_forecast.py:206-214 | every diagnostic names a fit column present in the prediction, with non-negative total impact, and every such column has one |
| Forecast.FutureValues | tools/run_forecast.py:224-225 | no history means no future values; never more values than dates |
| Forecast.FutureValuesIgnoreHistory | tools/run_forecast.py:224-225 | `forecast_mean` depends only on rows dated after the history end |
| Forecast.FutureValuesCount | tools/run_forecast.py:224-225 | when every row is after the history end, all rows are used |
| Forecast.Minus | tools/run_forecast.py:227 | defined exactly when both means are, and then `delta_abs + hist_mean = forecast_mean` |
| Forecast.DeltaPerc | tools/run_forecast.py:228 | 0 when the history mean is 0, otherwise `delta_perc * hist_mean = 100 * delta_abs`; NaN exactly when a mean involved is NaN |
| Forecast.ImposedPrediction | tools/run_forecast.py:121-167 | imposing overrides keeps the dates and the component columns |
| Forecast.ImposeOnPrediction | tools/run_forecast.py:116-169 | the in-place override loop on the prediction's columns equals the imposed prediction, and lists the override names in order |
| Forecast.DataCheckAt | tools/run_forecast.py:179-193 | the data-check entry of fit event i describes that event's curves over history and timeline |
| Forecast.DataCheckOfFit | tools/run_forecast.py:179-193 | the same for every fit event at once |
| Forecast.FitColumnsPresent | tools/run_forecast.py:96-109 | every fit column exists in both the history and the timeline frame |
| Forecast.ExecuteForecast | tools/run_forecast.py:32-243 | the run's forecast is the model's prediction with the overrides imposed; `overrides`, `data_check` and the diagnostics are as above; a coefficient failure is recorded as `coeff_error` without aborting; the metrics are those of the final forecast |
| ChatActions.NameMatching | tools/chat_actions.py:38-39 | names match exactly when their lower-cased, stripped forms are equal; matching is symmetric and ignores case and surrounding space |
| ChatActions.ApplyFields | tools/chat_actions.py:54-57 | an update never touches the name, category or notes |
| ChatActions.ApplyFieldsOk | tools/chat_actions.py:55-58 | a run of assignments completes exactly when no field in it fails to convert |
| ChatActions.OrdersOkIffConvertible | tools/chat_actions.py:55-76 | both the update and the add order complete exactly when the date, impact and duration all convert |
| ChatActions.ApplyFieldsWhenConvertible | tools/chat_actions.py:54-57 | when every supplied field converts, update and upsert give the same event, whose supplied fields are replaced and all others kept |
| ChatActions.FirstMatch | tools/chat_actions.py:52-53 | the index of the first event whose name matches, or none when no name matches |
| ChatActions.FindFirstMatch | tools/chat_actions.py:69 | the scan returns the first matching index |
| ChatActions.FirstMatchIs | tools/chat_actions.py:52-53 | a matching index with no earlier match is the first match |
| ChatActions.WithoutMatches | tools/chat_actions.py:44 | keeps exactly the events whose name does not match |
| ChatActions.WithoutMatchesShorter | tools/chat_actions.py:43-46 | the filtered list is shorter exactly when some event matched |
| ChatActions.WithoutMatchesAppend | tools/chat_actions.py:44 | the filter keeps order: filtering a concatenation concatenates the results |
| ChatActions.ApplySuggestion | tools/chat_actions.py:33-94 | handling one suggestion gives the new list and whether it counted, as the per-item rules define |
| ChatActions.ReplayPrefix | tools/chat_actions.py:32 | suggestions are handled in order: later ones do not change what the earlier ones produced |
| ChatActions.ApplyAll | tools/chat_actions.py:32-94 | at most one change is counted per suggestion |
| ChatActions.ApplyEach | tools/chat_actions.py:30-94 | the loop over suggestions folds the per-item rule over the copied list |
| ChatActions.ApplyAllSnoc | tools/chat_actions.py:32-94 | one more suggestion applies the per-item rule to the list so far and counts at most one more change |
| ChatActions.ChatSession.constructor | tools/chat_actions.py:28 | the session state as given |
| ChatActions.ChatSession.HandleChatActions | tools/chat_actions.py:28-103 | with a positive count the events are replaced, the editor key incremented and a forecast run triggered; otherwise the events (an empty list when absent) and the other state are kept |
| ChatActions.RemoveDeletesMatches | tools/chat_actions.py:42-47 | remove keeps exactly the non-matching events and counts exactly when something matched |
| ChatActions.UpdateChangesFirstMatchOnly | tools/chat_actions.py:50-62 | update of an existing name keeps the list length and every other event; the first match becomes the result of the assignments in update order (stopping at a failed conversion, keeping earlier writes), which keep name, category and notes; it counts exactly when every conversion succeeds, and then exactly the supplied fields are replaced |
| ChatActions.UpdateWithoutMatchIsAdd | tools/chat_actions.py:61-64 | update with no match behaves as add |
| ChatActions.AddExistingUpdates | tools/chat_actions.py:67-77 | add/create of an existing name updates its first match in place instead of adding a duplicate, and counts exactly when every conversion succeeds |
| ChatActions.CreateAppends | tools/chat_actions.py:78-91 | with no match a new event is appended only when a date is given, defaulting to step, 30 days and impact 0.0 |
| ChatActions.UnknownActionIgnored | tools/chat_actions.py:67 | an unrecognised action changes nothing and counts nothing |
| ChatActions.UpdatePartialOnError | tools/chat_actions.py:54-57 | a conversion failure in update keeps the fields already written and does not count |
| Presets.Round3 | tools/preset_generator.py:55 | the result is within half a thousandth of x, has at most three decimals, and a tie rounds to even |
| Presets.Round3Exact | tools/preset_generator.py:55 | a value with three decimals is unchanged |
| Presets.GetTemplateData | tools/preset_generator.py:52-56 | an unknown key uses `content_publication`; type, duration and category are copied and the impact is `round(base*multiplier, 3)` |
| Presets.TemplateAtUnitMultiplier | tools/preset_generator.py:52-56 | at multiplier 1 the table entry comes back as it is (the table is not mutated) |
| Presets.UnknownKeyFallsBack | tools/preset_generator.py:54 | an unknown key gives exactly the `content_publication` template |
| Presets.SetupEvents | tools/preset_generator.py:71-119 | lite yields 1 event, full 2 and strategy 3, all on the contract start; any other mode yields none |
| Presets.StrategyInitialPlan | tools/preset_generator.py:117-119 | the strategy plan is a 60-day ramp of impact 0.045, three articles' worth |
| Presets.ContentMonth | tools/preset_generator.py:133-168 | a publication ramp only with positive quantity (impact `round(0.015*q, 3)`), and an optimisation step only in an update month |
| Presets.LinksMonth | tools/preset_generator.py:178-190 | a 90-day link ramp of impact `round(0.03*q, 3)` only with a positive quantity |
| Presets.TechMonth | tools/preset_generator.py:200-204 | an event only in care mode and on months divisible by 3 |
| Presets.OnPageMonth | tools/preset_generator.py:215-217 | one content-update step per month |
| Presets.LocalMonth | tools/preset_generator.py:228-233 | one step per month with impact 0.05 and category "local" |
| Presets.FirstMonthIsStart | tools/preset_generator.py:67-68 | month 1 is the contract start itself |
| Presets.PackageMonths | tools/preset_generator.py:125-128 | the months from the range start to min(range end, contract months), consecutively |
| Presets.PackageMonthsCover | tools/preset_generator.py:125-128 | a month is visited exactly when it lies in the range and within the contract |
| Presets.PackageMonthsAscending | tools/preset_generator.py:128 | months are visited in ascending order |
| Presets.TechPackageShape | tools/preset_generator.py:200-211 | every tech event comes from care mode, on a visited month divisible by 3 |
| Presets.BasicContentShape | tools/preset_generator.py:155-156 | in basic mode optimisation steps fall only on months divisible by 3, and ramps only with positive quantity |
| Presets.RichContentEveryMonth | tools/preset_generator.py:157-158 | plus/authority add an optimisation on every month (two events a month with positive quantity) |
| Presets.LocalPackageShape | tools/preset_generator.py:227-240 | every local event has impact 0.05, category "local", a step of one day |
| Presets.InactivePackageIsEmpty | tools/preset_generator.py:124 | a missing, empty or 'none' mode emits nothing |
| Presets.HandleMonth | tools/preset_generator.py:133-233 | the handler appends exactly that month's events |
| Presets.RunMonths | tools/preset_generator.py:128-130 | the month loop appends the months' events in order |
| Presets.ProcessMonthlyPackage | tools/preset_generator.py:123-130 | the package appends exactly its events, none for an inactive mode |
| Presets.ExtraEvents | tools/preset_generator.py:245-260 | migration is a step of -0.10, revamp a step of 3x the content update (0.24), campaign a 30-day window of 0.15 named 'Brand Campaign' by default; others yield none |
| Presets.AppendSetup | tools/preset_generator.py:70-119 | the setup block appends exactly the setup events |
| Presets.AppendExtras | tools/preset_generator.py:243-260 | the extras loop appends each extra's events in order |
| Presets.GenerateProspectingEvents | tools/preset_generator.py:58-262 | the output is setup, content, links, tech, on-page, local, then extras |
| Presets.AppFormHasNoContentOrLinks | tools/preset_generator.py:170-197 | a form without `content_mode`/`link_mode` (as the proposal form builds it) yields no content or link events |
| Ingest.MissingColumns | tools/ingest_data.py:9-10 | exactly the required columns that are absent |
| Ingest.FirstUnparsable | tools/ingest_data.py:16-19 | the first row whose date does not parse, or none when all parse |
| Ingest.ValidateGscData | tools/ingest_data.py:5-35 | missing columns or a bad date give the error; otherwise the rows are merged by date (strictly ascending, same dates, each date's clicks summed, total preserved) and it is a warning exactly when fewer than 60 rows remain |
| Ingest.MissingColumnsMessage | tools/ingest_data.py:10-13 | the error names exactly the missing columns, in required order |
| Ingest.DistinctRowsOnlyReordered | tools/ingest_data.py:22-25 | without duplicate dates the data is just re-sorted |
| Ingest.MergedLength | tools/ingest_data.py:22-23 | merging never adds rows and keeps all of them when the dates are distinct |
| Ingest.MissingOf | tools/ingest_data.py:54-63 | exactly the required template or event columns that are absent |
| Ingest.TemplateIndex | tools/ingest_data.py:69-74 | the first template row with the name, or none |
| Ingest.FindTemplate | tools/ingest_data.py:69-74 | the first matching template row is the one used |
| Ingest.MergeEvent | tools/ingest_data.py:76-92 | custom duration/impact replace the defaults unless missing; type and category always come from the template |
| Ingest.FirstOrphan | tools/ingest_data.py:68-72 | the first event row without a template, or none |
| Ingest.MergedEvents | tools/ingest_data.py:68-92 | one event per event row |
| Ingest.ParseRegressors | tools/ingest_data.py:37-94 | the loop returns the same result as the specification of the parse |
| Ingest.FirstOrphanAt | tools/ingest_data.py:68-72 | an orphan row with none before it is the first orphan |
| Ingest.StructureErrorsIgnoreRows | tools/ingest_data.py:47-63 | a missing sheet or column is an error before any event row is looked at |
| Ingest.OrphanAborts | tools/ingest_data.py:69-72 | the first row without a template aborts with the message naming it |
| Ingest.ParsedEventsInRowOrder | tools/ingest_data.py:68-92 | on success event i is row i merged with the first template of its type |
| Grouping.GroupSum | tools/ingest_data.py:23 | group-by-sum: strictly sorted keys, the same keys, each key's values summed, total preserved |
| Grouping.GroupSumDistinct | tools/ingest_data.py:22-25 | with distinct keys group-by-sum is a permutation |
| Grouping.OuterJoin | tools/scenario_analysis.py:52 | sorted union of both key sets, each side's sum or 0 when missing |
| ScenarioAnalysis.FutureByPeriodTotal | tools/scenario_analysis.py:21-29 | the per-period sums add up to the sum over future rows |
| ScenarioAnalysis.PeriodTotals | tools/scenario_analysis.py:24-29 | periods come out in ascending order |
| ScenarioAnalysis.DeltaPct | tools/scenario_analysis.py:60 | `Delta% * B = S - B` when B > 0, else 0 |
| ScenarioAnalysis.RowsOf | tools/scenario_analysis.py:57-64 | each row holds scenario, baseline, difference and guarded percentage of its period |
| ScenarioAnalysis.BaselineTotals | tools/scenario_analysis.py:35-41 | the baseline's periods are ascending |
| ScenarioAnalysis.ComparisonTable | tools/scenario_analysis.py:51-64 | strictly ascending periods forming the union of scenario and baseline periods (future rows only), 0 when missing, with Delta and Delta% per row |
| ScenarioAnalysis.ScenarioComparison | tools/scenario_analysis.py:4-83 | none exactly for a missing or empty forecast; otherwise the monthly and quarterly tables |
| ScenarioAnalysis.JoinLeftTotal | tools/scenario_analysis.py:52-57 | the joined scenario column sums to the scenario total |
| ScenarioAnalysis.ScenarioColumnTotal | tools/scenario_analysis.py:51-64 | the Scenario column adds up to the total future `yhat` |
| ScenarioAnalysis.NoBaselineRows | tools/scenario_analysis.py:53-57 | with no baseline the periods are the scenario's and Baseline, Delta% are 0, Delta = Scenario |
| ScenarioAnalysis.ScopeOf | tools/scenario_analysis.py:105-121 | a quarter scope exactly when the target contains 'Q' and parses; else the total future |
| ScenarioAnalysis.ScopedIgnoresOutside | tools/scenario_analysis.py:118-124 | a row outside the scope does not contribute |
| ScenarioAnalysis.AnalyzeRegressorImpacts | tools/scenario_analysis.py:85-155 | the loop over events builds the impact table of the specification |
| ScenarioAnalysis.ImpactRowsAppend | tools/scenario_analysis.py:134-152 | rows follow event order |
| ScenarioAnalysis.ImpactRowOfEvent | tools/scenario_analysis.py:134-152 | an event named like a forecast column gives one row with the truncated scoped sum; any other event gives none |
| ScenarioAnalysis.ImpactRowsFromColumns | tools/scenario_analysis.py:139 | every reported event is a forecast column, at most one row per event |
| ScenarioAnalysis.FutureDates | tools/scenario_analysis.py:178-180 | only dates after today, empty exactly when none is |
| ScenarioAnalysis.Matched | tools/scenario_analysis.py:216-219 | empty exactly when no history date falls in the shifted window |
| ScenarioAnalysis.YoyOfMeans | tools/scenario_analysis.py:223-238 | "error" exactly when the matched mean is 0; otherwise `delta_abs = mean_f - mean_h` and `delta_pct * mean_h = delta_abs`, a fraction |
| ScenarioAnalysis.YoyOfWindow | tools/scenario_analysis.py:183-238 | "Mancano dati storici iniziali" exactly when history starts after `start_f - 1y`, "finali" exactly when it ends before `end_f - 1y`; "Nessun dato storico nel periodo" exactly when coverage holds but no history date falls in the shifted window; otherwise the result is the comparison of the mean future `yhat` with the mean clicks of the window shifted back one year, labelled with the first and last future dates |
| ScenarioAnalysis.TotalYoy | tools/scenario_analysis.py:171-238 | "no_forecast" exactly for an empty forecast or one without future rows (given history); plain insufficient history exactly for a missing history; with forecast, history and future rows, the window comparison of `YoyOfWindow` |
| Projects.Sanitize | tools/project_manager.py:18 | never longer than the input |
| Projects.SanitizedShape | tools/project_manager.py:18 | only alphanumerics, space, `_` and `-`, with no surrounding whitespace |
| Projects.SanitizeIdempotent | tools/project_manager.py:18 | sanitising twice changes nothing |
| Projects.SortNewestFirst | tools/project_manager.py:95 | a permutation of the entries |
| Projects.SortNewestFirstSorted | tools/project_manager.py:95 | descending by `created_at` |
| Projects.WithoutId | tools/project_manager.py:124 | keeps exactly the entries with another id |
| Projects.FindId | tools/project_manager.py:113 | an entry with the id, or none when no entry has it |
| Projects.WithoutIdLength | tools/project_manager.py:113-124 | the list shrinks exactly when some entry has the id, and is unchanged otherwise |
| Projects.SavedForecast | tools/project_manager.py:44-49 | the saved frame keeps `ds` and whichever of the three prediction columns exist |
| Projects.SafeScenarioName | tools/project_manager.py:36-37 | never empty: "scenario" replaces an empty sanitised name |
| Projects.NewEntry | tools/project_manager.py:39-77 | id `ts_safe`, file `id.csv`, the unsanitised name, the event count and names in order, the metrics' total when given |
| Projects.LoadScenarios | tools/project_manager.py:86-97 | newest first, a permutation of the index (empty when missing or unreadable) |
| Projects.ProjectStore.constructor | tools/project_manager.py:6-10 | an empty store |
| Projects.ProjectStore.CreateNewProject | tools/project_manager.py:16-26 | "Nome non valido" for an empty sanitised name, "Progetto esistente" when it exists, otherwise a new empty project and the sanitised name |
| Projects.ProjectStore.SaveScenario | tools/project_manager.py:28-84 | a missing project writes nothing; otherwise the CSV is stored and the entry appended last to the index (an unreadable one counts as empty) |
| Projects.ProjectStore.DeleteScenario | tools/project_manager.py:108-128 | True exactly when the loaded index has the id; then its file is removed and the index rewritten without that id; otherwise nothing changes |
| Projects.SaveAppendsLast | tools/project_manager.py:79 | the saved index is the old one with the new entry last |
| Projects.DeleteRemovesExactly | tools/project_manager.py:124 | the rewritten index has no entry with the id and every other entry |
| ParamAdvisor.SortByDate | tools/param_advisor.py:23 | a permutation of the rows |
| ParamAdvisor.SortByDateSorted | tools/param_advisor.py:23 | ascending by date |
| ParamAdvisor.SpanOfAscending | tools/param_advisor.py:28 | on sorted rows the span is last date minus first date |
| ParamAdvisor.DivExceeds | tools/param_advisor.py:54-57 | the ratio test with float division: none is never above, x/0 is above exactly when x > 0 |
| ParamAdvisor.GrowthMeansRise | tools/param_advisor.py:41-57 | growth detected implies the second half's mean exceeds 1.5 times the first's; one row never detects growth |
| ParamAdvisor.Diffs | tools/param_advisor.py:76 | the absolute consecutive differences |
| ParamAdvisor.Volatility | tools/param_advisor.py:77 | 0 when the mean is <= 0; otherwise NaN exactly for one row, and `volatility * mean = mean(diffs)` |
| ParamAdvisor.Weekday | tools/param_advisor.py:63 | a weekday in 0..6 |
| ParamAdvisor.WeeklySpread | tools/param_advisor.py:64-65 | the range of weekday means is never negative |
| ParamAdvisor.ScaleFor | tools/param_advisor.py:79-84 | 0.1 exactly above 0.5, 0.01 exactly below 0.1, 0.05 otherwise (NaN included) |
| ParamAdvisor.YearlyRule | tools/param_advisor.py:28-34 | under 180 days yearly off, over 370 on, each with its reason, otherwise unchanged |
| ParamAdvisor.ModeRule | tools/param_advisor.py:41-59 | multiplicative with its reason exactly when growth is detected, otherwise unchanged |
| ParamAdvisor.WeeklyRule | tools/param_advisor.py:63-70 | weekly set to whether the weekday spread exceeds 0.2 of the mean, always with one reason |
| ParamAdvisor.ScaleRule | tools/param_advisor.py:76-84 | scale 0.1 or 0.01 with its reason, or unchanged |
| ParamAdvisor.ApplyRules | tools/param_advisor.py:31-84 | on date-sorted rows, each setting is its rule's decision and the reasons are the rules' messages in rule order |
| ParamAdvisor.AnalyzeGscDataHeuristics | tools/param_advisor.py:5-86 | defaults for no data; range always 0.8; each setting is decided by its rule on the date-sorted rows; the reasons are each rule's own message in rule order: yearly (if it fired), mode (if growth), weekly or not weekly, scale (if changed) |
| ParamAdvisor.FlatHistoryIsSteady | tools/param_advisor.py:76-84 | a constant positive series has volatility 0 and gets scale 0.01 |
| ParamAdvisor.SingleWeekdayIsNotWeekly | tools/param_advisor.py:63-70 | data from one weekday only has zero spread and never gives weekly seasonality |

## Left out

- The Streamlit UI (`app.py`), the chatbot and report generator: prompt
  texts, network calls and session-state widgets.
  `ChatActions.ChatSession` keeps only the three session keys the merge
  touches.
- The forecasting model itself. It enters as an already fitted black box,
  a `Prophet` value holding three functions: the future timeline
  (`make_future_dataframe`), prediction and the coefficient table. The model
  does not depend on the history or on the fit regressor columns it would
  be trained on. Registering regressors with the model is not modelled.
- The fit (`m.fit(df_with_reg)`, `tools/run_forecast.py:103`) is not
  modelled. It runs without an exception handler, so in the code a failing
  fit aborts `execute_forecast`; the model has no such failure path.
- The model's constructor and the configuration it reads with defaults
  (`seasonality_mode`, `yearly_seasonality`, `weekly_seasonality`,
  `daily_seasonality`, `changepoint_prior_scale`, `seasonality_prior_scale`,
  `changepoint_range`; `tools/run_forecast.py:65-73`) are not modelled.
- Floating point. Values are exact reals. `exp`, `sqrt` and `std` are
  parameters; only `exp(0) = 1` is assumed where needed.
  `Presets.Round3` rounds the exact value, not the binary double.
  NaN is `None`.
- Date parsing, `relativedelta`, `DateOffset(years=1)`, pandas periods and
  their string labels, and `pd.Period` parsing of a quarter. These are
  parameters over day numbers. "Now"/"today" are day numbers compared
  strictly, so a time of day is not modelled. `ParamAdvisor.Weekday` takes
  day 0 as a Thursday (1970-01-01), with Monday as weekday 0.
- Unicode, in `str.isalnum`, `str.lower` and `str.isspace`: only ASCII is
  modelled.
- The JSON extraction by regular expression and `json.loads` in
  `tools/chat_actions.py:10-19`, the confirmation button, the warnings and
  the rerun. A suggestion field is either absent, convertible or not
  convertible; conversion itself (`pd.to_datetime`, `float`, `int`) is
  not modelled.
- Excel and CSV reading. Custom workbook cells are a number, missing or
  empty. In `tools/ingest_data.py:17` the date conversion writes into the
  caller's frame; that side effect is not modelled.
- `ensure_projects_dir`, `get_all_projects`, `load_scenario_df` and the
  `index.json`/CSV encodings. The file system is a map of projects to files
  and an index, and those helpers only wrap directory listing and file
  reading. Errors from `os.remove` are swallowed in the source and are not
  modelled.
- Projects.ProjectStore.SaveScenario: requires that the metrics give
  `forecast_total` or that the forecast has `yhat`. Without either, the
  source raises a `KeyError`; the model excludes that case rather than
  modelling the exception. A `None` metrics dict is an empty map.
- ParamAdvisor.SortByDate: pandas' default `sort_values` is not stable.
  The model sorts stably, so rows with equal dates keep their input order.
  Wherever a date repeats, that order can change the decisions. The
  volatility uses the differences between consecutive clicks, and the two
  half means and stds depend on which rows fall in each half. For example,
  16 rows dated 0..15 with 10 clicks and a second row dated 15 with 0 clicks
  end `10, 10, 0` in the stable order, with volatility below 0.1 (scale
  0.01). An unstable sort may end `10, 0, 10`, which doubles the sum of
  differences and keeps the scale at 0.05.
- ParamAdvisor.AnalyzeGscDataHeuristics: the ratios `cv1`/`cv2`
  (`tools/param_advisor.py:46-47`) are computed but never used, and are
  left out. The model does not prove that the decisions are invariant
  under scaling the clicks.
- ScenarioAnalysis.TotalYoy: the choice between `date`/`clicks` and
  `ds`/`y` history columns (`tools/scenario_analysis.py:192-193`) is made by
  the caller; the history is given as date and click pairs.
- Forecast.CalculateMetrics: when pairs remain but every actual value is 0,
  the code's MAPE is the mean of an empty array (NaN, modelled as `None`)
  rather than 0, and the model follows the code.
- The proposal form in `app.py:613-620` sends `content_enabled` and
  `link_enabled`, while the generator reads `content_mode` and `link_mode`.
  The model follows the generator; `Presets.AppFormHasNoContentOrLinks`
  states the consequence.
