# Fuel-subsidy anomaly scoring and refund engine — a Dafny model

This project models a fuel-subsidy analytics system for commercial vehicles. The system has three parts:

- **Aggregator.** It joins a vehicle profile table with daily tachograph (DTG) telemetry and fuel-card transactions. The result is one summary row per vehicle.
- **Rules engine.** It derives five groups of fraud indicators for each vehicle:
  - expected fuel and its bounds;
  - the over-tank flag and count;
  - the busiest day's refuel count;
  - the fuel ratio and the over/under deviations;
  - station concentration, with a sample-size correction.

  These become five capped sub-scores. The total is clipped to [0,100] and rounded, then mapped to a four-level tier and an ordered `|`-joined reason string. The report keeps a fixed list of output columns and is sorted by descending risk, then ascending vehicle id.
- **Refund engine.** It recomputes expected fuel and applies a pass/fail gate, which is absolute or ratio-based. It then looks up a per-vehicle litre cap in one of three modes and pays `min(actual, cap)` times a unit price, rounded to a whole amount, only when the gate passes. A bad cap configuration stops the run with an error.

Everything is a pure function over immutable datatypes:

- A pandas NaN is `Option.None`, and `fillna(0)` is `GetOr(0.0)`.
- Group-by aggregation is a recursive fold over a sequence.
- A left merge maps over the profile rows.
- Quantities are `real`. numpy's `round` is modelled exactly on the reals as round-half-to-even.

| file | module | what it holds |
|---|---|---|
| wrappers.dfy | `Wrappers` | `Option`, `Result` |
| numeric.dfy | `Numeric` | clip, round-half-even, two-decimal rounding, small real-arithmetic lemmas |
| records.dfy | `Records` | profile, telemetry and transaction records; id lookup |
| aggregation.dfy | `Aggregation` | per-vehicle telemetry and fuel folds; the joined summary |
| indicators.dfy | `Indicators` | rule parameters and the five indicator groups |
| scoring.dfy | `Scoring` | sub-scores, risk score, tier, reason tags and the reason string |
| risk_report.dfy | `RiskReport` | rules over the whole summary, column filter, report ordering |
| refund.dfy | `Refund` | expected fuel, gate, cap, refund, and the composed run |

The rules exist twice in the source: as the function `apply_baseline_rules` and inlined in the script `anomaly_pipeline.py`. The two agree line for line. Both are modelled by one parameterised `Indicators.ComputeIndicators` (tolerance, station baseline, smoothing constant k). The script's constants 0.10, 0.60 and 6 are `Indicators.DefaultRules`.

Behaviour of the code worth noting:

- **Expected fuel.** `total_distance_km / avg_eff_km_per_l` is 0 when the distance is 0 (every vehicle without telemetry) or the efficiency is 0 or unparseable. A negative efficiency gives a negative expected fuel; nothing requires it to be positive.
- **Ratio of exactly 1.50.** The ramp gives `score_fuel_over` exactly 30 there; only a ratio strictly above 1.50 scores 40, so the score jumps from 30 to 40 just past 1.50.
- **Night refuels and refuel count.** `night_refuel_cnt` sums the night flag over every transaction. `refuel_cnt` counts only transactions with a non-null `transaction_id`. So the night count can exceed the refuel count; `Aggregation.NightAtMostRefuels` states when it cannot.
- **Drive and idle totals.** These are not zero-filled after the join. A vehicle without telemetry has them missing (`None`), while its distance is 0.
- **Station shares.** The denominator counts only purchases with a station id. The sample-size weight uses `refuel_cnt`.

## Model

| member | source | states |
|---|---|---|
| Records.FindProfile | rules_baseline.py:24-26 | the capacity lookup finds a row carrying the vehicle's id, or reports that no row has it |
| Records.FindProfileOwnRow | rules_baseline.py:24-26 | with unique profile ids, each vehicle's lookup returns its own profile row |
| Aggregation.GroupTelemetry | pipeline.py:15-20 | the telemetry groups are exactly the vehicles with telemetry rows; each holds the NaN-skipping sums of distance, drive time and idle time over that vehicle's rows |
| Aggregation.TelemetryTotalWithoutRows | pipeline.py:15-20 | a vehicle with no telemetry rows sums to 0 on every measure |
| Aggregation.GroupFuel | pipeline.py:22-35 | the fuel groups are exactly the vehicles with transactions; each holds the coerced litre sum, the count of non-null transaction ids and the night count |
| Aggregation.FuelWithoutRows | pipeline.py:27-35 | a vehicle with no transactions has 0 litres and every count 0 |
| Aggregation.CountTxAtMostRows | pipeline.py:33-34 | each transaction count is at most the vehicle's number of transactions |
| Aggregation.NightAtMostRefuels | pipeline.py:28-34 | when all of a vehicle's transactions have ids, its night count is at most its refuel count |
| Aggregation.BuildSummary | pipeline.py:37-49 | one summary row per profile row, in order, carrying that profile; distance, fuel and counts equal the vehicle's sums and counts, defaulting to 0; drive and idle totals are present exactly when the vehicle has telemetry; unique profile ids give unique summary ids |
| Aggregation.IdleVehicleDefaults | pipeline.py:42-47 | a vehicle with neither telemetry nor transactions gets distance 0, fuel 0 and both counts 0, with drive and idle missing |
| Indicators.ExpectedFuel | rules_baseline.py:13-15 | expected fuel is 0 when the efficiency is 0 or missing; otherwise expected times efficiency equals distance; it is non-negative for a non-negative distance and positive efficiency |
| Indicators.ExpectedBounds | rules_baseline.py:16-17 | the bounds are symmetric about the expected fuel with half-width tolerance times expected; they enclose it, and the low bound is non-negative for a tolerance at most 1 |
| Indicators.OverTankCountPositive | rules_baseline.py:28-31 | the over-tank count is positive exactly when some purchase of the vehicle exceeds a known capacity |
| Indicators.OverTankIndicator | rules_baseline.py:19-37 | the flag holds iff the count is positive, iff the capacity column exists and some purchase strictly exceeds the vehicle's known capacity; without the column both are false/0 |
| Indicators.GroupSizeAtMostKeyed | rules_baseline.py:40-46 | one day's (or one station's) purchase count is at most the vehicle's purchases with a parsed date (or a station id) |
| Indicators.MaxGroupSize | rules_baseline.py:40-47 | the maximum is at least every group's size and is attained by some group; it is 0 exactly when the vehicle has no keyed purchases |
| Indicators.MaxDailyAtMostRefuels | rules_baseline.py:40-47 | the busiest day never has more purchases than the vehicle has transactions |
| Indicators.StationMaxShare | rules_baseline.py:58-68 | the top station's share lies in [0,1]; it is 0 exactly when no purchase has a station id; share times the station-keyed total equals the top station's count |
| Indicators.SafeRatio | rules_baseline.py:50-51 | actual over expected, and 0 when expected is 0 |
| Indicators.UnderLiters | rules_baseline.py:54-55 | the under-fuel litres are forced to 0 when actual fuel is not positive; otherwise they are the larger of 0 and low minus actual |
| Indicators.SampleWeight | rules_baseline.py:70-71 | n/(n+k) lies in [0,1] and below 1 when k > 0; it is 0 exactly at n = 0; times n+k it gives back n |
| Indicators.SampleWeightMonotone | rules_baseline.py:70-71 | more purchases never decrease the weight |
| Indicators.OverLiters | rules_baseline.py:53 | the over-fuel litres are never negative, at least actual minus the upper bound, and either 0 or exactly that excess |
| Indicators.RawConcentration | rules_baseline.py:73 | the clipped excess share lies in [0,1]; it is 0 exactly when the share is at or below the baseline, 1 at full concentration, and between the two it is the linear ramp (share − baseline)/(1 − baseline) |
| Indicators.RawConcentrationMonotone | rules_baseline.py:73 | a larger top share never decreases the clipped concentration |
| Indicators.StationConcentration | rules_baseline.py:70-74 | the corrected concentration lies in [0,1] and below 1 when k > 0; it is 0 at or below the baseline and for a vehicle without refuels, and equals the sample weight at full concentration; in general it is the raw concentration times the sample weight |
| Indicators.StationConcentrationMonotoneInShare | rules_baseline.py:73-74 | for a fixed refuel count, a larger share never lowers the score |
| Indicators.StationConcentrationMonotoneInCount | rules_baseline.py:70-74 | for a fixed share, more refuels never lower the score |
| Indicators.ConcentrationTagNeedsNineRefuels | rules_baseline.py:70-74 | with k = 6, a concentration of at least 0.6 needs at least 9 refuels, so five purchases at one station cannot raise the concentration reason |
| Indicators.DefaultRuleExamples | anomaly_pipeline.py:67-72 | with the default constants, 1000 km at 10 km/L expects 100 L within [90,110], and five purchases at one station score 5/11, below 0.6 |
| Indicators.ComputeIndicators | rules_baseline.py:13-74 | all indicators of one vehicle, each tied to the function that defines it: expected fuel and its tolerance bounds; the over-tank flag iff the capacity column exists and some purchase exceeds the vehicle's capacity, with the count of such purchases; the busiest day's count as the maximum group size (at least every day's count, at most the transactions); the ratio relation actual = ratio × expected; the over and under litres against the bounds, under forced to 0 without positive fuel; the top station's share and its damped concentration, both in range |
| Scoring.OverTankScore | rules_baseline.py:77 | the score lies in [0,40]; it is at least 25 iff flagged, 40 iff flagged with 3 or more purchases, and 0 iff neither flag nor count |
| Scoring.OverTankScoreSteps | rules_baseline.py:77 | the flag adds exactly 25; each further over-tank purchase adds 5 up to the third and nothing after; one flagged purchase scores 30 |
| Scoring.DailyRefuelScore | rules_baseline.py:79-84 | the score is one of 0/10/20/30; 0 iff at most 2 purchases a day, 10 iff exactly 3, 20 iff exactly 4, 30 iff 5 or more |
| Scoring.DailyRefuelScoreMonotone | rules_baseline.py:79-84 | a busier day never scores lower |
| Scoring.FuelOverScore | rules_baseline.py:86-94 | the score is 0 iff the ratio is at most 1.10, 30 iff it is exactly 1.50, and 40 iff above 1.50 |
| Scoring.FuelOverScoreRamp | rules_baseline.py:87-93 | on (1.10, 1.50] the score grows by 75 points per unit of ratio |
| Scoring.FuelOverScoreMonotone | rules_baseline.py:86-94 | a larger ratio never scores lower, the jump included |
| Scoring.FuelUnderScore | rules_baseline.py:96-98 | the score lies in [0,10]; it is 0 without expected fuel; it is proportional to under/expected up to the cap and saturates at 10 |
| Scoring.StationScore | rules_baseline.py:100 | a concentration in [0,1] scores in [0,15], below 15 for a concentration below 1, and 0 exactly at concentration 0; full concentration scores 15 |
| Scoring.StationScoreLinear | rules_baseline.py:100 | the station score changes by 15 points per unit of concentration |
| Scoring.RoundScores | rules_baseline.py:110-114 | each published sub-score is its raw sub-score rounded to two decimals, within 0.005 of it |
| Numeric.Round2 | rules_baseline.py:108 | two-decimal rounding lands on a whole number of hundredths within 0.005 of its input |
| Scoring.RawScores | rules_baseline.py:77-100 | each sub-score lies in its band: 40, 30, 40, 10 and 15 |
| Scoring.RiskScore | rules_baseline.py:102-108 | the risk score lies in [0,100]; it is within 0.005 of the sum inside the range, and 100 or 0 when the sum is clipped |
| Scoring.TierOf | rules_baseline.py:116-123 | HIGH iff the score is at least 70, MEDIUM iff in [40,70), LOW iff in [20,40), NONE iff below 20 |
| Scoring.TierMonotone | rules_baseline.py:116-123 | a higher score never gets a lower tier |
| Scoring.CellsHoldApplying | rules_baseline.py:125-130 | each of the five reason cells holds its tag exactly when that tag's condition holds |
| Scoring.PresentRanked | rules_baseline.py:132-133 | dropping the empty reason cells keeps exactly the present tags, in rank order |
| Scoring.ReasonTags | rules_baseline.py:125-132 | the tags come in fixed order; each tag is present iff its condition holds (OVER_TANK iff flagged, MANY_REFUELS_PER_DAY iff at least 4 a day, FUEL_OVER_EXPECTED iff ratio above 1.10, STATION_CONCENTRATION iff concentration at least 0.6, FUEL_UNDER_EXPECTED iff positive under-fuel); there are none iff no condition holds |
| Scoring.SplitJoin | rules_baseline.py:133 | splitting the joined reason at `\|` gives back the tags |
| Scoring.JoinWellFormed | rules_baseline.py:133 | a joined reason has no leading, trailing or doubled separator |
| Scoring.Reason | rules_baseline.py:125-133 | the reason string is empty iff no tag applies, well formed, and splits into the tag texts in order |
| Scoring.Assess | rules_baseline.py:76-133 | the sub-scores are the rounded raw sub-scores of the indicators; the risk score is the clipped, rounded total of the raw sub-scores: within 0.005 of the total inside [0,100] and exactly 100 above it; the tier label is HIGH/MEDIUM/LOW/NONE by the 70/40/20 thresholds on that score; the reason is empty iff no tag applies and splits back into the tags |
| RiskReport.ApplyBaselineRules | rules_baseline.py:4-135 | one scored row per summary row, in order; each row's score is in range, its tier consistent, its concentration below 1 when k > 0, its under-fuel 0 when fuel is not positive, and its reason splits into its tags |
| RiskReport.ScoreVehicles | anomaly_pipeline.py:19-230 | one scored row per profile vehicle, carrying that profile and the vehicle's fuel sum and refuel count; each row's summary is the joined summary built from the profile, telemetry and transactions, its indicators are computed from that summary under the given rule parameters, and its assessment is that of those indicators |
| RiskReport.OverTankUsesOwnCapacity | anomaly_pipeline.py:78-91 | with unique ids, each vehicle's over-tank count is measured against its own profile capacity |
| RiskReport.QuietAssessment | anomaly_pipeline.py:160-227 | indicators with no purchase activity score 0 on the refuel, fuel-over, fuel-under and station rules and raise none of their reasons |
| RiskReport.NoFuelNoPurchaseSignals | anomaly_pipeline.py:42-62 | a vehicle with no transactions has fuel 0 and counts 0, and scores nothing on the purchase-driven rules: no over-tank flag, count or score, no refuel, fuel-deviation or station score, and none of the five reason tags |
| RiskReport.SelectColumns | anomaly_pipeline.py:235-244 | the kept columns are exactly those both listed and present, in listed order |
| RiskReport.StrLeTotal | anomaly_pipeline.py:246 | vehicle-id order is total |
| RiskReport.StrLeTransitive | anomaly_pipeline.py:246 | vehicle-id order is transitive |
| RiskReport.PrecedesTransitive | anomaly_pipeline.py:246 | the report order (risk descending, id ascending) is transitive |
| RiskReport.Insert | anomaly_pipeline.py:246 | inserting into a sorted report keeps it sorted and adds exactly that row |
| RiskReport.SortReport | anomaly_pipeline.py:246 | the sorted report is a permutation of the rows, ordered by descending risk and then ascending vehicle id |
| RiskReport.AnomalyReport | anomaly_pipeline.py:235-246 | the report has the listed columns that exist, in listed order; its rows are a sorted permutation of the scored vehicles, one per profile row, each with a score in [0,100] |
| Refund.ExpectedRowOf | refund_engine.py:39-53 | after the missing efficiency is coerced to 0, the refund engine's expected fuel agrees with the rules' expected fuel; its bounds are expected times 1 minus and 1 plus the tolerance |
| Refund.ComputeExpectedFuel | refund_engine.py:39-53 | a table lacking the efficiency or distance column is an error; otherwise one expected row per summary row |
| Refund.ApplyGate | refund_engine.py:80-101 | absolute gate: metric = actual − high, pass iff metric ≤ 0, else FAIL_FUEL_GT_EXPECTED_HIGH; ratio gate: metric is actual/expected, or 0 when expected is 0; pass iff metric ≤ threshold, else FAIL_RATIO_GT; passes without expected fuel when the threshold is non-negative; the reason is PASS iff pass |
| Refund.GateReasonText | refund_engine.py:94-98 | the reason text is never empty and is "PASS" exactly for a passing gate |
| Refund.GateStatusText | refund_engine.py:100 | the status is PASS iff the gate passes and FAIL otherwise |
| Refund.ApplyGateTable | refund_engine.py:86-101 | a table without actual fuel is an error; otherwise one gated row per input row |
| Refund.TonClassCode | refund_engine.py:68 | a missing ton class is −1; any other is truncated toward zero |
| Refund.CapConfigError | refund_engine.py:56-77 | fixed mode never fails; the ton-class mode fails on a missing or empty table, then on a missing ton_class column; the column mode fails iff its column is absent; any other mode fails |
| Refund.RowCap | refund_engine.py:60-75 | fixed gives the fixed cap; the ton-class mode gives the table entry for the class code, or the fixed cap when the class is absent; the column mode gives the column's value, or 0 when unparseable |
| Refund.ComputeCapL | refund_engine.py:56-77 | the cap column fails exactly on a configuration error; otherwise it gives one cap per row |
| Refund.RefundLiters | refund_engine.py:119-123 | on pass the refund is the smaller of actual fuel and cap; on fail it is 0 |
| Refund.RefundRowOf | refund_engine.py:115-127 | the status label is APPROVE iff the gate passes and HOLD otherwise; a held vehicle gets 0 litres and amount 0; the amount is within 0.5 of litres times unit price |
| Refund.CalculateRefund | refund_engine.py:104-129 | configuration errors surface before any refund row is produced; otherwise one refund row per gated row with its cap and price |
| Refund.RunRefundEngine | refund_engine.py:132-143 | a missing input column or a bad cap configuration yields an error and no table; otherwise each row carries its summary, the rules' expected fuel, the gate decision, the cap, a refund on pass that is the smaller of actual fuel and cap (0 and HOLD on fail), the configured unit price, an amount that is litres times price rounded to a whole number (within 0.5), and APPROVE iff pass |
| Refund.RatioGateAgreesWithAbsolute | refund_engine.py:89-98 | with positive expected fuel, the ratio gate at threshold 1 + tolerance decides exactly as the absolute gate |
| Refund.RefundLitersMonotone | refund_engine.py:119-123 | more purchased fuel never lowers the refund |
| Refund.PipelineTable | pipeline.py:37-49 | a built summary has every column the refund engine reads, and one row per profile vehicle |
| Refund.DefaultRefundBounded | refund_engine.py:8-29 | under the default parameters a built summary always yields a refund table; every cap is 1000 L, no refund exceeds 1000 L or 500,000, and a non-negative fuel total gets a non-negative amount |

## Left out

- Loading and output are not modelled: CSV reading and encodings, header whitespace/BOM cleanup, printing, and file writes (including `run_pipeline.py` and `dtg_model/run_check_refund.py`). The model starts from already-read tables.
- Date-time parsing is not modelled. A transaction's time is an already-parsed `Option<Timestamp>` (date, hour), where `None` means unparseable.
- Floating-point behaviour is not modelled: no NaN/inf propagation, overflow or binary rounding error. Values are mathematical reals. `round(2)` and `round(0)` are exact round-half-to-even on those reals.
- Null vehicle ids are not modelled: ids are plain strings. Hence the report's tie-break on `vehicle_id` is a code-point string order; a `vehicle_id` column that the CSV reader parses as numbers would sort numerically instead ("10" after "9"). Null station ids are modelled, because they change the share denominators.
- Column-name clashes in the merges (pandas `_x`/`_y` suffixes) are not modelled. A profile column named like an aggregate is assumed not to exist.
- A profile without an `avg_eff_km_per_l` column is represented by a missing efficiency on every row.
- RiskReport.ApplyBaselineRules: requires unique vehicle ids whenever the tank-capacity column exists. On duplicate ids the source's `Series.map` raises, and this error is not modelled. The same precondition appears on `RiskReport.ScoreVehicles` and `RiskReport.AnomalyReport`.
- RiskReport.SortReport: the order among rows with equal risk score and equal vehicle id is left open. Only sortedness and permutation are stated.
- Refund.GateReasonText: the threshold inside `FAIL_RATIO_GT_<threshold>` is rendered by a caller-supplied function. The host language's float-to-text conversion is not modelled.
- Refund.RowCap: a text column named as the cap column always reads as unparseable, so it gives 0. Numeric-looking text is not parsed. Columns the rules add to a risk-scored summary (`ind_*`, `score_*`) read through the profile's extra numeric cells.
- The refund engine is modelled on the aggregated summary. Running it on the risk-scored summary, as `run_pipeline.py` does, changes nothing it reads except such extra columns.
- Input tables are never mutated: every operation here is a pure function, so this needs no statement.
