/** The risk report: the rules applied to every summary row, then the
    output column filter and the ordering by descending risk score and
    ascending vehicle id (anomaly_pipeline.py; run_pipeline.py composes
    pipeline.py and rules_baseline.py the same way). */
module RiskReport {
  import opened Wrappers
  import opened Numeric
  import opened Records
  import opened Aggregation
  import opened Indicators
  import opened Scoring

  datatype RiskRow = RiskRow(base: BaseSummary, ind: Indicators, assessment: Assessment)

  function RiskOf(r: RiskRow): real {
    r.assessment.riskScore
  }

  /** `apply_baseline_rules` on a whole summary: one scored row per summary
      row, in the same order. */
  function ApplyBaselineRules(p: RuleParams, profile: ProfileTable, summary: seq<BaseSummary>, txs: seq<FuelTx>): (rows: seq<RiskRow>)
    requires p.Valid()
    requires TankCapacityColumn in profile.columns ==> UniqueIds(profile.rows)
    ensures |rows| == |summary|
    ensures forall i :: 0 <= i < |rows| ==> rows[i].base == summary[i]
    ensures forall i :: 0 <= i < |rows| ==>
      rows[i].ind == ComputeIndicators(p, profile, summary[i], txs) && rows[i].assessment == Assess(rows[i].ind)
    ensures forall i :: 0 <= i < |rows| ==>
      && 0.0 <= RiskOf(rows[i]) <= 100.0
      && rows[i].assessment.tier == TierOf(RiskOf(rows[i]))
      && (summary[i].actualFuelL <= 0.0 ==> rows[i].ind.fuelUnderL == 0.0)
      && (rows[i].ind.overTank <==> rows[i].ind.overTankCnt > 0)
      && 0.0 <= rows[i].ind.stationMaxShare <= 1.0
      && (p.stationK > 0 ==> 0.0 <= rows[i].ind.stationConc < 1.0)
      && rows[i].ind.maxDailyRefuel <= CountTx(txs, VehicleOf(summary[i]), AllRows)
      && Split(rows[i].assessment.reason) == Texts(ReasonTags(rows[i].ind))
  {
    seq(|summary|, i requires 0 <= i < |summary| =>
      var ind := ComputeIndicators(p, profile, summary[i], txs);
      RiskRow(summary[i], ind, Assess(ind)))
  }

  /** `load_and_build_summary` followed by `apply_baseline_rules`. */
  function ScoreVehicles(p: RuleParams, profile: ProfileTable, tele: seq<TelemetryRow>, txs: seq<FuelTx>): (rows: seq<RiskRow>)
    requires p.Valid()
    requires TankCapacityColumn in profile.columns ==> UniqueIds(profile.rows)
    ensures |rows| == |profile.rows|
    ensures forall i :: 0 <= i < |rows| ==>
      && rows[i].base.profile == profile.rows[i]
      && rows[i].base.actualFuelL == FuelTotal(txs, profile.rows[i].vehicleId)
      && rows[i].base.refuelCnt == CountTx(txs, profile.rows[i].vehicleId, WithId)
      && 0.0 <= RiskOf(rows[i]) <= 100.0
    ensures forall i :: 0 <= i < |rows| ==>
      && rows[i].base == BuildSummary(profile.rows, tele, txs)[i]
      && rows[i].ind == ComputeIndicators(p, profile, rows[i].base, txs)
      && rows[i].assessment == Assess(rows[i].ind)
  {
    ApplyBaselineRules(p, profile, BuildSummary(profile.rows, tele, txs), txs)
  }

  /** With unique ids the over-tank rule compares each vehicle's purchases
      against that vehicle's own profile capacity. */
  lemma OverTankUsesOwnCapacity(p: RuleParams, profile: ProfileTable, tele: seq<TelemetryRow>, txs: seq<FuelTx>, i: int)
    requires p.Valid() && UniqueIds(profile.rows) && TankCapacityColumn in profile.columns
    requires 0 <= i < |profile.rows|
    ensures var row := ScoreVehicles(p, profile, tele, txs)[i];
      row.ind.overTankCnt == OverTankCount(txs, profile.rows[i].vehicleId, profile.rows[i].tankCapacityL)
  {
    FindProfileOwnRow(profile.rows, i);
  }

  /** Indicators without purchase activity score nothing on the four
      purchase-driven rules and raise none of their reasons. */
  lemma QuietAssessment(ind: Indicators)
    requires ind.fuelRatio == 0.0 && ind.fuelUnderL == 0.0
    requires ind.maxDailyRefuel == 0 && ind.stationConc == 0.0
    ensures var a := Assess(ind);
      && a.scores.fuelOver == 0.0 && a.scores.fuelUnder == 0.0
      && a.scores.dailyRefuel == 0.0 && a.scores.station == 0.0
      && ManyRefuelsTag !in ReasonTags(ind) && FuelOverTag !in ReasonTags(ind)
      && StationTag !in ReasonTags(ind) && FuelUnderTag !in ReasonTags(ind)
  {
    Round2OfInteger(0);
  }

  /** A vehicle with no fuel purchases gets no over-tank, fuel-deviation,
      refuel or station score and none of the reasons that depend on
      purchases. */
  lemma NoFuelNoPurchaseSignals(p: RuleParams, profile: ProfileTable, tele: seq<TelemetryRow>, txs: seq<FuelTx>, i: int)
    requires p.Valid()
    requires TankCapacityColumn in profile.columns ==> UniqueIds(profile.rows)
    requires 0 <= i < |profile.rows| && !HasTx(txs, profile.rows[i].vehicleId)
    ensures var row := ScoreVehicles(p, profile, tele, txs)[i];
      && row.base.actualFuelL == 0.0 && row.base.refuelCnt == 0 && row.base.nightRefuelCnt == 0
      && row.assessment.scores.fuelOver == 0.0 && row.assessment.scores.fuelUnder == 0.0
      && row.assessment.scores.dailyRefuel == 0.0 && row.assessment.scores.station == 0.0
      && ManyRefuelsTag !in ReasonTags(row.ind) && FuelOverTag !in ReasonTags(row.ind)
      && StationTag !in ReasonTags(row.ind) && FuelUnderTag !in ReasonTags(row.ind)
      && !row.ind.overTank && row.ind.overTankCnt == 0 && row.assessment.scores.overTank == 0.0
      && OverTankTag !in ReasonTags(row.ind)
  {
    var v := profile.rows[i].vehicleId;
    FuelWithoutRows(txs, v);
    var b := BuildSummary(profile.rows, tele, txs)[i];
    assert b.actualFuelL == 0.0 && b.refuelCnt == 0 && b.nightRefuelCnt == 0;
    var ind := ComputeIndicators(p, profile, b, txs);
    assert ind.fuelRatio == 0.0 by {
      if ind.expectedFuelL != 0.0 {
        assert ind.fuelRatio * ind.expectedFuelL == 0.0;
      }
    }
    assert CountTx(txs, v, AllRows) == 0;
    assert !AnyOverTank(txs, v, CapacityOf(profile, v));
    QuietAssessment(ind);
  }

  // ---------------------------------------------------------------------
  // Output columns

  const ReportColumns: seq<string> := [
    "vehicle_id", "vehicle_no", "ton_class", "fuel_type",
    "total_distance_km", "expected_fuel_l", "expected_low", "expected_high",
    "actual_fuel_l", "refuel_cnt", "night_refuel_cnt",
    "ind_over_tank", "ind_over_tank_cnt", "ind_max_daily_refuel",
    "ind_fuel_ratio", "ind_station_max_share",
    "score_over_tank", "score_daily_refuel", "score_fuel_over", "score_fuel_under", "score_station",
    "risk_score", "risk_tier", "risk_reason"]

  /** Columns the rules add to the summary. */
  const RuleColumns: set<string> := {
    "expected_fuel_l", "expected_low", "expected_high",
    "ind_over_tank", "ind_over_tank_cnt", "ind_max_daily_refuel",
    "ind_fuel_ratio", "ind_fuel_over_l", "ind_fuel_under_l",
    "ind_station_max_share", "score_station_conc",
    "risk_score", "score_over_tank", "score_daily_refuel", "score_fuel_over",
    "score_fuel_under", "score_station", "risk_tier", "risk_reason" }

  function ScoredColumns(profileColumns: set<string>): set<string> {
    profileColumns + AggregateColumns + RuleColumns
  }

  /** `sub` is `full` with some entries left out. */
  predicate IsSubsequence(sub: seq<string>, full: seq<string>)
    decreases |full|
  {
    if |sub| == 0 then true
    else if |full| == 0 then false
    else (sub[0] == full[0] && IsSubsequence(sub[1..], full[1..])) || IsSubsequence(sub, full[1..])
  }

  /** `[c for c in listed if c in present]`: the listed columns that exist,
      in listed order. */
  function SelectColumns(listed: seq<string>, present: set<string>): (r: seq<string>)
    ensures IsSubsequence(r, listed)
    ensures forall c :: c in r <==> c in listed && c in present
    decreases |listed|
  {
    if |listed| == 0 then []
    else
      var rest := SelectColumns(listed[1..], present);
      assert forall c :: c in listed <==> c == listed[0] || c in listed[1..] by {
        assert listed == [listed[0]] + listed[1..];
      }
      if listed[0] in present then
        assert ([listed[0]] + rest)[1..] == rest;
        [listed[0]] + rest
      else
        rest
  }

  // ---------------------------------------------------------------------
  // Ordering: risk score descending, vehicle id ascending

  /** Python's code-point order on strings. */
  predicate StrLe(a: string, b: string)
    decreases |a|
  {
    |a| == 0 || (|b| > 0 && (a[0] < b[0] || (a[0] == b[0] && StrLe(a[1..], b[1..]))))
  }

  lemma {:induction false} StrLeTotal(a: string, b: string)
    ensures StrLe(a, b) || StrLe(b, a)
    decreases |a|
  {
    if |a| > 0 && |b| > 0 && a[0] == b[0] {
      StrLeTotal(a[1..], b[1..]);
    }
  }

  lemma {:induction false} StrLeTransitive(a: string, b: string, c: string)
    requires StrLe(a, b) && StrLe(b, c)
    ensures StrLe(a, c)
    decreases |a|
  {
    if |a| > 0 && a[0] == b[0] && b[0] == c[0] {
      StrLeTransitive(a[1..], b[1..], c[1..]);
    }
  }

  /** `x` may stand before `y` in the report. */
  predicate Precedes(x: RiskRow, y: RiskRow) {
    RiskOf(x) > RiskOf(y) || (RiskOf(x) == RiskOf(y) && StrLe(VehicleOf(x.base), VehicleOf(y.base)))
  }

  lemma PrecedesTotal(x: RiskRow, y: RiskRow)
    ensures Precedes(x, y) || Precedes(y, x)
  {
    StrLeTotal(VehicleOf(x.base), VehicleOf(y.base));
  }

  lemma PrecedesTransitive(x: RiskRow, y: RiskRow, z: RiskRow)
    requires Precedes(x, y) && Precedes(y, z)
    ensures Precedes(x, z)
  {
    if RiskOf(x) == RiskOf(y) == RiskOf(z) {
      StrLeTransitive(VehicleOf(x.base), VehicleOf(y.base), VehicleOf(z.base));
    }
  }

  predicate SortedReport(rows: seq<RiskRow>) {
    forall i, j :: 0 <= i < j < |rows| ==> Precedes(rows[i], rows[j])
  }

  /** A row that precedes every row of a sorted report can head it. */
  lemma PrependSorted(x: RiskRow, rows: seq<RiskRow>)
    requires SortedReport(rows)
    requires forall e :: e in rows ==> Precedes(x, e)
    ensures SortedReport([x] + rows)
  {
    var r := [x] + rows;
    forall i, j | 0 <= i < j < |r| ensures Precedes(r[i], r[j]) {
      assert r[j] == rows[j - 1];
      if i > 0 {
        assert r[i] == rows[i - 1];
      }
    }
  }

  /** The head of a sorted report precedes every row of it. */
  lemma HeadPrecedesAll(rows: seq<RiskRow>, e: RiskRow)
    requires SortedReport(rows) && |rows| > 0 && e in rows
    ensures Precedes(rows[0], e)
  {
    var k :| 0 <= k < |rows| && rows[k] == e;
    if k == 0 {
      StrLeReflexive(VehicleOf(e.base));
    }
  }

  lemma {:induction false} StrLeReflexive(a: string)
    ensures StrLe(a, a)
    decreases |a|
  {
    if |a| > 0 {
      StrLeReflexive(a[1..]);
    }
  }

  /** Insert one row into a sorted report. */
  function Insert(x: RiskRow, rows: seq<RiskRow>): (r: seq<RiskRow>)
    requires SortedReport(rows)
    ensures SortedReport(r)
    ensures multiset(r) == multiset(rows) + multiset{x}
    ensures forall e :: e in r ==> e == x || e in rows
    decreases |rows|
  {
    if |rows| == 0 then [x]
    else if Precedes(x, rows[0]) then
      assert forall e :: e in rows ==> Precedes(x, e) by {
        forall e | e in rows ensures Precedes(x, e) {
          HeadPrecedesAll(rows, e);
          PrecedesTransitive(x, rows[0], e);
        }
      }
      PrependSorted(x, rows);
      [x] + rows
    else
      PrecedesTotal(x, rows[0]);
      var rest := rows[1..];
      assert rows == [rows[0]] + rest;
      var tail := Insert(x, rest);
      assert forall e :: e in tail ==> Precedes(rows[0], e) by {
        forall e | e in tail ensures Precedes(rows[0], e) {
          if e != x {
            HeadPrecedesAll(rows, e);
          }
        }
      }
      PrependSorted(rows[0], tail);
      [rows[0]] + tail
  }

  /** `sort_values(["risk_score", "vehicle_id"], ascending=[False, True])`:
      a permutation of the rows in report order. */
  function SortReport(rows: seq<RiskRow>): (r: seq<RiskRow>)
    ensures SortedReport(r)
    ensures multiset(r) == multiset(rows)
    decreases |rows|
  {
    if |rows| == 0 then []
    else
      assert rows == [rows[0]] + rows[1..];
      Insert(rows[0], SortReport(rows[1..]))
  }

  datatype Report = Report(columns: seq<string>, rows: seq<RiskRow>)

  /** anomaly_pipeline.py: aggregation and rules with tolerance 0.10,
      baseline 0.60 and k = 6, then the sorted, column-filtered report. */
  function AnomalyReport(profile: ProfileTable, tele: seq<TelemetryRow>, txs: seq<FuelTx>): (r: Report)
    requires TankCapacityColumn in profile.columns ==> UniqueIds(profile.rows)
    ensures IsSubsequence(r.columns, ReportColumns)
    ensures forall c :: c in r.columns <==> c in ReportColumns && c in ScoredColumns(profile.columns)
    ensures SortedReport(r.rows)
    ensures multiset(r.rows) == multiset(ScoreVehicles(DefaultRules, profile, tele, txs))
    ensures |r.rows| == |profile.rows|
    ensures forall row :: row in r.rows ==> 0.0 <= RiskOf(row) <= 100.0
  {
    var scored := ScoreVehicles(DefaultRules, profile, tele, txs);
    var sorted := SortReport(scored);
    assert |sorted| == |multiset(sorted)| == |multiset(scored)| == |scored|;
    assert forall row :: row in sorted ==> row in multiset(scored);
    Report(SelectColumns(ReportColumns, ScoredColumns(profile.columns)), sorted)
  }
}
