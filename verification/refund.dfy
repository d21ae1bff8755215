/** The refund engine: expected fuel, a pass/fail gate, a per-vehicle cap
    and the gated refund (refund_engine.py). Each stage is a pure function
    of the summary table; a missing input column or a bad cap
    configuration yields an error instead of a table. */
module Refund {
  import opened Wrappers
  import opened Numeric
  import opened Records
  import opened Aggregation
  import opened Indicators

  const FixedCap: string := "fixed"
  const ByTonClass: string := "by_ton_class"
  const ByVehicleColumn: string := "by_vehicle_col"

  datatype RefundParams = RefundParams(
    tolerance: real,
    useRatioGate: bool,
    ratioThreshold: real,
    unitPriceKrwPerL: real,
    capMode: string,
    fixedCapL: real,
    capByTonClass: Option<map<int, real>>,
    capVehicleCol: string)

  const DefaultRefundParams: RefundParams :=
    RefundParams(0.10, false, 1.10, 500.0, FixedCap, 1000.0, None, "subsidy_cap_l")

  /** Every way a refund run can stop without producing a table. */
  datatype RefundError =
    | MissingInputColumn(column: string)
    | EmptyTonClassTable
    | MissingTonClassColumn
    | MissingCapColumn(column: string)
    | UnknownCapMode(mode: string)

  /** A summary table: its column names and its rows. */
  datatype SummaryTable = SummaryTable(columns: set<string>, rows: seq<BaseSummary>)

  // ---------------------------------------------------------------------
  // compute_expected_fuel

  datatype ExpectedRow = ExpectedRow(base: BaseSummary, expectedFuelL: real, bounds: Bounds)

  /** Expected fuel after coercing a missing efficiency to 0; it agrees with
      the risk rules' expected fuel and bounds. */
  function ExpectedRowOf(b: BaseSummary, tolerance: real): (e: ExpectedRow)
    ensures e.base == b
    ensures e.expectedFuelL == ExpectedFuel(b.totalDistanceKm, b.profile.avgEffKmPerL)
    ensures e.bounds.low == e.expectedFuelL * (1.0 - tolerance)
    ensures e.bounds.high == e.expectedFuelL * (1.0 + tolerance)
  {
    var eff := b.profile.avgEffKmPerL.GetOr(0.0);
    var expected := if eff == 0.0 then 0.0 else b.totalDistanceKm / eff;
    ExpectedRow(b, expected, ExpectedBounds(expected, tolerance))
  }

  function ComputeExpectedFuel(t: SummaryTable, tolerance: real): (r: Result<seq<ExpectedRow>, RefundError>)
    ensures r.Failure? <==> "avg_eff_km_per_l" !in t.columns || "total_distance_km" !in t.columns
    ensures r.Failure? && "avg_eff_km_per_l" !in t.columns ==> r.error == MissingInputColumn("avg_eff_km_per_l")
    ensures r.Failure? && "avg_eff_km_per_l" in t.columns ==> r.error == MissingInputColumn("total_distance_km")
    ensures r.Success? ==> |r.value| == |t.rows|
    ensures r.Success? ==> forall i :: 0 <= i < |t.rows| ==> r.value[i] == ExpectedRowOf(t.rows[i], tolerance)
  {
    if "avg_eff_km_per_l" !in t.columns then Failure(MissingInputColumn("avg_eff_km_per_l"))
    else if "total_distance_km" !in t.columns then Failure(MissingInputColumn("total_distance_km"))
    else Success(seq(|t.rows|, i requires 0 <= i < |t.rows| => ExpectedRowOf(t.rows[i], tolerance)))
  }

  // ---------------------------------------------------------------------
  // apply_gate

  datatype GateReason = Passed | FailRatioGt(threshold: real) | FailFuelGtExpectedHigh

  datatype Gate = Gate(metric: real, pass: bool, reason: GateReason)

  /** The gate on one vehicle: absolute (actual against the upper bound) or
      ratio (actual over expected against a threshold). */
  function ApplyGate(p: RefundParams, actual: real, expected: real, high: real): (g: Gate)
    ensures g.pass <==> g.reason == Passed
    ensures !p.useRatioGate ==> g.metric == actual - high
    ensures !p.useRatioGate ==> (g.pass <==> actual <= high) && (g.pass <==> g.metric <= 0.0)
    ensures !p.useRatioGate && !g.pass ==> g.reason == FailFuelGtExpectedHigh
    ensures p.useRatioGate ==> IsRatioOf(g.metric, actual, expected)
    ensures p.useRatioGate ==> (g.pass <==> g.metric <= p.ratioThreshold)
    ensures p.useRatioGate && !g.pass ==> g.reason == FailRatioGt(p.ratioThreshold)
    ensures p.useRatioGate && expected == 0.0 && p.ratioThreshold >= 0.0 ==> g.pass
  {
    if p.useRatioGate then
      var ratio := SafeRatio(actual, expected);
      var pass := ratio <= p.ratioThreshold;
      Gate(ratio, pass, if pass then Passed else FailRatioGt(p.ratioThreshold))
    else
      var pass := actual <= high;
      Gate(actual - high, pass, if pass then Passed else FailFuelGtExpectedHigh)
  }

  /** `gate_reason` as text; the threshold is rendered the way the host
      language prints a float, which is left to the caller. */
  function GateReasonText(r: GateReason, render: real -> string): (s: string)
    ensures s != ""
    ensures s == "PASS" <==> r == Passed
  {
    match r
    case Passed => "PASS"
    case FailRatioGt(t) => "FAIL_RATIO_GT_" + render(t)
    case FailFuelGtExpectedHigh => "FAIL_FUEL_GT_EXPECTED_HIGH"
  }

  /** `gate_status`: PASS or FAIL, mirroring the gate. */
  function GateStatusText(g: Gate): (s: string)
    ensures s == "PASS" <==> g.pass
    ensures s == "FAIL" <==> !g.pass
  {
    if g.pass then "PASS" else "FAIL"
  }

  datatype GatedRow = GatedRow(expected: ExpectedRow, gate: Gate)

  function GateRow(p: RefundParams, e: ExpectedRow): (g: GatedRow)
    ensures g.expected == e
    ensures g.gate == ApplyGate(p, e.base.actualFuelL, e.expectedFuelL, e.bounds.high)
  {
    GatedRow(e, ApplyGate(p, e.base.actualFuelL, e.expectedFuelL, e.bounds.high))
  }

  function ApplyGateTable(p: RefundParams, columns: set<string>, rows: seq<ExpectedRow>): (r: Result<seq<GatedRow>, RefundError>)
    ensures r.Failure? <==> "actual_fuel_l" !in columns
    ensures r.Failure? ==> r.error == MissingInputColumn("actual_fuel_l")
    ensures r.Success? ==> |r.value| == |rows|
    ensures r.Success? ==> forall i :: 0 <= i < |rows| ==> r.value[i] == GateRow(p, rows[i])
  {
    if "actual_fuel_l" !in columns then Failure(MissingInputColumn("actual_fuel_l"))
    else Success(seq(|rows|, i requires 0 <= i < |rows| => GateRow(p, rows[i])))
  }

  // ---------------------------------------------------------------------
  // compute_cap_l

  /** Columns the expected-fuel and gate stages add to the table. */
  const StageColumns: set<string> := {
    "expected_fuel_l", "expected_low", "expected_high",
    "gate_metric", "gate_pass", "gate_reason", "gate_status" }

  /** A numeric cell of a gated row; the gate flag reads as 1 or 0 and the
      text columns as unparseable. */
  function GatedCell(g: GatedRow, col: string): Option<real> {
    if col == "expected_fuel_l" then Some(g.expected.expectedFuelL)
    else if col == "expected_low" then Some(g.expected.bounds.low)
    else if col == "expected_high" then Some(g.expected.bounds.high)
    else if col == "gate_metric" then Some(g.gate.metric)
    else if col == "gate_pass" then Some(if g.gate.pass then 1.0 else 0.0)
    else if col == "gate_reason" || col == "gate_status" then None
    else SummaryCell(g.expected.base, col)
  }

  /** `to_numeric(errors="coerce").fillna(-1).astype(int)`: a missing class
      is -1 and a fractional one is truncated toward zero. */
  function TonClassCode(raw: Option<real>): (c: int)
    ensures raw.None? ==> c == -1
    ensures raw.Some? && raw.value >= 0.0 ==> c as real <= raw.value < c as real + 1.0
    ensures raw.Some? && raw.value < 0.0 ==> c as real - 1.0 < raw.value <= c as real
  {
    match raw
    case None => -1
    case Some(x) => if x >= 0.0 then x.Floor else -((-x).Floor)
  }

  /** The configuration error `compute_cap_l` raises for a table with the
      given columns, in the order `compute_cap_l` checks them; None when it has none. */
  function CapConfigError(p: RefundParams, columns: set<string>): (e: Option<RefundError>)
    ensures p.capMode == FixedCap ==> e.None?
    ensures p.capMode == ByTonClass ==>
      (e == Some(EmptyTonClassTable) <==> p.capByTonClass.None? || p.capByTonClass.value == map[])
    ensures p.capMode == ByTonClass && p.capByTonClass.Some? && p.capByTonClass.value != map[] ==>
      (e == Some(MissingTonClassColumn) <==> TonClassColumn !in columns)
    ensures p.capMode == ByVehicleColumn ==>
      (e.Some? <==> p.capVehicleCol !in columns) && (e.Some? ==> e.value == MissingCapColumn(p.capVehicleCol))
    ensures p.capMode !in {FixedCap, ByTonClass, ByVehicleColumn} ==> e == Some(UnknownCapMode(p.capMode))
  {
    if p.capMode == FixedCap then None
    else if p.capMode == ByTonClass then
      if p.capByTonClass.None? || p.capByTonClass.value == map[] then Some(EmptyTonClassTable)
      else if TonClassColumn !in columns then Some(MissingTonClassColumn)
      else None
    else if p.capMode == ByVehicleColumn then
      if p.capVehicleCol !in columns then Some(MissingCapColumn(p.capVehicleCol)) else None
    else Some(UnknownCapMode(p.capMode))
  }

  /** The cap of one vehicle under a configuration that raised nothing. */
  function RowCap(p: RefundParams, g: GatedRow): (cap: real)
    requires p.capMode in {FixedCap, ByTonClass, ByVehicleColumn}
    requires p.capMode == ByTonClass ==> p.capByTonClass.Some?
    ensures p.capMode == FixedCap ==> cap == p.fixedCapL
    ensures p.capMode == ByTonClass ==>
      var code := TonClassCode(g.expected.base.profile.tonClass);
      var table := p.capByTonClass.value;
      (code in table ==> cap == table[code]) && (code !in table ==> cap == p.fixedCapL)
    ensures p.capMode == ByVehicleColumn ==>
      var cell := GatedCell(g, p.capVehicleCol);
      (cell.Some? ==> cap == cell.value) && (cell.None? ==> cap == 0.0)
  {
    if p.capMode == FixedCap then p.fixedCapL
    else if p.capMode == ByTonClass then
      var code := TonClassCode(g.expected.base.profile.tonClass);
      if code in p.capByTonClass.value then p.capByTonClass.value[code] else p.fixedCapL
    else GatedCell(g, p.capVehicleCol).GetOr(0.0)
  }

  function ComputeCapL(p: RefundParams, columns: set<string>, rows: seq<GatedRow>): (r: Result<seq<real>, RefundError>)
    ensures r.Failure? <==> CapConfigError(p, columns).Some?
    ensures r.Failure? ==> r.error == CapConfigError(p, columns).value
    ensures r.Success? ==> p.capMode in {FixedCap, ByTonClass, ByVehicleColumn}
    ensures r.Success? ==> |r.value| == |rows|
    ensures r.Success? ==> forall i :: 0 <= i < |rows| ==> r.value[i] == RowCap(p, rows[i])
  {
    match CapConfigError(p, columns)
    case Some(e) => Failure(e)
    case None => Success(seq(|rows|, i requires 0 <= i < |rows| => RowCap(p, rows[i])))
  }

  // ---------------------------------------------------------------------
  // calculate_refund

  /** `np.where(gate_pass, np.minimum(actual, cap), 0)`. */
  function RefundLiters(pass: bool, actual: real, cap: real): (l: real)
    ensures pass ==> l <= actual && l <= cap && (l == actual || l == cap)
    ensures !pass ==> l == 0.0
  {
    if pass then Min(actual, cap) else 0.0
  }

  datatype RefundStatus = Approve | Hold

  function StatusLabel(s: RefundStatus): string {
    match s
    case Approve => "APPROVE"
    case Hold => "HOLD"
  }

  datatype RefundRow = RefundRow(
    gated: GatedRow,
    subsidyCapL: real,
    unitPrice: real,
    refundLiter: real,
    refundAmount: int,
    status: RefundStatus)

  /** One vehicle's refund: the capped fuel when the gate passes, nothing
      otherwise, priced and rounded to a whole amount. */
  function RefundRowOf(g: GatedRow, cap: real, unitPrice: real): (r: RefundRow)
    ensures r.gated == g && r.subsidyCapL == cap && r.unitPrice == unitPrice
    ensures r.refundLiter == RefundLiters(g.gate.pass, g.expected.base.actualFuelL, cap)
    ensures r.status == Approve <==> g.gate.pass
    ensures StatusLabel(r.status) == (if g.gate.pass then "APPROVE" else "HOLD")
    ensures !g.gate.pass ==> r.refundLiter == 0.0 && r.refundAmount == 0
    ensures r.refundLiter * unitPrice - 0.5 <= r.refundAmount as real <= r.refundLiter * unitPrice + 0.5
  {
    var liter := RefundLiters(g.gate.pass, g.expected.base.actualFuelL, cap);
    RoundHalfEvenOfInteger(0);
    RefundRow(g, cap, unitPrice, liter, RoundHalfEven(liter * unitPrice),
              if g.gate.pass then Approve else Hold)
  }

  function CalculateRefund(p: RefundParams, columns: set<string>, rows: seq<GatedRow>): (r: Result<seq<RefundRow>, RefundError>)
    ensures r.Failure? <==> CapConfigError(p, columns).Some?
    ensures r.Failure? ==> r.error == CapConfigError(p, columns).value
    ensures r.Success? ==> |r.value| == |rows|
    ensures r.Success? ==> forall i :: 0 <= i < |rows| ==>
      r.value[i] == RefundRowOf(rows[i], RowCap(p, rows[i]), p.unitPriceKrwPerL)
  {
    var caps :- ComputeCapL(p, columns, rows);
    Success(seq(|rows|, i requires 0 <= i < |rows| => RefundRowOf(rows[i], caps[i], p.unitPriceKrwPerL)))
  }

  // ---------------------------------------------------------------------
  // run_refund_engine

  /** The first missing column the expected-fuel and gate stages read. */
  function MissingInput(columns: set<string>): Option<RefundError> {
    if "avg_eff_km_per_l" !in columns then Some(MissingInputColumn("avg_eff_km_per_l"))
    else if "total_distance_km" !in columns then Some(MissingInputColumn("total_distance_km"))
    else if "actual_fuel_l" !in columns then Some(MissingInputColumn("actual_fuel_l"))
    else None
  }

  /** Expected fuel, then the gate, then the capped refund. */
  function RunRefundEngine(p: RefundParams, t: SummaryTable): (r: Result<seq<RefundRow>, RefundError>)
    ensures MissingInput(t.columns).Some? ==> r == Failure(MissingInput(t.columns).value)
    ensures MissingInput(t.columns).None? ==>
      (r.Failure? <==> CapConfigError(p, t.columns + StageColumns).Some?)
    ensures r.Success? ==> |r.value| == |t.rows|
    ensures r.Success? ==> forall i :: 0 <= i < |t.rows| ==>
      var row := r.value[i];
      var b := t.rows[i];
      var e := row.gated.expected;
      && e.base == b
      && e.expectedFuelL == ExpectedFuel(b.totalDistanceKm, b.profile.avgEffKmPerL)
      && e.bounds == ExpectedBounds(e.expectedFuelL, p.tolerance)
      && row.gated.gate == ApplyGate(p, b.actualFuelL, e.expectedFuelL, e.bounds.high)
      && row.subsidyCapL == RowCap(p, row.gated)
      && (row.gated.gate.pass ==> row.refundLiter <= b.actualFuelL && row.refundLiter <= row.subsidyCapL)
      && (!row.gated.gate.pass ==> row.refundLiter == 0.0 && row.refundAmount == 0)
      && (row.status == Approve <==> row.gated.gate.pass)
      && (row.gated.gate.pass ==> row.refundLiter == Min(b.actualFuelL, row.subsidyCapL))
      && row.unitPrice == p.unitPriceKrwPerL
      && row.refundLiter * row.unitPrice - 0.5 <= row.refundAmount as real <= row.refundLiter * row.unitPrice + 0.5
      && row == RefundRowOf(row.gated, row.subsidyCapL, p.unitPriceKrwPerL)
  {
    var expected :- ComputeExpectedFuel(t, p.tolerance);
    var gated :- ApplyGateTable(p, t.columns, expected);
    CalculateRefund(p, t.columns + StageColumns, gated)
  }

  // ---------------------------------------------------------------------
  // Properties relating the stages

  /** With positive expected fuel, the ratio gate at threshold 1 + tolerance
      decides exactly as the absolute gate at that tolerance. */
  lemma RatioGateAgreesWithAbsolute(p: RefundParams, actual: real, expected: real)
    requires expected > 0.0 && p.ratioThreshold == 1.0 + p.tolerance
    ensures ApplyGate(p.(useRatioGate := true), actual, expected, ExpectedBounds(expected, p.tolerance).high).pass
        == ApplyGate(p.(useRatioGate := false), actual, expected, ExpectedBounds(expected, p.tolerance).high).pass
  {
    var high := ExpectedBounds(expected, p.tolerance).high;
    var thr := p.ratioThreshold;
    var ratio := SafeRatio(actual, expected);
    assert ApplyGate(p.(useRatioGate := true), actual, expected, high).pass == (ratio <= thr);
    assert ApplyGate(p.(useRatioGate := false), actual, expected, high).pass == (actual <= high);
    ScaledComparison(actual, high, ratio, thr, expected);
  }

  /** For a positive scale `e`, comparing `ratio` with `thr` is comparing
      `ratio·e` with `thr·e`. */
  lemma ScaledComparison(actual: real, high: real, ratio: real, thr: real, e: real)
    requires e > 0.0 && ratio * e == actual && high == e * thr
    ensures ratio <= thr <==> actual <= high
  {
    if ratio <= thr {
      MulNonneg(thr - ratio, e);
      assert high - actual == (thr - ratio) * e;
    } else {
      MulPos(ratio - thr, e);
      assert actual - high == (ratio - thr) * e;
    }
  }

  /** The refund never decreases as the purchased fuel grows. */
  lemma RefundLitersMonotone(pass: bool, a1: real, a2: real, cap: real)
    requires a1 <= a2
    ensures RefundLiters(pass, a1, cap) <= RefundLiters(pass, a2, cap)
  {
  }

  /** A summary built from the profile, telemetry and transactions carries
      every column the refund engine reads. */
  function PipelineTable(profile: ProfileTable, tele: seq<TelemetryRow>, txs: seq<FuelTx>): (t: SummaryTable)
    ensures MissingInput(t.columns).None?
    ensures |t.rows| == |profile.rows|
  {
    SummaryTable(profile.columns + AggregateColumns, BuildSummary(profile.rows, tele, txs))
  }

  /** Under the default parameters (fixed 1000 L cap, 500 per litre,
      absolute gate at 10%) a pipeline summary always yields a refund
      table, and no vehicle is refunded more than 1000 L or 500,000. */
  lemma DefaultRefundBounded(profile: ProfileTable, tele: seq<TelemetryRow>, txs: seq<FuelTx>)
    ensures var r := RunRefundEngine(DefaultRefundParams, PipelineTable(profile, tele, txs));
      && r.Success?
      && |r.value| == |profile.rows|
      && forall i :: 0 <= i < |r.value| ==>
        && r.value[i].subsidyCapL == 1000.0
        && r.value[i].refundLiter <= 1000.0
        && r.value[i].refundAmount <= 500000
        && (r.value[i].gated.expected.base.actualFuelL >= 0.0 ==> r.value[i].refundAmount >= 0)
  {
    var r := RunRefundEngine(DefaultRefundParams, PipelineTable(profile, tele, txs));
    forall i | 0 <= i < |r.value|
      ensures r.value[i].refundLiter <= 1000.0
      ensures r.value[i].refundAmount <= 500000
      ensures r.value[i].gated.expected.base.actualFuelL >= 0.0 ==> r.value[i].refundAmount >= 0
    {
      var row := r.value[i];
      var amount := row.refundLiter * 500.0;
      assert row.refundLiter <= 1000.0;
      RoundHalfEvenMonotone(amount, 500000.0);
      RoundHalfEvenOfInteger(500000);
      if row.gated.expected.base.actualFuelL >= 0.0 {
        assert row.refundLiter >= 0.0;
        RoundHalfEvenMonotone(0.0, amount);
        RoundHalfEvenOfInteger(0);
      }
    }
  }
}
