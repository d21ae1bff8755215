/** The Indicator Engine (first half of `apply_baseline_rules` in
    rules_baseline.py, repeated in anomaly_pipeline.py): expected-fuel
    bounds, over-tank, busiest day, fuel deviation and station concentration
    for one base summary row, given the raw transactions and the profile. */
module Indicators {
  import opened Wrappers
  import opened Numeric
  import opened Records
  import opened Aggregation

  /** The rule parameters: fuel tolerance, station baseline share and the
      sample-size smoothing constant `k`. */
  datatype RuleParams = RuleParams(tolerance: real, stationBaseline: real, stationK: nat) {
    /** `(share - baseline) / (1 - baseline)` needs a baseline below 1. */
    predicate Valid() {
      stationBaseline < 1.0
    }
  }

  /** The values both rule entry points use: 0.10, 0.60 and 6. */
  const DefaultRules: RuleParams := RuleParams(0.10, 0.60, 6)

  // ---------------------------------------------------------------------
  // Expected fuel

  /** Distance over efficiency; a zero or missing efficiency yields 0 instead
      of a division by zero. */
  function ExpectedFuel(distanceKm: real, eff: Option<real>): (e: real)
    ensures eff.None? || eff == Some(0.0) ==> e == 0.0
    ensures eff.Some? && eff.value != 0.0 ==> e * eff.value == distanceKm
    ensures eff.Some? && eff.value > 0.0 && distanceKm >= 0.0 ==> e >= 0.0
  {
    if eff.Some? && eff.value != 0.0 then distanceKm / eff.value else 0.0
  }

  datatype Bounds = Bounds(low: real, high: real)

  /** The tolerance band around the expected fuel. */
  function ExpectedBounds(e: real, tolerance: real): (b: Bounds)
    ensures b.low + b.high == 2.0 * e
    ensures b.high - b.low == 2.0 * tolerance * e
    ensures e >= 0.0 && tolerance >= 0.0 ==> b.low <= e <= b.high
    ensures e >= 0.0 && tolerance <= 1.0 ==> b.low >= 0.0
  {
    Bounds(e * (1.0 - tolerance), e * (1.0 + tolerance))
  }

  // ---------------------------------------------------------------------
  // Over-tank

  /** A purchase larger than a known tank capacity (a NaN capacity compares
      false). */
  predicate OverTankTx(t: FuelTx, cap: Option<real>) {
    cap.Some? && Liters(t) > cap.value
  }

  function OverTankCount(txs: seq<FuelTx>, v: VehicleId, cap: Option<real>): nat
    decreases |txs|
  {
    if |txs| == 0 then 0
    else
      var last := txs[|txs| - 1];
      OverTankCount(txs[..|txs| - 1], v, cap) + (if last.vehicleId == v && OverTankTx(last, cap) then 1 else 0)
  }

  predicate AnyOverTank(txs: seq<FuelTx>, v: VehicleId, cap: Option<real>) {
    exists i :: 0 <= i < |txs| && txs[i].vehicleId == v && OverTankTx(txs[i], cap)
  }

  /** The over-tank count is positive exactly when some purchase is over
      the tank. */
  lemma {:induction false} OverTankCountPositive(txs: seq<FuelTx>, v: VehicleId, cap: Option<real>)
    ensures OverTankCount(txs, v, cap) > 0 <==> AnyOverTank(txs, v, cap)
    decreases |txs|
  {
    if |txs| > 0 {
      var init := txs[..|txs| - 1];
      OverTankCountPositive(init, v, cap);
      if AnyOverTank(init, v, cap) {
        var i :| 0 <= i < |init| && init[i].vehicleId == v && OverTankTx(init[i], cap);
        assert txs[i] == init[i];
      }
      if AnyOverTank(txs, v, cap) {
        var i :| 0 <= i < |txs| && txs[i].vehicleId == v && OverTankTx(txs[i], cap);
        if i < |init| {
          assert init[i] == txs[i];
        }
      }
    }
  }

  datatype OverTank = OverTank(flag: bool, count: nat)

  /** The vehicle's capacity as `veh.set_index("vehicle_id")` maps it. */
  function CapacityOf(profile: ProfileTable, v: VehicleId): Option<real> {
    match FindProfile(profile.rows, v)
    case Some(p) => p.tankCapacityL
    case None => None
  }

  /** `ind_over_tank` and `ind_over_tank_cnt`; both false/0 when the profile
      has no capacity column. */
  function OverTankIndicator(profile: ProfileTable, v: VehicleId, txs: seq<FuelTx>): (o: OverTank)
    ensures o.flag <==> o.count > 0
    ensures o.flag <==> TankCapacityColumn in profile.columns && AnyOverTank(txs, v, CapacityOf(profile, v))
    ensures TankCapacityColumn in profile.columns ==> o.count == OverTankCount(txs, v, CapacityOf(profile, v))
  {
    if TankCapacityColumn !in profile.columns then OverTank(false, 0)
    else
      var cap := CapacityOf(profile, v);
      OverTankCountPositive(txs, v, cap);
      OverTank(AnyOverTank(txs, v, cap), OverTankCount(txs, v, cap))
  }

  // ---------------------------------------------------------------------
  // Groups by calendar date and by station

  /** The two `groupby(["vehicle_id", key]).size()` groupings. */
  datatype Grouping = ByDate | ByStation

  datatype GroupKey = DateKey(date: int) | StationKey(station: StationId)

  /** The group key of a purchase; rows with a NaT date or a missing station
      fall out of the grouping (`dropna`). */
  function KeyOf(t: FuelTx, g: Grouping): Option<GroupKey> {
    match g
    case ByDate => if t.time.Some? then Some(DateKey(t.time.value.date)) else None
    case ByStation => if t.stationId.Some? then Some(StationKey(t.stationId.value)) else None
  }

  predicate InGroup(t: FuelTx, v: VehicleId, g: Grouping, k: GroupKey) {
    t.vehicleId == v && KeyOf(t, g) == Some(k)
  }

  predicate Keyed(t: FuelTx, v: VehicleId, g: Grouping) {
    t.vehicleId == v && KeyOf(t, g).Some?
  }

  /** Reference: the size of the vehicle's group with key `k`. */
  function GroupSize(txs: seq<FuelTx>, v: VehicleId, g: Grouping, k: GroupKey): nat
    decreases |txs|
  {
    if |txs| == 0 then 0
    else GroupSize(txs[..|txs| - 1], v, g, k) + (if InGroup(txs[|txs| - 1], v, g, k) then 1 else 0)
  }

  /** Reference: how many of the vehicle's rows fall into some group. */
  function KeyedSize(txs: seq<FuelTx>, v: VehicleId, g: Grouping): nat
    decreases |txs|
  {
    if |txs| == 0 then 0
    else KeyedSize(txs[..|txs| - 1], v, g) + (if Keyed(txs[|txs| - 1], v, g) then 1 else 0)
  }

  lemma {:induction false} GroupSizePositive(txs: seq<FuelTx>, v: VehicleId, g: Grouping, k: GroupKey)
    ensures GroupSize(txs, v, g, k) > 0 <==> exists i :: 0 <= i < |txs| && InGroup(txs[i], v, g, k)
    decreases |txs|
  {
    if |txs| > 0 {
      var init := txs[..|txs| - 1];
      GroupSizePositive(init, v, g, k);
      if exists i :: 0 <= i < |init| && InGroup(init[i], v, g, k) {
        var i :| 0 <= i < |init| && InGroup(init[i], v, g, k);
        assert txs[i] == init[i];
      }
      if exists i :: 0 <= i < |txs| && InGroup(txs[i], v, g, k) {
        var i :| 0 <= i < |txs| && InGroup(txs[i], v, g, k);
        if i < |init| {
          assert init[i] == txs[i];
        }
      }
    }
  }

  lemma {:induction false} KeyedSizePositive(txs: seq<FuelTx>, v: VehicleId, g: Grouping)
    ensures KeyedSize(txs, v, g) > 0 <==> exists i :: 0 <= i < |txs| && Keyed(txs[i], v, g)
    decreases |txs|
  {
    if |txs| > 0 {
      var init := txs[..|txs| - 1];
      KeyedSizePositive(init, v, g);
      if exists i :: 0 <= i < |init| && Keyed(init[i], v, g) {
        var i :| 0 <= i < |init| && Keyed(init[i], v, g);
        assert txs[i] == init[i];
      }
      if exists i :: 0 <= i < |txs| && Keyed(txs[i], v, g) {
        var i :| 0 <= i < |txs| && Keyed(txs[i], v, g);
        if i < |init| {
          assert init[i] == txs[i];
        }
      }
    }
  }

  /** One group never holds more than all keyed rows. */
  lemma {:induction false} GroupSizeAtMostKeyed(txs: seq<FuelTx>, v: VehicleId, g: Grouping, k: GroupKey)
    ensures GroupSize(txs, v, g, k) <= KeyedSize(txs, v, g)
    decreases |txs|
  {
    if |txs| > 0 {
      GroupSizeAtMostKeyed(txs[..|txs| - 1], v, g, k);
    }
  }

  /** Keyed rows are a part of the vehicle's rows. */
  lemma {:induction false} KeyedSizeAtMostRows(txs: seq<FuelTx>, v: VehicleId, g: Grouping)
    ensures KeyedSize(txs, v, g) <= CountTx(txs, v, AllRows)
    decreases |txs|
  {
    if |txs| > 0 {
      KeyedSizeAtMostRows(txs[..|txs| - 1], v, g);
    }
  }

  /** The largest size among the groups of the rows in `rows`, sizes being
      taken over the whole table `all`. */
  function MaxGroupOver(rows: seq<FuelTx>, all: seq<FuelTx>, v: VehicleId, g: Grouping): (m: nat)
    ensures forall i :: 0 <= i < |rows| && Keyed(rows[i], v, g) ==> GroupSize(all, v, g, KeyOf(rows[i], g).value) <= m
    ensures m == 0 || exists i :: 0 <= i < |rows| && Keyed(rows[i], v, g) && GroupSize(all, v, g, KeyOf(rows[i], g).value) == m
    decreases |rows|
  {
    if |rows| == 0 then 0
    else
      var init := rows[..|rows| - 1];
      var rest := MaxGroupOver(init, all, v, g);
      var t := rows[|rows| - 1];
      var here := if Keyed(t, v, g) then GroupSize(all, v, g, KeyOf(t, g).value) else 0;
      assert forall i :: 0 <= i < |init| ==> init[i] == rows[i];
      if here > rest then here else rest
  }

  /** The facts that make the maximum over the table's own rows the maximum
      group size. */
  lemma MaxGroupOverAll(txs: seq<FuelTx>, v: VehicleId, g: Grouping)
    ensures var m := MaxGroupOver(txs, txs, v, g);
      && (forall k :: GroupSize(txs, v, g, k) <= m)
      && (m == 0 || exists k :: GroupSize(txs, v, g, k) == m)
      && m <= KeyedSize(txs, v, g)
      && (m == 0 <==> KeyedSize(txs, v, g) == 0)
  {
    var m := MaxGroupOver(txs, txs, v, g);
    forall k ensures GroupSize(txs, v, g, k) <= m {
      GroupSizePositive(txs, v, g, k);
    }
    if m > 0 {
      var i :| 0 <= i < |txs| && Keyed(txs[i], v, g) && GroupSize(txs, v, g, KeyOf(txs[i], g).value) == m;
      GroupSizeAtMostKeyed(txs, v, g, KeyOf(txs[i], g).value);
      assert GroupSize(txs, v, g, KeyOf(txs[i], g).value) == m;
    } else {
      KeyedSizePositive(txs, v, g);
      if KeyedSize(txs, v, g) > 0 {
        var i :| 0 <= i < |txs| && Keyed(txs[i], v, g);
        GroupSizePositive(txs, v, g, KeyOf(txs[i], g).value);
      }
    }
  }

  /** `groupby(["vehicle_id", key]).size()` followed by the per-vehicle
      `max()`, 0 for a vehicle without keyed rows: no group is larger, some
      group reaches it, and it is 0 exactly when nothing is keyed. */
  function MaxGroupSize(txs: seq<FuelTx>, v: VehicleId, g: Grouping): (m: nat)
    ensures forall k :: GroupSize(txs, v, g, k) <= m
    ensures m == 0 || exists k :: GroupSize(txs, v, g, k) == m
    ensures m <= KeyedSize(txs, v, g)
    ensures m == 0 <==> KeyedSize(txs, v, g) == 0
  {
    MaxGroupOverAll(txs, v, g);
    MaxGroupOver(txs, txs, v, g)
  }

  /** `ind_max_daily_refuel` never exceeds the vehicle's transaction rows,
      nor its refuel count when every purchase carries an id. */
  lemma MaxDailyAtMostRefuels(txs: seq<FuelTx>, v: VehicleId)
    ensures MaxGroupSize(txs, v, ByDate) <= CountTx(txs, v, AllRows)
    ensures (forall i :: 0 <= i < |txs| && txs[i].vehicleId == v ==> txs[i].transactionId.Some?)
      ==> MaxGroupSize(txs, v, ByDate) <= CountTx(txs, v, WithId)
  {
    KeyedSizeAtMostRows(txs, v, ByDate);
    if forall i :: 0 <= i < |txs| && txs[i].vehicleId == v ==> txs[i].transactionId.Some? {
      CountWithIdAllRows(txs, v);
    }
  }

  lemma {:induction false} CountWithIdAllRows(txs: seq<FuelTx>, v: VehicleId)
    requires forall i :: 0 <= i < |txs| && txs[i].vehicleId == v ==> txs[i].transactionId.Some?
    ensures CountTx(txs, v, WithId) == CountTx(txs, v, AllRows)
    decreases |txs|
  {
    if |txs| > 0 {
      var init := txs[..|txs| - 1];
      forall i | 0 <= i < |init| && init[i].vehicleId == v
        ensures init[i].transactionId.Some?
      {
        assert init[i] == txs[i];
      }
      CountWithIdAllRows(init, v);
    }
  }

  /** `ind_station_max_share`: the busiest station's share of the vehicle's
      station-keyed purchases, 0 when there are none. */
  function StationMaxShare(txs: seq<FuelTx>, v: VehicleId): (s: real)
    ensures 0.0 <= s <= 1.0
    ensures KeyedSize(txs, v, ByStation) == 0 <==> s == 0.0
    ensures IsRatioOf(s, MaxGroupSize(txs, v, ByStation) as real, KeyedSize(txs, v, ByStation) as real)
  {
    var total := KeyedSize(txs, v, ByStation);
    if total == 0 then 0.0
    else
      var top := MaxGroupSize(txs, v, ByStation);
      var q := SafeRatio(top as real, total as real);
      RatioOfPart(q, top as real, total as real);
      q
  }

  // ---------------------------------------------------------------------
  // Fuel deviation

  /** `r` is `num / den`, or 0 when `den` is 0. */
  predicate IsRatioOf(r: real, num: real, den: real) {
    if den == 0.0 then r == 0.0 else r * den == num
  }

  /** `a / b` with a zero denominator giving 0 (`replace(0, nan)` then
      `fillna(0)`). */
  function SafeRatio(num: real, den: real): (r: real)
    ensures IsRatioOf(r, num, den)
  {
    if den == 0.0 then 0.0 else num / den
  }

  /** The ratio of a part to its positive whole lies in [0,1] and is
      positive for a positive part. */
  lemma RatioOfPart(q: real, part: real, whole: real)
    requires IsRatioOf(q, part, whole) && 0.0 <= part <= whole && whole > 0.0
    ensures 0.0 <= q <= 1.0
    ensures part > 0.0 ==> q > 0.0
  {
    ScaleBack(q, whole);
    if part > 0.0 && q <= 0.0 {
      MulNonneg(-q, whole);
    }
  }

  /** `ind_fuel_over_l`: liters above the upper bound, never negative. */
  function OverLiters(actual: real, high: real): (o: real)
    ensures o >= 0.0 && o >= actual - high
    ensures o == 0.0 || o == actual - high
  {
    Max(actual - high, 0.0)
  }

  /** `ind_fuel_under_l`: liters below the lower bound, forced to 0 for a
      vehicle with no positive recorded fuel. */
  function UnderLiters(actual: real, low: real): (u: real)
    ensures u >= 0.0
    ensures actual <= 0.0 ==> u == 0.0
    ensures actual > 0.0 ==> u >= low - actual && (u == 0.0 || u == low - actual)
  {
    if actual <= 0.0 then 0.0 else Max(low - actual, 0.0)
  }

  // ---------------------------------------------------------------------
  // Station concentration

  /** `n / (n + k)`, 0 for the 0/0 case. */
  function SampleWeight(n: nat, k: nat): (w: real)
    ensures 0.0 <= w <= 1.0
    ensures n == 0 <==> w == 0.0
    ensures k > 0 ==> w < 1.0
    ensures n + k > 0 ==> w * (n + k) as real == n as real
  {
    if n + k == 0 then 0.0 else n as real / (n + k) as real
  }

  /** More transactions never lower the sample-size weight. */
  lemma SampleWeightMonotone(n1: nat, n2: nat, k: nat)
    requires n1 <= n2
    ensures SampleWeight(n1, k) <= SampleWeight(n2, k)
  {
    if n1 > 0 {
      var x, y, c := n1 as real, n2 as real, k as real;
      assert SampleWeight(n1, k) == 1.0 - c / (x + c) by {
        assert x / (x + c) + c / (x + c) == 1.0;
      }
      assert SampleWeight(n2, k) == 1.0 - c / (y + c) by {
        assert y / (y + c) + c / (y + c) == 1.0;
      }
      DivByLarger(c, x + c, y + c);
    }
  }

  /** The share's excess over the baseline, scaled to [0,1]. */
  function RawConcentration(share: real, baseline: real): (c: real)
    requires baseline < 1.0
    ensures 0.0 <= c <= 1.0
    ensures share <= baseline <==> c == 0.0
    ensures share >= 1.0 ==> c == 1.0
    ensures baseline < share < 1.0 ==> c * (1.0 - baseline) == share - baseline
  {
    var d := 1.0 - baseline;
    assert share > baseline ==> (share - baseline) / d > 0.0;
    assert share >= 1.0 ==> (share - baseline) / d >= 1.0 by {
      if share >= 1.0 {
        DivMonotone(d, share - baseline, d);
        assert d / d == 1.0;
      }
    }
    Clip((share - baseline) / d, 0.0, 1.0)
  }

  lemma RawConcentrationMonotone(s1: real, s2: real, baseline: real)
    requires baseline < 1.0 && s1 <= s2
    ensures RawConcentration(s1, baseline) <= RawConcentration(s2, baseline)
  {
    var d := 1.0 - baseline;
    assert (s1 - baseline) / d <= (s2 - baseline) / d by {
      assert (s2 - baseline) / d - (s1 - baseline) / d == (s2 - s1) / d;
    }
    ClipMonotone((s1 - baseline) / d, (s2 - baseline) / d, 0.0, 1.0);
  }

  /** `score_station_conc`: the raw concentration damped by the sample-size
      weight. It lies in [0,1), is 0 at or below the baseline share and
      equals the weight at full concentration. */
  function StationConcentration(share: real, n: nat, baseline: real, k: nat): (c: real)
    requires baseline < 1.0
    ensures 0.0 <= c <= 1.0
    ensures k > 0 ==> c < 1.0
    ensures share <= baseline ==> c == 0.0
    ensures share >= 1.0 ==> c == SampleWeight(n, k)
    ensures n == 0 ==> c == 0.0
    ensures c == RawConcentration(share, baseline) * SampleWeight(n, k)
  {
    RawConcentration(share, baseline) * SampleWeight(n, k)
  }

  /** Monotone in the share for a fixed transaction count. */
  lemma StationConcentrationMonotoneInShare(s1: real, s2: real, n: nat, baseline: real, k: nat)
    requires baseline < 1.0 && s1 <= s2
    ensures StationConcentration(s1, n, baseline, k) <= StationConcentration(s2, n, baseline, k)
  {
    RawConcentrationMonotone(s1, s2, baseline);
    var r1, r2, w := RawConcentration(s1, baseline), RawConcentration(s2, baseline), SampleWeight(n, k);
    MulMonotone(w, r1, r2);
    calc {
      StationConcentration(s1, n, baseline, k);
    ==
      r1 * w;
    <=
      r2 * w;
    ==
      StationConcentration(s2, n, baseline, k);
    }
  }

  /** Monotone in the transaction count for a fixed share. */
  lemma StationConcentrationMonotoneInCount(share: real, n1: nat, n2: nat, baseline: real, k: nat)
    requires baseline < 1.0 && n1 <= n2
    ensures StationConcentration(share, n1, baseline, k) <= StationConcentration(share, n2, baseline, k)
  {
    var w1, w2 := SampleWeight(n1, k), SampleWeight(n2, k);
    SampleWeightMonotone(n1, n2, k);
    var r := RawConcentration(share, baseline);
    MulMonotone(r, w1, w2);
    calc {
      StationConcentration(share, n1, baseline, k);
    ==
      r * w1;
    <=
      r * w2;
    ==
      StationConcentration(share, n2, baseline, k);
    }
  }

  /** A value damped by a factor in [0,1] that still reaches `t` needs a
      weight of at least `t`. */
  lemma DampedAtMostWeight(r: real, w: real, t: real)
    requires 0.0 <= r <= 1.0 && w >= 0.0 && r * w >= t
    ensures w >= t
  {
    MulNonneg(1.0 - r, w);
    assert w - r * w == (1.0 - r) * w;
  }

  /** With the default k = 6 a concentration of at least 0.6 needs at least
      nine transactions, whatever the share. */
  lemma ConcentrationTagNeedsNineRefuels(share: real, n: nat, baseline: real)
    requires baseline < 1.0
    requires StationConcentration(share, n, baseline, 6) >= 0.6
    ensures n >= 9
  {
    var w := SampleWeight(n, 6);
    var m := (n + 6) as real;
    DampedAtMostWeight(RawConcentration(share, baseline), w, 0.6);
    assert w * m == n as real;
    MulNonneg(w - 0.6, m);
    assert w * m - 0.6 * m == (w - 0.6) * m;
    assert 0.4 * (n as real) >= 3.6;
  }

  /** Worked examples of the default constants 0.10/0.60/6: 1000 km at
      10 km/L with tolerance 0.10 expects 100 L within [90, 110]; five
      purchases all at one station score 5/11, below the 0.6 reason
      threshold. */
  lemma DefaultRuleExamples()
    ensures ExpectedFuel(1000.0, Some(10.0)) == 100.0
    ensures ExpectedBounds(100.0, DefaultRules.tolerance) == Bounds(90.0, 110.0)
    ensures StationConcentration(1.0, 5, DefaultRules.stationBaseline, DefaultRules.stationK) == 5.0 / 11.0 < 0.6
  {
  }

  // ---------------------------------------------------------------------
  // All indicators of one vehicle

  datatype Indicators = Indicators(
    expectedFuelL: real,
    expectedLow: real,
    expectedHigh: real,
    overTank: bool,
    overTankCnt: nat,
    maxDailyRefuel: nat,
    fuelRatio: real,
    fuelOverL: real,
    fuelUnderL: real,
    stationMaxShare: real,
    stationConc: real)

  /** Every indicator of one summary row. */
  function ComputeIndicators(p: RuleParams, profile: ProfileTable, b: BaseSummary, txs: seq<FuelTx>): (ind: Indicators)
    requires p.Valid()
    ensures ind.expectedFuelL == ExpectedFuel(b.totalDistanceKm, b.profile.avgEffKmPerL)
    ensures p.tolerance >= 0.0 && ind.expectedFuelL >= 0.0 ==> ind.expectedLow <= ind.expectedFuelL <= ind.expectedHigh
    ensures ind.overTank <==> ind.overTankCnt > 0
    ensures ind.overTank ==> TankCapacityColumn in profile.columns
    ensures ind.maxDailyRefuel <= CountTx(txs, VehicleOf(b), AllRows)
    ensures forall k :: GroupSize(txs, VehicleOf(b), ByDate, k) <= ind.maxDailyRefuel
    ensures ind.maxDailyRefuel == MaxGroupSize(txs, VehicleOf(b), ByDate)
    ensures ind.overTank <==> TankCapacityColumn in profile.columns && AnyOverTank(txs, VehicleOf(b), CapacityOf(profile, VehicleOf(b)))
    ensures TankCapacityColumn in profile.columns ==> ind.overTankCnt == OverTankCount(txs, VehicleOf(b), CapacityOf(profile, VehicleOf(b)))
    ensures ind.expectedLow == ExpectedBounds(ind.expectedFuelL, p.tolerance).low
    ensures ind.expectedHigh == ExpectedBounds(ind.expectedFuelL, p.tolerance).high
    ensures IsRatioOf(ind.fuelRatio, b.actualFuelL, ind.expectedFuelL)
    ensures ind.fuelOverL >= 0.0 && ind.fuelUnderL >= 0.0
    ensures b.actualFuelL <= 0.0 ==> ind.fuelUnderL == 0.0
    ensures ind.fuelUnderL == UnderLiters(b.actualFuelL, ind.expectedLow)
    ensures ind.fuelOverL == OverLiters(b.actualFuelL, ind.expectedHigh)
    ensures ind.stationMaxShare == StationMaxShare(txs, VehicleOf(b))
    ensures ind.stationConc == StationConcentration(ind.stationMaxShare, b.refuelCnt, p.stationBaseline, p.stationK)
    ensures 0.0 <= ind.stationMaxShare <= 1.0
    ensures 0.0 <= ind.stationConc <= 1.0
    ensures p.stationK > 0 ==> ind.stationConc < 1.0
    ensures ind.stationMaxShare <= p.stationBaseline ==> ind.stationConc == 0.0
  {
    var v := VehicleOf(b);
    var e := ExpectedFuel(b.totalDistanceKm, b.profile.avgEffKmPerL);
    var bounds := ExpectedBounds(e, p.tolerance);
    var ot := OverTankIndicator(profile, v, txs);
    var share := StationMaxShare(txs, v);
    MaxDailyAtMostRefuels(txs, v);
    Indicators(
      e, bounds.low, bounds.high,
      ot.flag, ot.count,
      MaxGroupSize(txs, v, ByDate),
      SafeRatio(b.actualFuelL, e),
      OverLiters(b.actualFuelL, bounds.high),
      UnderLiters(b.actualFuelL, bounds.low),
      share,
      StationConcentration(share, b.refuelCnt, p.stationBaseline, p.stationK))
  }
}
