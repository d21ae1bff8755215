/** The Aggregator: reduces telemetry and fuel-transaction rows to one
    summary row per profile vehicle (`load_and_build_summary` in pipeline.py,
    repeated in anomaly_pipeline.py). Each `groupby(...).agg(...)` is a left
    fold into a map, checked against a per-vehicle reference sum or count. */
module Aggregation {
  import opened Wrappers
  import opened Records

  // ---------------------------------------------------------------------
  // Telemetry aggregate

  datatype Measure = Distance | DriveTime | IdleTime

  function Reading(r: TelemetryRow, m: Measure): Option<real> {
    match m
    case Distance => r.distanceKm
    case DriveTime => r.driveTimeHr
    case IdleTime => r.idleTimeMin
  }

  /** Reference: sum of one measure over the vehicle's rows, missing cells
      skipped as pandas' `sum` skips NaN. */
  function TelemetryTotal(rows: seq<TelemetryRow>, v: VehicleId, m: Measure): real
    decreases |rows|
  {
    if |rows| == 0 then 0.0
    else
      var last := rows[|rows| - 1];
      TelemetryTotal(rows[..|rows| - 1], v, m)
        + (if last.vehicleId == v then Reading(last, m).GetOr(0.0) else 0.0)
  }

  predicate HasTelemetry(rows: seq<TelemetryRow>, v: VehicleId) {
    exists i :: 0 <= i < |rows| && rows[i].vehicleId == v
  }

  /** A vehicle without telemetry rows totals 0 on every measure. */
  lemma {:induction false} TelemetryTotalWithoutRows(rows: seq<TelemetryRow>, v: VehicleId, m: Measure)
    requires !HasTelemetry(rows, v)
    ensures TelemetryTotal(rows, v, m) == 0.0
    decreases |rows|
  {
    if |rows| > 0 {
      var init := rows[..|rows| - 1];
      assert !HasTelemetry(init, v) by {
        forall i | 0 <= i < |init| ensures init[i].vehicleId != v {
          assert init[i] == rows[i];
        }
      }
      TelemetryTotalWithoutRows(init, v, m);
    }
  }

  datatype TelemetryAgg = TelemetryAgg(distanceKm: real, driveTimeHr: real, idleTimeMin: real)

  function TotalsOf(rows: seq<TelemetryRow>, v: VehicleId): TelemetryAgg {
    TelemetryAgg(TelemetryTotal(rows, v, Distance), TelemetryTotal(rows, v, DriveTime),
                 TelemetryTotal(rows, v, IdleTime))
  }

  /** A vehicle has telemetry iff it had some before the last row or the
      last row is its. */
  lemma HasTelemetrySnoc(rows: seq<TelemetryRow>)
    requires |rows| > 0
    ensures forall v :: HasTelemetry(rows, v) <==>
      HasTelemetry(rows[..|rows| - 1], v) || v == rows[|rows| - 1].vehicleId
  {
    var init := rows[..|rows| - 1];
    forall v | HasTelemetry(init, v) ensures HasTelemetry(rows, v) {
      var i :| 0 <= i < |init| && init[i].vehicleId == v;
      assert rows[i] == init[i];
    }
  }

  /** `dtg.groupby("vehicle_id").agg(sum, sum, sum)`: one entry per vehicle
      that has rows, holding that vehicle's totals. */
  function GroupTelemetry(rows: seq<TelemetryRow>): (m: map<VehicleId, TelemetryAgg>)
    ensures forall v :: v in m <==> HasTelemetry(rows, v)
    ensures forall v :: v in m ==> m[v] == TotalsOf(rows, v)
    decreases |rows|
  {
    if |rows| == 0 then map[]
    else
      var init := rows[..|rows| - 1];
      var acc := GroupTelemetry(init);
      var r := rows[|rows| - 1];
      var prev := if r.vehicleId in acc then acc[r.vehicleId] else TelemetryAgg(0.0, 0.0, 0.0);
      var m := acc[r.vehicleId := TelemetryAgg(
        prev.distanceKm + Reading(r, Distance).GetOr(0.0),
        prev.driveTimeHr + Reading(r, DriveTime).GetOr(0.0),
        prev.idleTimeMin + Reading(r, IdleTime).GetOr(0.0))];
      HasTelemetrySnoc(rows);
      assert forall u :: u in m ==> m[u] == TotalsOf(rows, u) by {
        forall u | u in m ensures m[u] == TotalsOf(rows, u) {
          if u == r.vehicleId && u !in acc {
            TelemetryTotalWithoutRows(init, u, Distance);
            TelemetryTotalWithoutRows(init, u, DriveTime);
            TelemetryTotalWithoutRows(init, u, IdleTime);
          }
        }
      }
      m
  }

  // ---------------------------------------------------------------------
  // Fuel-transaction aggregate

  /** Which of a vehicle's transactions a count takes in. */
  datatype TxCount =
    | AllRows   // `size()`: every row
    | WithId    // `count` of `transaction_id`: rows whose id is not null
    | AtNight   // `sum` of `is_night`

  predicate Counted(t: FuelTx, c: TxCount) {
    match c
    case AllRows => true
    case WithId => t.transactionId.Some?
    case AtNight => IsNight(t)
  }

  /** Reference: how many of the vehicle's transactions the count takes in. */
  function CountTx(txs: seq<FuelTx>, v: VehicleId, c: TxCount): nat
    decreases |txs|
  {
    if |txs| == 0 then 0
    else
      var last := txs[|txs| - 1];
      CountTx(txs[..|txs| - 1], v, c) + (if last.vehicleId == v && Counted(last, c) then 1 else 0)
  }

  /** Reference: the vehicle's liters, unparseable amounts counting as 0. */
  function FuelTotal(txs: seq<FuelTx>, v: VehicleId): real
    decreases |txs|
  {
    if |txs| == 0 then 0.0
    else
      var last := txs[|txs| - 1];
      FuelTotal(txs[..|txs| - 1], v) + (if last.vehicleId == v then Liters(last) else 0.0)
  }

  predicate HasTx(txs: seq<FuelTx>, v: VehicleId) {
    exists i :: 0 <= i < |txs| && txs[i].vehicleId == v
  }

  /** A vehicle without transactions has no liters and no counted rows. */
  lemma {:induction false} FuelWithoutRows(txs: seq<FuelTx>, v: VehicleId)
    requires !HasTx(txs, v)
    ensures FuelTotal(txs, v) == 0.0
    ensures forall c :: CountTx(txs, v, c) == 0
    decreases |txs|
  {
    if |txs| > 0 {
      var init := txs[..|txs| - 1];
      assert !HasTx(init, v) by {
        forall i | 0 <= i < |init| ensures init[i].vehicleId != v {
          assert init[i] == txs[i];
        }
      }
      FuelWithoutRows(init, v);
    }
  }

  datatype FuelAgg = FuelAgg(actualFuelL: real, refuelCnt: nat, nightRefuelCnt: nat)

  function FuelOf(txs: seq<FuelTx>, v: VehicleId): FuelAgg {
    FuelAgg(FuelTotal(txs, v), CountTx(txs, v, WithId), CountTx(txs, v, AtNight))
  }

  /** A vehicle has transactions iff it had some before the last one or the
      last one is its. */
  lemma HasTxSnoc(txs: seq<FuelTx>)
    requires |txs| > 0
    ensures forall v :: HasTx(txs, v) <==> HasTx(txs[..|txs| - 1], v) || v == txs[|txs| - 1].vehicleId
  {
    var init := txs[..|txs| - 1];
    forall v | HasTx(init, v) ensures HasTx(txs, v) {
      var i :| 0 <= i < |init| && init[i].vehicleId == v;
      assert txs[i] == init[i];
    }
  }

  /** `fuel.groupby("vehicle_id").agg(sum, count, sum)`: one entry per vehicle
      that has transactions, holding its liters, id count and night count. */
  function GroupFuel(txs: seq<FuelTx>): (m: map<VehicleId, FuelAgg>)
    ensures forall v :: v in m <==> HasTx(txs, v)
    ensures forall v :: v in m ==> m[v] == FuelOf(txs, v)
    decreases |txs|
  {
    if |txs| == 0 then map[]
    else
      var init := txs[..|txs| - 1];
      var acc := GroupFuel(init);
      var t := txs[|txs| - 1];
      var prev := if t.vehicleId in acc then acc[t.vehicleId] else FuelAgg(0.0, 0, 0);
      var m := acc[t.vehicleId := FuelAgg(
        prev.actualFuelL + Liters(t),
        prev.refuelCnt + (if Counted(t, WithId) then 1 else 0),
        prev.nightRefuelCnt + (if Counted(t, AtNight) then 1 else 0))];
      HasTxSnoc(txs);
      assert forall u :: u in m ==> m[u] == FuelOf(txs, u) by {
        forall u | u in m ensures m[u] == FuelOf(txs, u) {
          if u == t.vehicleId && u !in acc {
            FuelWithoutRows(init, u);
          }
          assert FuelTotal(txs, u) == FuelTotal(init, u) + (if t.vehicleId == u then Liters(t) else 0.0);
          assert CountTx(txs, u, WithId) == CountTx(init, u, WithId) + (if t.vehicleId == u && Counted(t, WithId) then 1 else 0);
          assert CountTx(txs, u, AtNight) == CountTx(init, u, AtNight) + (if t.vehicleId == u && Counted(t, AtNight) then 1 else 0);
        }
      }
      m
  }

  /** Counting with a filter never finds more than all the vehicle's rows. */
  lemma {:induction false} CountTxAtMostRows(txs: seq<FuelTx>, v: VehicleId, c: TxCount)
    ensures CountTx(txs, v, c) <= CountTx(txs, v, AllRows)
    decreases |txs|
  {
    if |txs| > 0 {
      CountTxAtMostRows(txs[..|txs| - 1], v, c);
    }
  }

  /** When every transaction of the vehicle carries an id, the night count
      is at most the refuel count. */
  lemma {:induction false} NightAtMostRefuels(txs: seq<FuelTx>, v: VehicleId)
    requires forall i :: 0 <= i < |txs| && txs[i].vehicleId == v ==> txs[i].transactionId.Some?
    ensures CountTx(txs, v, AtNight) <= CountTx(txs, v, WithId)
    decreases |txs|
  {
    if |txs| > 0 {
      var init := txs[..|txs| - 1];
      forall i | 0 <= i < |init| && init[i].vehicleId == v
        ensures init[i].transactionId.Some?
      {
        assert init[i] == txs[i];
      }
      NightAtMostRefuels(init, v);
    }
  }

  // ---------------------------------------------------------------------
  // Left join onto the profile

  /** The base summary row of one vehicle. Drive and idle totals stay NaN
      (`None`) for a vehicle without telemetry: only distance, liters and
      the two counts are filled with 0 after the join. */
  datatype BaseSummary = BaseSummary(
    profile: VehicleProfile,
    totalDistanceKm: real,
    totalDriveTimeHr: Option<real>,
    totalIdleTimeMin: Option<real>,
    actualFuelL: real,
    refuelCnt: nat,
    nightRefuelCnt: nat)

  /** Columns the summary holds beyond the profile's own. */
  const AggregateColumns: set<string> := {
    "total_distance_km", "total_drive_time_hr", "total_idle_time_min",
    "actual_fuel_l", "refuel_cnt", "night_refuel_cnt", "avg_eff_km_per_l" }

  /** A numeric cell of the summary by column name. Text columns read as
      unparseable. */
  function SummaryCell(b: BaseSummary, col: string): Option<real> {
    if col == "total_distance_km" then Some(b.totalDistanceKm)
    else if col == "total_drive_time_hr" then b.totalDriveTimeHr
    else if col == "total_idle_time_min" then b.totalIdleTimeMin
    else if col == "actual_fuel_l" then Some(b.actualFuelL)
    else if col == "refuel_cnt" then Some(b.refuelCnt as real)
    else if col == "night_refuel_cnt" then Some(b.nightRefuelCnt as real)
    else if col == "avg_eff_km_per_l" then b.profile.avgEffKmPerL
    else if col == TonClassColumn then b.profile.tonClass
    else if col == TankCapacityColumn then b.profile.tankCapacityL
    else if col in b.profile.numericCells then b.profile.numericCells[col]
    else None
  }

  function VehicleOf(b: BaseSummary): VehicleId {
    b.profile.vehicleId
  }

  /** One profile row left-joined with both aggregate maps. */
  function JoinRow(p: VehicleProfile, tm: map<VehicleId, TelemetryAgg>, fm: map<VehicleId, FuelAgg>): BaseSummary {
    var v := p.vehicleId;
    BaseSummary(
      p,
      if v in tm then tm[v].distanceKm else 0.0,
      if v in tm then Some(tm[v].driveTimeHr) else None,
      if v in tm then Some(tm[v].idleTimeMin) else None,
      if v in fm then fm[v].actualFuelL else 0.0,
      if v in fm then fm[v].refuelCnt else 0,
      if v in fm then fm[v].nightRefuelCnt else 0)
  }

  /** `veh.merge(dtg_agg, how="left").merge(fuel_agg, how="left")` followed by
      the zero fills: every profile row appears once, in profile order, with
      its own totals and counts. */
  function BuildSummary(profile: seq<VehicleProfile>, tele: seq<TelemetryRow>, txs: seq<FuelTx>): (s: seq<BaseSummary>)
    ensures |s| == |profile|
    ensures forall i :: 0 <= i < |s| ==> s[i].profile == profile[i]
    ensures forall i :: 0 <= i < |s| ==>
      var v := profile[i].vehicleId;
      && s[i].totalDistanceKm == TelemetryTotal(tele, v, Distance)
      && s[i].totalDriveTimeHr == (if HasTelemetry(tele, v) then Some(TelemetryTotal(tele, v, DriveTime)) else None)
      && s[i].totalIdleTimeMin == (if HasTelemetry(tele, v) then Some(TelemetryTotal(tele, v, IdleTime)) else None)
      && s[i].actualFuelL == FuelTotal(txs, v)
      && s[i].refuelCnt == CountTx(txs, v, WithId)
      && s[i].nightRefuelCnt == CountTx(txs, v, AtNight)
    ensures UniqueIds(profile) ==> forall i, j :: 0 <= i < j < |s| ==> VehicleOf(s[i]) != VehicleOf(s[j])
  {
    var tm := GroupTelemetry(tele);
    var fm := GroupFuel(txs);
    var s := seq(|profile|, i requires 0 <= i < |profile| => JoinRow(profile[i], tm, fm));
    assert forall i :: 0 <= i < |s| ==>
      var v := profile[i].vehicleId;
      && s[i].totalDistanceKm == TelemetryTotal(tele, v, Distance)
      && s[i].actualFuelL == FuelTotal(txs, v)
      && s[i].refuelCnt == CountTx(txs, v, WithId)
      && s[i].nightRefuelCnt == CountTx(txs, v, AtNight)
    by {
      forall i | 0 <= i < |s|
        ensures var v := profile[i].vehicleId;
          && s[i].totalDistanceKm == TelemetryTotal(tele, v, Distance)
          && s[i].actualFuelL == FuelTotal(txs, v)
          && s[i].refuelCnt == CountTx(txs, v, WithId)
          && s[i].nightRefuelCnt == CountTx(txs, v, AtNight)
      {
        var v := profile[i].vehicleId;
        if v !in tm {
          TelemetryTotalWithoutRows(tele, v, Distance);
        }
        if v !in fm {
          FuelWithoutRows(txs, v);
        }
      }
    }
    s
  }

  /** A profile vehicle with neither telemetry nor transactions gets zero
      distance, zero liters and integer zero counts. */
  lemma IdleVehicleDefaults(profile: seq<VehicleProfile>, tele: seq<TelemetryRow>, txs: seq<FuelTx>, i: int)
    requires 0 <= i < |profile|
    requires !HasTelemetry(tele, profile[i].vehicleId) && !HasTx(txs, profile[i].vehicleId)
    ensures var b := BuildSummary(profile, tele, txs)[i];
      && b.totalDistanceKm == 0.0 && b.actualFuelL == 0.0
      && b.refuelCnt == 0 && b.nightRefuelCnt == 0
      && b.totalDriveTimeHr.None? && b.totalIdleTimeMin.None?
  {
    TelemetryTotalWithoutRows(tele, profile[i].vehicleId, Distance);
    FuelWithoutRows(txs, profile[i].vehicleId);
  }
}
