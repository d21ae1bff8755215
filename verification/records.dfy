/** The three already-parsed input tables of the analytics core: vehicle
    profile, daily telemetry (DTG) and fuel transactions. Unparseable cells
    are `None`. */
module Records {
  import opened Wrappers

  type VehicleId = string
  type StationId = string

  /** A transaction time after parsing: a calendar day (as a day number) and
      the hour of day. */
  datatype Timestamp = Timestamp(date: int, hour: int)

  /** One profile row. `numericCells` holds the profile's further numeric
      columns by name (for instance `subsidy_cap_l`). */
  datatype VehicleProfile = VehicleProfile(
    vehicleId: VehicleId,
    vehicleNo: string,
    tonClass: Option<real>,
    fuelType: string,
    avgEffKmPerL: Option<real>,
    tankCapacityL: Option<real>,
    numericCells: map<string, Option<real>>)

  /** The profile table with the set of column names it was read with. */
  datatype ProfileTable = ProfileTable(columns: set<string>, rows: seq<VehicleProfile>)

  /** One telemetry row (one vehicle-day). */
  datatype TelemetryRow = TelemetryRow(
    vehicleId: VehicleId,
    distanceKm: Option<real>,
    driveTimeHr: Option<real>,
    idleTimeMin: Option<real>)

  /** One fuel purchase. */
  datatype FuelTx = FuelTx(
    transactionId: Option<string>,
    vehicleId: VehicleId,
    stationId: Option<StationId>,
    time: Option<Timestamp>,
    fuelLiter: Option<real>)

  const TankCapacityColumn: string := "tank_capacity_l"
  const TonClassColumn: string := "ton_class"

  /** `vehicle_id` is a key of the profile table. */
  predicate UniqueIds(rows: seq<VehicleProfile>) {
    forall i, j :: 0 <= i < j < |rows| ==> rows[i].vehicleId != rows[j].vehicleId
  }

  /** Liters of a purchase after `to_numeric(errors="coerce").fillna(0)`. */
  function Liters(t: FuelTx): real {
    t.fuelLiter.GetOr(0.0)
  }

  /** A purchase is at night when its hour is 23 or before 6; a purchase whose
      time did not parse is never at night (NaN compares false). */
  predicate IsNight(t: FuelTx) {
    t.time.Some? && (t.time.value.hour >= 23 || t.time.value.hour < 6)
  }

  /** The profile row `Series.map` finds for `v` (the first one with that id). */
  function FindProfile(rows: seq<VehicleProfile>, v: VehicleId): (r: Option<VehicleProfile>)
    ensures r.Some? ==> r.value in rows && r.value.vehicleId == v
    ensures r.None? ==> forall i :: 0 <= i < |rows| ==> rows[i].vehicleId != v
  {
    if |rows| == 0 then None
    else if rows[0].vehicleId == v then Some(rows[0])
    else FindProfile(rows[1..], v)
  }

  /** With unique ids the lookup of a row's own id finds that row. */
  lemma {:induction false} FindProfileOwnRow(rows: seq<VehicleProfile>, i: int)
    requires UniqueIds(rows) && 0 <= i < |rows|
    ensures FindProfile(rows, rows[i].vehicleId) == Some(rows[i])
  {
    if i > 0 {
      assert rows[0].vehicleId != rows[i].vehicleId;
      assert rows[1..][i - 1] == rows[i];
      FindProfileOwnRow(rows[1..], i - 1);
    }
  }
}
