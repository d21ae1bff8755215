/** The Risk Scorer (second half of `apply_baseline_rules` in
    rules_baseline.py, repeated in anomaly_pipeline.py): five capped
    sub-scores, their clipped and rounded total, a four-level tier and the
    `|`-joined reason string. */
module Scoring {
  import opened Numeric
  import opened Wrappers
  import opened Indicators

  // ---------------------------------------------------------------------
  // Sub-scores

  /** 25 for any over-tank purchase plus 5 per such purchase, at most three
      counted. */
  function OverTankScore(flag: bool, cnt: nat): (s: real)
    ensures 0.0 <= s <= 40.0
    ensures flag <==> s >= 25.0
    ensures s == 40.0 <==> flag && cnt >= 3
    ensures s == 0.0 <==> !flag && cnt == 0
  {
    (if flag then 25.0 else 0.0) + 5.0 * (if cnt < 3 then cnt else 3) as real
  }

  /** The flag is worth 25 points, and each over-tank purchase 5 more up
      to the third; one purchase over the tank therefore scores 30. */
  lemma OverTankScoreSteps(flag: bool, cnt: nat)
    ensures OverTankScore(true, cnt) == OverTankScore(false, cnt) + 25.0
    ensures OverTankScore(flag, cnt + 1) == OverTankScore(flag, cnt) + (if cnt < 3 then 5.0 else 0.0)
    ensures OverTankScore(true, 1) == 30.0
  {
  }

  /** Step function of the busiest day's refuel count. */
  function DailyRefuelScore(m: nat): (s: real)
    ensures s == 0.0 || s == 10.0 || s == 20.0 || s == 30.0
    ensures s == 0.0 <==> m <= 2
    ensures s == 10.0 <==> m == 3
    ensures s == 20.0 <==> m == 4
    ensures s == 30.0 <==> m >= 5
  {
    if m <= 2 then 0.0
    else if m == 3 then 10.0
    else if m == 4 then 20.0
    else 30.0
  }

  lemma DailyRefuelScoreMonotone(m1: nat, m2: nat)
    requires m1 <= m2
    ensures DailyRefuelScore(m1) <= DailyRefuelScore(m2)
  {
  }

  /** 0 up to a ratio of 1.10, a linear ramp reaching 30 at exactly 1.50,
      and a flat 40 above 1.50 (a deliberate jump). */
  function FuelOverScore(r: real): (s: real)
    ensures 0.0 <= s <= 40.0
    ensures s == 0.0 <==> r <= 1.10
    ensures 1.10 < r <= 1.50 ==> 0.0 < s <= 30.0
    ensures s == 30.0 <==> r == 1.50
    ensures s == 40.0 <==> r > 1.50
  {
    if r <= 1.10 then 0.0
    else if r <= 1.50 then (r - 1.10) / (1.50 - 1.10) * 30.0
    else 40.0
  }

  /** On the ramp the score grows by 75 points per unit of ratio. */
  lemma FuelOverScoreRamp(r1: real, r2: real)
    requires 1.10 < r1 <= 1.50 && 1.10 < r2 <= 1.50
    ensures FuelOverScore(r2) - FuelOverScore(r1) == 75.0 * (r2 - r1)
  {
  }

  /** A larger ratio never scores lower, the jump at 1.50 included. */
  lemma FuelOverScoreMonotone(r1: real, r2: real)
    requires r1 <= r2
    ensures FuelOverScore(r1) <= FuelOverScore(r2)
  {
    if 1.10 < r1 <= 1.50 && r2 <= 1.50 {
      FuelOverScoreRamp(r1, r2);
    }
  }

  /** The under-fuel liters relative to the expected fuel, times 10, capped
      to [0,10]; 0 when nothing is expected. */
  function FuelUnderScore(under: real, expected: real): (s: real)
    ensures 0.0 <= s <= 10.0
    ensures expected == 0.0 || under == 0.0 ==> s == 0.0
    ensures expected > 0.0 && under >= expected ==> s == 10.0
    ensures expected > 0.0 && 0.0 <= under <= expected ==> s * expected == 10.0 * under
  {
    if expected == 0.0 then 0.0
    else
      var x := under / expected * 10.0;
      assert expected > 0.0 && under >= expected ==> x >= 10.0 by {
        if expected > 0.0 && under >= expected {
          DivMonotone(expected, under, expected);
          assert expected / expected == 1.0;
        }
      }
      assert expected > 0.0 && 0.0 <= under <= expected ==> 0.0 <= x <= 10.0 by {
        if expected > 0.0 && 0.0 <= under <= expected {
          PartOverWhole(under, expected);
        }
      }
      Clip(x, 0.0, 10.0)
  }

  /** The station concentration on a 15-point scale. */
  function StationScore(conc: real): (s: real)
    ensures 0.0 <= conc <= 1.0 ==> 0.0 <= s <= 15.0
    ensures 0.0 <= conc < 1.0 ==> s < 15.0
    ensures s == 0.0 <==> conc == 0.0
    ensures conc == 1.0 ==> s == 15.0
  {
    conc * 15.0
  }

  /** The station score grows by 15 points per unit of concentration. */
  lemma StationScoreLinear(c1: real, c2: real)
    ensures StationScore(c2) - StationScore(c1) == 15.0 * (c2 - c1)
  {
  }

  datatype SubScores = SubScores(
    overTank: real,
    dailyRefuel: real,
    fuelOver: real,
    fuelUnder: real,
    station: real)

  function Total(s: SubScores): real {
    s.overTank + s.dailyRefuel + s.fuelOver + s.fuelUnder + s.station
  }

  /** The unrounded sub-scores of one vehicle. */
  function RawScores(ind: Indicators): (s: SubScores)
    ensures 0.0 <= s.overTank <= 40.0 && 0.0 <= s.dailyRefuel <= 30.0
    ensures 0.0 <= s.fuelOver <= 40.0 && 0.0 <= s.fuelUnder <= 10.0
    ensures 0.0 <= ind.stationConc <= 1.0 ==> 0.0 <= s.station <= 15.0
    ensures ind.expectedFuelL == 0.0 ==> s.fuelUnder == 0.0
  {
    SubScores(
      OverTankScore(ind.overTank, ind.overTankCnt),
      DailyRefuelScore(ind.maxDailyRefuel),
      FuelOverScore(ind.fuelRatio),
      FuelUnderScore(ind.fuelUnderL, ind.expectedFuelL),
      StationScore(ind.stationConc))
  }

  /** The published sub-scores, each rounded to two decimals and so within
      half a cent of its unrounded value. */
  function RoundScores(s: SubScores): (r: SubScores)
    ensures r.overTank == Round2(s.overTank) && r.dailyRefuel == Round2(s.dailyRefuel)
    ensures r.fuelOver == Round2(s.fuelOver) && r.fuelUnder == Round2(s.fuelUnder)
    ensures r.station == Round2(s.station)
    ensures s.overTank - 0.005 <= r.overTank <= s.overTank + 0.005
    ensures s.dailyRefuel - 0.005 <= r.dailyRefuel <= s.dailyRefuel + 0.005
    ensures s.fuelOver - 0.005 <= r.fuelOver <= s.fuelOver + 0.005
    ensures s.fuelUnder - 0.005 <= r.fuelUnder <= s.fuelUnder + 0.005
    ensures s.station - 0.005 <= r.station <= s.station + 0.005
  {
    SubScores(Round2(s.overTank), Round2(s.dailyRefuel), Round2(s.fuelOver),
              Round2(s.fuelUnder), Round2(s.station))
  }

  /** `risk_score`: the total clipped to [0,100] and rounded to two
      decimals. Inside the range it is within half a cent of the total;
      above it, exactly 100. */
  function RiskScore(s: SubScores): (r: real)
    ensures 0.0 <= r <= 100.0
    ensures 0.0 <= Total(s) <= 100.0 ==> Total(s) - 0.005 <= r <= Total(s) + 0.005
    ensures Total(s) >= 100.0 ==> r == 100.0
    ensures Total(s) <= 0.0 ==> r == 0.0
  {
    var c := Clip(Total(s), 0.0, 100.0);
    Round2Between(c, 0, 100);
    Round2OfInteger(100);
    Round2OfInteger(0);
    Round2(c)
  }

  // ---------------------------------------------------------------------
  // Tier

  datatype Tier = High | Medium | Low | NoRisk

  /** The tier of a score: HIGH from 70, MEDIUM from 40, LOW from 20,
      NONE below. */
  function TierOf(score: real): (t: Tier)
    ensures t == High <==> score >= 70.0
    ensures t == Medium <==> 40.0 <= score < 70.0
    ensures t == Low <==> 20.0 <= score < 40.0
    ensures t == NoRisk <==> score < 20.0
  {
    if score >= 70.0 then High
    else if score >= 40.0 then Medium
    else if score >= 20.0 then Low
    else NoRisk
  }

  function TierLabel(t: Tier): string {
    match t
    case High => "HIGH"
    case Medium => "MEDIUM"
    case Low => "LOW"
    case NoRisk => "NONE"
  }

  function TierRank(t: Tier): nat {
    match t
    case NoRisk => 0
    case Low => 1
    case Medium => 2
    case High => 3
  }

  /** A higher score never gets a lower tier. */
  lemma TierMonotone(s1: real, s2: real)
    requires s1 <= s2
    ensures TierRank(TierOf(s1)) <= TierRank(TierOf(s2))
  {
  }

  // ---------------------------------------------------------------------
  // Reason string

  /** The five reason tags, declared in their fixed reporting order. */
  datatype ReasonTag = OverTankTag | ManyRefuelsTag | FuelOverTag | StationTag | FuelUnderTag

  function TagText(t: ReasonTag): (s: string)
    ensures s != "" && NoBar(s)
  {
    match t
    case OverTankTag => "OVER_TANK"
    case ManyRefuelsTag => "MANY_REFUELS_PER_DAY"
    case FuelOverTag => "FUEL_OVER_EXPECTED"
    case StationTag => "STATION_CONCENTRATION"
    case FuelUnderTag => "FUEL_UNDER_EXPECTED"
  }

  function TagRank(t: ReasonTag): nat {
    match t
    case OverTankTag => 0
    case ManyRefuelsTag => 1
    case FuelOverTag => 2
    case StationTag => 3
    case FuelUnderTag => 4
  }

  /** The five reason cells of a row, `None` (the empty string) where the
      tag does not apply. */
  function ReasonCells(ind: Indicators): seq<Option<ReasonTag>> {
    [ if ind.overTank then Some(OverTankTag) else None,
      if ind.maxDailyRefuel >= 4 then Some(ManyRefuelsTag) else None,
      if ind.fuelRatio > 1.10 then Some(FuelOverTag) else None,
      if ind.stationConc >= 0.6 then Some(StationTag) else None,
      if ind.fuelUnderL > 0.0 then Some(FuelUnderTag) else None ]
  }

  /** `[x for x in row if x]`. */
  function Present(cells: seq<Option<ReasonTag>>): seq<ReasonTag> {
    if |cells| == 0 then []
    else (if cells[0].Some? then [cells[0].value] else []) + Present(cells[1..])
  }

  predicate InTagOrder(tags: seq<ReasonTag>) {
    forall i, j :: 0 <= i < j < |tags| ==> TagRank(tags[i]) < TagRank(tags[j])
  }

  predicate NoBar(t: string) {
    forall k :: 0 <= k < |t| ==> t[k] != '|'
  }

  /** Cell `i` is empty or holds the tag of rank `k + i`. */
  predicate CellsRankedFrom(cells: seq<Option<ReasonTag>>, k: nat) {
    forall i :: 0 <= i < |cells| && cells[i].Some? ==> TagRank(cells[i].value) == k + i
  }

  /** Filtering ranked cells keeps exactly the present tags, in rank order. */
  lemma {:induction false} PresentRanked(cells: seq<Option<ReasonTag>>, k: nat)
    requires CellsRankedFrom(cells, k)
    ensures InTagOrder(Present(cells))
    ensures forall i :: 0 <= i < |Present(cells)| ==> TagRank(Present(cells)[i]) >= k
    ensures forall t :: t in Present(cells) <==> Some(t) in cells
    decreases |cells|
  {
    if |cells| > 0 {
      var rest := cells[1..];
      assert CellsRankedFrom(rest, k + 1) by {
        forall i | 0 <= i < |rest| && rest[i].Some? ensures TagRank(rest[i].value) == k + 1 + i {
          assert rest[i] == cells[i + 1];
        }
      }
      PresentRanked(rest, k + 1);
      assert forall x :: x in cells <==> x == cells[0] || x in rest by {
        assert cells == [cells[0]] + rest;
      }
    }
  }

  /** When a tag applies to a row. */
  predicate TagApplies(ind: Indicators, t: ReasonTag) {
    match t
    case OverTankTag => ind.overTank
    case ManyRefuelsTag => ind.maxDailyRefuel >= 4
    case FuelOverTag => ind.fuelRatio > 1.10
    case StationTag => ind.stationConc >= 0.6
    case FuelUnderTag => ind.fuelUnderL > 0.0
  }

  /** The cells hold a tag exactly when it applies, each at its rank. */
  lemma CellsHoldApplying(ind: Indicators)
    ensures CellsRankedFrom(ReasonCells(ind), 0)
    ensures forall t :: Some(t) in ReasonCells(ind) <==> TagApplies(ind, t)
  {
    var c := ReasonCells(ind);
    forall t ensures Some(t) in c <==> TagApplies(ind, t) {
      if TagApplies(ind, t) {
        assert c[TagRank(t)] == Some(t);
      }
      if Some(t) in c {
        var i :| 0 <= i < |c| && c[i] == Some(t);
        assert TagRank(t) == i;
      }
    }
  }

  /** The tags that apply, in the fixed order, each exactly when its
      condition holds. */
  function ReasonTags(ind: Indicators): (tags: seq<ReasonTag>)
    ensures InTagOrder(tags)
    ensures forall t :: t in tags <==> TagApplies(ind, t)
    ensures OverTankTag in tags <==> ind.overTank
    ensures ManyRefuelsTag in tags <==> ind.maxDailyRefuel >= 4
    ensures FuelOverTag in tags <==> ind.fuelRatio > 1.10
    ensures StationTag in tags <==> ind.stationConc >= 0.6
    ensures FuelUnderTag in tags <==> ind.fuelUnderL > 0.0
    ensures |tags| == 0 <==> !ind.overTank && ind.maxDailyRefuel < 4 && ind.fuelRatio <= 1.10
                             && ind.stationConc < 0.6 && ind.fuelUnderL <= 0.0
  {
    var c := ReasonCells(ind);
    CellsHoldApplying(ind);
    PresentRanked(c, 0);
    var tags := Present(c);
    assert forall t :: t in tags <==> TagApplies(ind, t);
    assert |tags| > 0 ==> TagApplies(ind, tags[0]);
    tags
  }

  /** The printed form of a tag list. */
  function Texts(tags: seq<ReasonTag>): (r: seq<string>)
    ensures |r| == |tags|
    ensures forall i :: 0 <= i < |r| ==> r[i] == TagText(tags[i])
  {
    if |tags| == 0 then [] else [TagText(tags[0])] + Texts(tags[1..])
  }

  /** `"|".join(tags)`. */
  function Join(tags: seq<string>): string
    decreases |tags|
  {
    if |tags| == 0 then ""
    else if |tags| == 1 then tags[0]
    else tags[0] + "|" + Join(tags[1..])
  }

  /** Index of the first `|`, or the length when there is none. */
  function BarIndex(s: string): (i: nat)
    ensures i <= |s|
    ensures forall j :: 0 <= j < i ==> s[j] != '|'
    ensures i < |s| ==> s[i] == '|'
  {
    if |s| == 0 || s[0] == '|' then 0 else 1 + BarIndex(s[1..])
  }

  /** The pieces between `|` separators. */
  function Pieces(s: string): seq<string>
    decreases |s|
  {
    var i := BarIndex(s);
    if i == |s| then [s] else [s[..i]] + Pieces(s[i + 1..])
  }

  /** How a reader takes the reason column apart: no tags for "". */
  function Split(s: string): seq<string> {
    if s == "" then [] else Pieces(s)
  }

  lemma {:induction false} PiecesJoin(tags: seq<string>)
    requires |tags| >= 1
    requires forall i :: 0 <= i < |tags| ==> NoBar(tags[i])
    ensures Pieces(Join(tags)) == tags
    decreases |tags|
  {
    if |tags| == 1 {
      assert BarIndex(tags[0]) == |tags[0]|;
    } else {
      var t, rest := tags[0], Join(tags[1..]);
      var s := t + "|" + rest;
      assert s[|t|] == '|';
      assert forall j :: 0 <= j < |t| ==> s[j] == t[j];
      assert BarIndex(s) == |t|;
      assert s[..|t|] == t;
      assert s[|t| + 1..] == rest;
      PiecesJoin(tags[1..]);
      assert tags == [t] + tags[1..];
    }
  }

  /** Joining non-empty, bar-free tags and splitting again gives them back. */
  lemma SplitJoin(tags: seq<string>)
    requires forall i :: 0 <= i < |tags| ==> tags[i] != "" && NoBar(tags[i])
    ensures Split(Join(tags)) == tags
  {
    if |tags| > 0 {
      JoinNonEmpty(tags);
      PiecesJoin(tags);
    }
  }

  lemma {:induction false} JoinNonEmpty(tags: seq<string>)
    requires |tags| >= 1 && tags[0] != ""
    ensures |Join(tags)| > 0
  {
  }

  /** No leading, trailing or doubled separator. */
  predicate WellFormedReason(s: string) {
    && (|s| > 0 ==> s[0] != '|' && s[|s| - 1] != '|')
    && forall k :: 0 <= k < |s| - 1 && s[k] == '|' ==> s[k + 1] != '|'
  }

  lemma {:induction false} JoinWellFormed(tags: seq<string>)
    requires forall i :: 0 <= i < |tags| ==> tags[i] != "" && NoBar(tags[i])
    ensures WellFormedReason(Join(tags))
    ensures |tags| > 0 ==> |Join(tags)| > 0
    decreases |tags|
  {
    if |tags| >= 2 {
      var t, rest := tags[0], Join(tags[1..]);
      JoinWellFormed(tags[1..]);
      var s := t + "|" + rest;
      assert s == Join(tags);
      forall k | 0 <= k < |s| - 1 && s[k] == '|'
        ensures s[k + 1] != '|'
      {
        if k == |t| {
          assert s[k + 1] == rest[0];
        } else if k > |t| {
          assert s[k] == rest[k - |t| - 1];
          assert s[k + 1] == rest[k - |t|];
        }
      }
      assert s[0] == t[0];
      assert s[|s| - 1] == rest[|rest| - 1];
    }
  }

  /** `risk_reason`: empty exactly when no tag applies, never with a stray
      separator, and splitting it yields the applying tags in order. */
  function Reason(ind: Indicators): (r: string)
    ensures r == "" <==> ReasonTags(ind) == []
    ensures WellFormedReason(r)
    ensures Split(r) == Texts(ReasonTags(ind))
  {
    var tags := Texts(ReasonTags(ind));
    JoinWellFormed(tags);
    SplitJoin(tags);
    Join(tags)
  }

  // ---------------------------------------------------------------------
  // One vehicle's assessment

  datatype Assessment = Assessment(scores: SubScores, riskScore: real, tier: Tier, reason: string)

  /** Sub-scores (published rounded), risk score from the unrounded ones,
      tier from the rounded risk score, and reason from the indicators. */
  function Assess(ind: Indicators): (a: Assessment)
    ensures 0.0 <= a.riskScore <= 100.0
    ensures a.tier == TierOf(a.riskScore)
    ensures a.reason == "" <==> ReasonTags(ind) == []
    ensures Split(a.reason) == Texts(ReasonTags(ind))
    ensures 0.0 <= a.scores.overTank <= 40.0 && 0.0 <= a.scores.dailyRefuel <= 30.0
    ensures 0.0 <= a.scores.fuelOver <= 40.0 && 0.0 <= a.scores.fuelUnder <= 10.0
    ensures 0.0 <= ind.stationConc <= 1.0 ==> 0.0 <= a.scores.station <= 15.0
    ensures a.scores == RoundScores(RawScores(ind))
    ensures a.riskScore == RiskScore(RawScores(ind))
    ensures var t := Total(RawScores(ind)); 0.0 <= t <= 100.0 ==> t - 0.005 <= a.riskScore <= t + 0.005
    ensures Total(RawScores(ind)) >= 100.0 ==> a.riskScore == 100.0
    ensures TierLabel(a.tier) == "HIGH" <==> a.riskScore >= 70.0
    ensures TierLabel(a.tier) == "MEDIUM" <==> 40.0 <= a.riskScore < 70.0
    ensures TierLabel(a.tier) == "LOW" <==> 20.0 <= a.riskScore < 40.0
    ensures TierLabel(a.tier) == "NONE" <==> a.riskScore < 20.0
  {
    var raw := RawScores(ind);
    Round2Between(raw.overTank, 0, 40);
    Round2Between(raw.dailyRefuel, 0, 30);
    Round2Between(raw.fuelOver, 0, 40);
    Round2Between(raw.fuelUnder, 0, 10);
    assert 0.0 <= ind.stationConc <= 1.0 ==> 0.0 <= Round2(raw.station) <= 15.0 by {
      if 0.0 <= ind.stationConc <= 1.0 {
        Round2Between(raw.station, 0, 15);
      }
    }
    var score := RiskScore(raw);
    Assessment(RoundScores(raw), score, TierOf(score), Reason(ind))
  }
}
