/** The rFactor dashboard: one pass of the `while True` body of pyDashRF1.py. The
    variables the loop carries from pass to pass are the fields of `Rf1Dash`; the
    shared-memory block read at the top of the pass is a `Telemetry` value. */
module DashRf1 {
  import opened Wrappers
  import opened Text
  import opened Srd9c
  import opened DashCommon
  import Rf1

  // ---------------------------------------------------------------------------
  // The shared-memory block, reduced to what the loop body reads

  /** One entry of the vehicle array. The sector 2 times are cumulative: they
      include sector 1. */
  datatype Vehicle = Vehicle(
    isPlayer: bool, sector: int, place: int, totalLaps: int, inPits: bool,
    lastLapTime: real, bestLapTime: real,
    lastSector1: real, lastSector2: real,
    bestSector1: real, bestSector2: real,
    curSector1: real, curSector2: real)

  datatype Telemetry = Telemetry(
    engineRpm: real, engineMaxRpm: real, gear: int, speed: real,
    currentEt: real, lapStartEt: real, lapNumber: int, endEt: real, maxLaps: int,
    numVehicles: int, vehicles: seq<Vehicle>,
    fuel: real, engineWaterTemp: real, engineOilTemp: real, overheating: bool,
    yellowFlagState: int, sectorFlags: seq<int>)

  // ---------------------------------------------------------------------------
  // Fuel and temperature samples

  /** The `samples` dictionary. Its `size`, `warn_fuel` and `critical_fuel` entries
      never change and are the constants below. */
  datatype Samples = Samples(
    water: seq<real>, oil: seq<real>, fuel: seq<real>,
    avgWater: Option<real>, avgOil: Option<real>, avgFuel: Option<real>,
    warnTemp: Option<real>, criticalTemp: Option<real>)

  const SIZE: nat := 7
  const WARN_FUEL: real := 3.0
  const CRITICAL_FUEL: real := 1.0

  const FRESH: Samples := Samples([], [], [], None, None, None, None, None)

  function Sum(xs: seq<real>): real
  {
    if xs == [] then 0.0 else Sum(xs[..|xs| - 1]) + xs[|xs| - 1]
  }

  function Mean(xs: seq<real>): real
    requires |xs| > 0
  {
    Sum(xs) / (|xs| as real)
  }

  function MaxOf(xs: seq<real>): real
    requires |xs| > 0
  {
    if |xs| == 1 then xs[0]
    else
      var m := MaxOf(xs[..|xs| - 1]);
      if xs[|xs| - 1] > m then xs[|xs| - 1] else m
  }

  function MinOf(xs: seq<real>): real
    requires |xs| > 0
  {
    if |xs| == 1 then xs[0]
    else
      var m := MinOf(xs[..|xs| - 1]);
      if xs[|xs| - 1] < m then xs[|xs| - 1] else m
  }

  /** `max()` of a list is one of its items and no item exceeds it. */
  lemma {:induction false} MaxOfIsMax(xs: seq<real>)
    requires |xs| > 0
    ensures MaxOf(xs) in xs && forall i :: 0 <= i < |xs| ==> xs[i] <= MaxOf(xs)
  {
    if |xs| > 1 {
      var ys := xs[..|xs| - 1];
      MaxOfIsMax(ys);
      assert forall i :: 0 <= i < |ys| ==> ys[i] == xs[i];
    }
  }

  /** `min()` of a list is one of its items and no item is below it. */
  lemma {:induction false} MinOfIsMin(xs: seq<real>)
    requires |xs| > 0
    ensures MinOf(xs) in xs && forall i :: 0 <= i < |xs| ==> MinOf(xs) <= xs[i]
  {
    if |xs| > 1 {
      var ys := xs[..|xs| - 1];
      MinOfIsMin(ys);
      assert forall i :: 0 <= i < |ys| ==> ys[i] == xs[i];
    }
  }

  /** A sum of values that all lie between `lo` and `hi` lies between `n * lo`
      and `n * hi`. */
  lemma {:induction false} SumBounds(xs: seq<real>, lo: real, hi: real)
    requires forall i :: 0 <= i < |xs| ==> lo <= xs[i] <= hi
    ensures (|xs| as real) * lo <= Sum(xs) <= (|xs| as real) * hi
  {
    if xs != [] {
      var ys := xs[..|xs| - 1];
      assert forall i :: 0 <= i < |ys| ==> ys[i] == xs[i];
      SumBounds(ys, lo, hi);
      assert (|xs| as real) * lo == (|ys| as real) * lo + lo;
      assert (|xs| as real) * hi == (|ys| as real) * hi + hi;
    }
  }

  /** A mean lies between the least and the greatest of the values. */
  lemma MeanBounds(xs: seq<real>, lo: real, hi: real)
    requires |xs| > 0 && forall i :: 0 <= i < |xs| ==> lo <= xs[i] <= hi
    ensures lo <= Mean(xs) <= hi
  {
    SumBounds(xs, lo, hi);
    var n := |xs| as real;
    assert Mean(xs) * n == Sum(xs);
  }

  /** On entering a sector: the fuel burnt since the last sector entry is sampled
      when the tank went down; the window keeps the newest seven samples and the
      average is recomputed, as three times their mean, only when it is trimmed. */
  function FuelSample(s: Samples, compareFuel: real, fuel: real): Samples
  {
    if compareFuel > 0.0 && compareFuel > fuel then
      var w := s.fuel + [compareFuel - fuel];
      if |w| > SIZE then
        var t := w[|w| - SIZE..];
        Samples(s.water, s.oil, t, s.avgWater, s.avgOil,
                Some(Sum(t) * 3.0 / (|t| as real)), s.warnTemp, s.criticalTemp)
      else
        Samples(s.water, s.oil, w, s.avgWater, s.avgOil, s.avgFuel, s.warnTemp, s.criticalTemp)
    else s
  }

  /** Sampling only touches the fuel entries, and leaves them alone unless the
      tank went down. */
  lemma FuelSampleKeeps(s: Samples, compareFuel: real, fuel: real)
    ensures var r := FuelSample(s, compareFuel, fuel);
      && r.water == s.water && r.oil == s.oil && r.avgWater == s.avgWater
      && r.avgOil == s.avgOil && r.warnTemp == s.warnTemp && r.criticalTemp == s.criticalTemp
      && (!(compareFuel > 0.0 && compareFuel > fuel) ==> r == s)
  {
  }

  /** The newest sample is the fuel burnt; the window grows up to seven samples and
      then slides, dropping the oldest. */
  lemma FuelSampleSlides(s: Samples, compareFuel: real, fuel: real)
    requires compareFuel > 0.0 && compareFuel > fuel && |s.fuel| <= SIZE
    ensures var r := FuelSample(s, compareFuel, fuel).fuel;
      && |r| > 0 && |r| <= SIZE && r[|r| - 1] == compareFuel - fuel
      && (|s.fuel| < SIZE ==> r == s.fuel + [compareFuel - fuel])
      && (|s.fuel| == SIZE ==> r == s.fuel[1..] + [compareFuel - fuel])
  {
    var x := compareFuel - fuel;
    var w := s.fuel + [x];
    if |w| > SIZE {
      assert w[|w| - SIZE..] == s.fuel[1..] + [x];
    }
  }

  /** The average changes only when the window is full, and then it is three times
      the mean of the window. */
  lemma FuelSampleAverage(s: Samples, compareFuel: real, fuel: real)
    ensures var r := FuelSample(s, compareFuel, fuel);
      r.avgFuel != s.avgFuel ==> |r.fuel| == SIZE && r.avgFuel == Some(3.0 * Mean(r.fuel))
  {
    if compareFuel > 0.0 && compareFuel > fuel {
      var w := s.fuel + [compareFuel - fuel];
      if |w| > SIZE {
        var t := w[|w| - SIZE..];
        assert |t| == SIZE;
        assert Sum(t) * 3.0 / (|t| as real) == 3.0 * (Sum(t) / (|t| as real));
      }
    }
  }

  /** Samples are positive amounts of fuel. */
  lemma FuelSamplePositive(s: Samples, compareFuel: real, fuel: real)
    requires forall i :: 0 <= i < |s.fuel| ==> s.fuel[i] > 0.0
    ensures var r := FuelSample(s, compareFuel, fuel).fuel;
      forall i :: 0 <= i < |r| ==> r[i] > 0.0
  {
    if compareFuel > 0.0 && compareFuel > fuel {
      var w := s.fuel + [compareFuel - fuel];
      assert forall i :: 0 <= i < |w| ==> w[i] > 0.0;
    }
  }

  /** On entering a sector: until seven samples of each temperature are taken, the
      current one is appended; on the first entry after that the baselines are
      computed, as the mean of all samples but the first, together with the
      warning margin (the spread of the water samples) and the critical margin
      (one and a half times that). */
  function TempSample(s: Samples, water: real, oil: real): Samples
  {
    OilSample(WaterSample(s, water), oil)
  }

  /** The water half of `TempSample`. */
  function WaterSample(s: Samples, water: real): Samples
  {
    if |s.water| < SIZE then
      Samples(s.water + [water], s.oil, s.fuel, s.avgWater, s.avgOil, s.avgFuel,
              s.warnTemp, s.criticalTemp)
    else if Unset(s.avgWater) then
      var spread := MaxOf(s.water) - MinOf(s.water);
      Samples(s.water, s.oil, s.fuel, Some(Mean(s.water[1..])), s.avgOil, s.avgFuel,
              Some(spread), Some(spread * 1.5))
    else s
  }

  /** The oil half of `TempSample`. */
  function OilSample(s: Samples, oil: real): Samples
  {
    if |s.oil| < SIZE then
      Samples(s.water, s.oil + [oil], s.fuel, s.avgWater, s.avgOil, s.avgFuel,
              s.warnTemp, s.criticalTemp)
    else if Unset(s.avgOil) then
      Samples(s.water, s.oil, s.fuel, s.avgWater, Some(Mean(s.oil[1..])), s.avgFuel,
              s.warnTemp, s.criticalTemp)
    else s
  }

  /** The temperature windows never exceed seven samples, and a baseline, once
      set, is never recomputed. */
  lemma TempSampleKeeps(s: Samples, water: real, oil: real)
    ensures var r := TempSample(s, water, oil);
      && r.fuel == s.fuel && r.avgFuel == s.avgFuel
      && (|s.water| <= SIZE ==> |r.water| <= SIZE)
      && (|s.oil| <= SIZE ==> |r.oil| <= SIZE)
      && (|s.water| < SIZE ==> r.water == s.water + [water] && r.avgWater == s.avgWater)
      && (|s.oil| < SIZE ==> r.oil == s.oil + [oil] && r.avgOil == s.avgOil)
      && (!Unset(s.avgWater) ==>
            r.avgWater == s.avgWater && r.warnTemp == s.warnTemp && r.criticalTemp == s.criticalTemp)
      && (!Unset(s.avgOil) ==> r.avgOil == s.avgOil)
  {
  }

  /** The water baseline, when computed, is the mean of the samples after the first,
      so it lies within their range. */
  lemma WaterBaseline(s: Samples, water: real, oil: real)
    requires |s.water| >= SIZE && Unset(s.avgWater)
    ensures var r := TempSample(s, water, oil);
      r.avgWater == Some(Mean(s.water[1..])) && MinOf(s.water) <= r.avgWater.value <= MaxOf(s.water)
  {
    var b := s.water[1..];
    MinOfIsMin(s.water);
    MaxOfIsMax(s.water);
    assert forall i :: 0 <= i < |b| ==> b[i] == s.water[i + 1];
    MeanBounds(b, MinOf(s.water), MaxOf(s.water));
  }

  /** With the baseline come the warning margin, the spread of the water samples,
      which is never negative, and the critical margin, half as much again. */
  lemma WaterMargins(s: Samples, water: real, oil: real)
    requires |s.water| >= SIZE && Unset(s.avgWater)
    ensures var r := TempSample(s, water, oil);
      && r.warnTemp == Some(MaxOf(s.water) - MinOf(s.water)) && r.warnTemp.value >= 0.0
      && r.criticalTemp == Some(r.warnTemp.value * 1.5)
  {
    MinOfIsMin(s.water);
    MaxOfIsMax(s.water);
    assert MinOf(s.water) <= s.water[0] <= MaxOf(s.water);
  }

  /** The oil baseline, when computed, is the mean of the samples after the first. */
  lemma OilBaseline(s: Samples, water: real, oil: real)
    requires |s.oil| >= SIZE && Unset(s.avgOil)
    ensures var r := TempSample(s, water, oil);
      r.avgOil == Some(Mean(s.oil[1..])) && MinOf(s.oil) <= r.avgOil.value <= MaxOf(s.oil)
  {
    var b := s.oil[1..];
    MinOfIsMin(s.oil);
    MaxOfIsMax(s.oil);
    assert forall i :: 0 <= i < |b| ==> b[i] == s.oil[i + 1];
    MeanBounds(b, MinOf(s.oil), MaxOf(s.oil));
  }

  // ---------------------------------------------------------------------------
  // Session clock

  /** The `lastET` dictionary. */
  datatype Clock = Clock(value: real, update: real, delta: real)

  /** The clock follows the game's elapsed time, remembering when it last moved;
      `delta` is the time since then, capped at half a second while the session
      time is positive, so a paused game does not keep the lap clock running. */
  function ClockTick(c: Clock, et: real, now: real): (r: Clock)
    ensures r.value == et
    ensures r.update == if et != c.value then now else c.update
    ensures r.delta <= now - r.update
    ensures r.value > 0.0 ==> r.delta <= 0.5
    ensures r.delta == now - r.update || (r.delta == 0.5 && r.value > 0.0)
  {
    var c1 := if et != c.value then Clock(et, now, c.delta) else c;
    var d := now - c1.update;
    Clock(c1.value, c1.update, if d > 0.5 && c1.value > 0.0 then 0.5 else d)
  }

  /** The game's elapsed time going backwards means a new session. */
  predicate NewSession(c: Clock, et: real)
  {
    et < c.value
  }

  // ---------------------------------------------------------------------------
  // The vehicle scan

  /** The driver record the loop settles on: the last vehicle flagged as the
      player. */
  function LastPlayer(vs: seq<Vehicle>): (r: Option<Vehicle>)
    ensures r.Some? ==> r.value in vs && r.value.isPlayer
    ensures r.None? ==> forall i :: 0 <= i < |vs| ==> !vs[i].isPlayer
  {
    if vs == [] then None
    else if vs[|vs| - 1].isPlayer then Some(vs[|vs| - 1])
    else
      assert forall i :: 0 <= i < |vs| - 1 ==> vs[..|vs| - 1][i] == vs[i];
      LastPlayer(vs[..|vs| - 1])
  }

  /** No vehicle after the chosen one is the player. */
  lemma {:induction false} LastPlayerIsLast(vs: seq<Vehicle>)
    ensures LastPlayer(vs).Some? ==>
      exists i :: 0 <= i < |vs| && vs[i] == LastPlayer(vs).value
                  && forall j :: i < j < |vs| ==> !vs[j].isPlayer
  {
    if vs != [] && !vs[|vs| - 1].isPlayer {
      var ys := vs[..|vs| - 1];
      LastPlayerIsLast(ys);
      if LastPlayer(ys).Some? {
        var i :| 0 <= i < |ys| && ys[i] == LastPlayer(ys).value
                  && forall j :: i < j < |ys| ==> !ys[j].isPlayer;
        assert vs[i] == ys[i];
        assert forall j :: i < j < |vs| - 1 ==> vs[j] == ys[j];
      }
    } else if vs != [] {
      assert vs[|vs| - 1] == LastPlayer(vs).value;
    }
  }

  /** The three session bests the scan collects. */
  datatype Which = BestLap | BestSector1 | BestSector2

  function Pick(v: Vehicle, w: Which): real
  {
    match w
    case BestLap => v.bestLapTime
    case BestSector1 => v.bestSector1
    case BestSector2 => v.bestSector2
  }

  /** One step of the scan: a positive time replaces the best so far when there is
      none yet or it is lower. */
  function Better(best: real, x: real): real
  {
    if x > 0.0 && (best == 0.0 || x < best) then x else best
  }

  function FieldBest(vs: seq<Vehicle>, w: Which): real
  {
    if vs == [] then 0.0 else Better(FieldBest(vs[..|vs| - 1], w), Pick(vs[|vs| - 1], w))
  }

  /** The scan finds the least positive time in the field, and 0 when nobody has
      set one. */
  lemma {:induction false} FieldBestIsLeast(vs: seq<Vehicle>, w: Which)
    ensures var b := FieldBest(vs, w);
      && (b == 0.0 <==> forall i :: 0 <= i < |vs| ==> Pick(vs[i], w) <= 0.0)
      && (b != 0.0 ==> b > 0.0 && (exists i :: 0 <= i < |vs| && Pick(vs[i], w) == b)
                       && forall i :: 0 <= i < |vs| && Pick(vs[i], w) > 0.0 ==> b <= Pick(vs[i], w))
  {
    if vs != [] {
      var ys := vs[..|vs| - 1];
      var x := Pick(vs[|vs| - 1], w);
      FieldBestIsLeast(ys, w);
      assert forall i :: 0 <= i < |ys| ==> ys[i] == vs[i];
      var b0 := FieldBest(ys, w);
      if Better(b0, x) == x && x > 0.0 && (b0 == 0.0 || x < b0) {
        assert Pick(vs[|vs| - 1], w) == FieldBest(vs, w);
      } else if b0 != 0.0 {
        var i :| 0 <= i < |ys| && Pick(ys[i], w) == b0;
        assert Pick(vs[i], w) == FieldBest(vs, w);
      }
    }
  }

  datatype Bests = Bests(lap: real, sector1: real, sector2: real)

  /** What the scan leaves behind: no driver and no bests without vehicles. */
  function ScanOf(t: Telemetry): (Option<Vehicle>, Bests)
  {
    if t.numVehicles > 0 then
      (LastPlayer(t.vehicles),
       Bests(FieldBest(t.vehicles, BestLap), FieldBest(t.vehicles, BestSector1),
             FieldBest(t.vehicles, BestSector2)))
    else (None, Bests(0.0, 0.0, 0.0))
  }

  // ---------------------------------------------------------------------------
  // Texts and pages

  /** The running lap time: only while the session, the lap and the lap count are
      all under way. */
  function LapClock(t: Telemetry, delta: real): real
  {
    if t.currentEt > 0.0 && t.lapStartEt > 0.0 && t.lapNumber > 0 then
      (t.currentEt + delta) - t.lapStartEt
    else 0.0
  }

  /** The speed readout in the units chosen; with any other units the right field
      keeps its text. */
  function SpeedText(u: Units, speed: real, right: string): string
  {
    match u
    case Mph => IntText(Rf1.MpsToMph(speed))
    case Kmh => IntText(Rf1.MpsToKph(speed))
    case OtherUnits => right
  }

  /** The lap the split page compares against, chosen after the page is over. */
  function CompareLapOf(mode: Compare, dd: Vehicle, best: Bests): (r: real)
    ensures r == 0.0 || r > 0.0
    ensures r > 0.0 ==>
      || (mode == SelfPrevious && r == dd.lastLapTime)
      || (mode == SelfBest && r == dd.bestLapTime)
      || (mode == SessionBest && r == best.lap)
    ensures mode == SelfPrevious ==> r == if dd.lastLapTime > 0.0 then dd.lastLapTime else 0.0
    ensures mode == SelfBest ==> r == if dd.bestLapTime > 0.0 then dd.bestLapTime else 0.0
    ensures mode == SessionBest ==> r == if best.lap > 0.0 then best.lap else 0.0
    ensures mode == OtherCompare ==> r == 0.0
  {
    if dd.lastLapTime > 0.0 && mode == SelfPrevious then dd.lastLapTime
    else if dd.bestLapTime > 0.0 && mode == SelfBest then dd.bestLapTime
    else if best.lap > 0.0 && mode == SessionBest then best.lap
    else 0.0
  }

  /** The sector 1 pages follow one another in left-closed, right-open windows
      measured from the sector entry; a disabled page takes no time. */
  predicate InLapPage(info: InfoText, et: real)
  {
    var hi := Flag(info.lapSplit) * info.duration;
    0.0 <= et < hi && info.lapSplit
  }

  predicate InPositionPage(info: InfoText, et: real)
  {
    var lo := Flag(info.lapSplit) * info.duration;
    var hi := lo + Flag(info.position) * info.duration;
    lo <= et < hi && info.position
  }

  predicate InRemainingPage(info: InfoText, et: real)
  {
    var lo := Flag(info.lapSplit) * info.duration + Flag(info.position) * info.duration;
    var hi := Flag(info.lapSplit) * info.duration + Flag(info.position) * info.duration
              + Flag(info.remaining) * info.duration;
    lo <= et < hi && info.remaining
  }

  /** The windows never overlap, so at most one page shows at a time, and all of
      them are over once the enabled durations have elapsed. */
  lemma PagesExclusive(info: InfoText, et: real)
    ensures !(InLapPage(info, et) && InPositionPage(info, et))
    ensures !(InLapPage(info, et) && InRemainingPage(info, et))
    ensures !(InPositionPage(info, et) && InRemainingPage(info, et))
    ensures et >= (Flag(info.lapSplit) + Flag(info.position) + Flag(info.remaining)) * info.duration
            ==> !InLapPage(info, et) && !InPositionPage(info, et) && !InRemainingPage(info, et)
  {
  }

  /** The right half of the remaining page: laps to go when the race has a lap
      count below 200, else the session time left, else blank. */
  function RemainingText(t: Telemetry, delta: real, fmt: Formats): string
  {
    if t.maxLaps > 0 && t.maxLaps < 200 then CountText(t.maxLaps)
    else if t.endEt > 0.0 then fmt.clock(t.endEt - (t.currentEt + delta))
    else FOUR_BLANKS
  }

  /** What the pages leave: the comparison lap and the two display fields. */
  datatype Pages = Pages(compareLap: real, left: string, right: string)

  /** The sector 1 pages, written in order; later writes would override earlier
      ones, but the windows never overlap. */
  function LapPages(cmp: real, left: string, right: string, et: real, info: InfoText,
                    dd: Vehicle, best: Bests, t: Telemetry, delta: real, fmt: Formats): Pages
  {
    var p1 :=
      if InLapPage(info, et) then
        Pages(cmp, LapText(fmt, dd.lastLapTime),
              if cmp > 0.0 && dd.lastLapTime > 0.0 then fmt.delta(dd.lastLapTime - cmp) else NO_SPLIT)
      else Pages(CompareLapOf(info.lapCompare, dd, best), left, right);
    var p2 :=
      if InPositionPage(info, et) then Pages(p1.compareLap, PositionText(dd.place), CountText(t.numVehicles))
      else p1;
    if InRemainingPage(info, et) then
      Pages(p2.compareLap, LapsText(dd.totalLaps), RemainingText(t, delta, fmt))
    else p2
  }

  /** The comparison lap changes only outside the lap split window, and then to the
      lap the settings ask for; each page shows its own texts, and outside all
      windows the fields are left as they were. */
  lemma LapPagesShow(cmp: real, left: string, right: string, et: real, info: InfoText,
                     dd: Vehicle, best: Bests, t: Telemetry, delta: real, fmt: Formats)
    ensures var r := LapPages(cmp, left, right, et, info, dd, best, t, delta, fmt);
      && r.compareLap == (if InLapPage(info, et) then cmp else CompareLapOf(info.lapCompare, dd, best))
      && (InLapPage(info, et) ==> r.left == LapText(fmt, dd.lastLapTime))
      && (InPositionPage(info, et) ==>
            r.left == PositionText(dd.place) && r.right == CountText(t.numVehicles))
      && (InRemainingPage(info, et) ==>
            r.left == LapsText(dd.totalLaps) && r.right == RemainingText(t, delta, fmt))
      && (!InLapPage(info, et) && !InPositionPage(info, et) && !InRemainingPage(info, et) ==>
            r.left == left && r.right == right)
  {
    PagesExclusive(info, et);
  }

  /** The sector time to compare against. The shared block keeps sector 2 times
      cumulative, so sector 2 alone is the difference of two entries. */
  function CompareSectorOf(mode: Compare, sector: int, dd: Vehicle, best: Bests): real
  {
    if dd.lastSector1 > 0.0 && dd.lastSector2 > 0.0 && mode == SelfPrevious then
      if sector == 0 then Rf1.Sector2Alone(dd.lastSector1, dd.lastSector2) else dd.lastSector1
    else if dd.bestSector1 > 0.0 && dd.bestSector2 > 0.0 && mode == SelfBest then
      if sector == 0 then Rf1.Sector2Alone(dd.bestSector1, dd.bestSector2) else dd.bestSector1
    else if best.sector1 > 0.0 && best.sector2 > 0.0 && mode == SessionBest then
      if sector == 0 then Rf1.Sector2Alone(best.sector1, best.sector2) else best.sector1
    else 0.0
  }

  /** The split page shown in sectors 2 and 3 (codes 2 and 0): the sector just
      completed against the comparison, or the placeholder. */
  function SectorSplitText(cmp: real, sector: int, lap: real, dd: Vehicle, fmt: Formats): string
  {
    if cmp > 0.0 && lap > 0.0 then
      fmt.delta(if sector == 0 then Rf1.Sector2Alone(dd.curSector1, dd.curSector2) - cmp
                else dd.curSector1 - cmp)
    else NO_SPLIT
  }

  /** The split compares like with like: in the last sector (code 0) both sides
      are sector 2 alone, elsewhere both are sector 1. */
  lemma SectorSplitCompares(mode: Compare, sector: int, lap: real, dd: Vehicle, best: Bests, fmt: Formats)
    requires mode == SelfPrevious && dd.lastSector1 > 0.0 && dd.lastSector2 > dd.lastSector1 && lap > 0.0
    ensures var cmp := CompareSectorOf(mode, sector, dd, best);
      && cmp > 0.0
      && (sector == 0 ==>
            && cmp + dd.lastSector1 == dd.lastSector2
            && SectorSplitText(cmp, sector, lap, dd, fmt)
               == fmt.delta((dd.curSector2 - dd.curSector1) - (dd.lastSector2 - dd.lastSector1)))
      && (sector != 0 ==> SectorSplitText(cmp, sector, lap, dd, fmt) == fmt.delta(dd.curSector1 - dd.lastSector1))
  {
    Rf1.Sector2AloneAdds(dd.lastSector1, dd.lastSector2);
  }

  // ---------------------------------------------------------------------------
  // Warnings

  /** The fuel lamp: steady while the fuel left lasts at most three average laps,
      blinking together with the `fuel` text below one. A missing average compares
      as less than zero. */
  function FuelWarning(s: Samples, fuel: real, st: Lamps, left: string, cfg: Config,
                       blinkLed: real, blinkText: real, now: real): (Lamps, string)
  {
    if s.avgFuel.Some? && s.avgFuel.value > 0.0 && fuel / s.avgFuel.value <= WARN_FUEL then
      var st1: Lamps := st[0 := '1'];
      if fuel / s.avgFuel.value < CRITICAL_FUEL then
        (st1[0 := BlinkBit(cfg.ledBlink, blinkLed, now)],
         if BlinkOn(cfg.textBlink, blinkText, now) then FUEL else left)
      else (st1, left)
    else (st, left)
  }

  /** The fuel lamp is on exactly when an average exists and the fuel left lasts at
      most three average laps; it blinks and `fuel` shows only below one. */
  lemma FuelWarningShows(s: Samples, fuel: real, st: Lamps, left: string, cfg: Config,
                         blinkLed: real, blinkText: real, now: real)
    requires st[0] == '0'
    ensures var (r, l) := FuelWarning(s, fuel, st, left, cfg, blinkLed, blinkText, now);
      var low := s.avgFuel.Some? && s.avgFuel.value > 0.0 && fuel / s.avgFuel.value <= WARN_FUEL;
      var critical := low && fuel / s.avgFuel.value < CRITICAL_FUEL;
      && r[1..] == st[1..]
      && (!low ==> r[0] == '0' && l == left)
      && (low && !critical ==> r[0] == '1' && l == left)
      && (critical ==> r[0] == BlinkBit(cfg.ledBlink, blinkLed, now)
                       && (l == FUEL <== BlinkOn(cfg.textBlink, blinkText, now)))
  {
  }

  /** Python 2 orders `None` below every number, so comparing a number against a
      missing margin is true. */
  predicate AtLeast(x: real, m: Option<real>)
  {
    m.None? || x >= m.value
  }

  predicate Above(x: real, m: Option<real>)
  {
    m.None? || x > m.value
  }

  /** The temperature lamp is on when water or oil runs at least the warning margin
      above its baseline, or the game reports overheating. */
  predicate Hot(s: Samples, water: real, oil: real, overheating: bool)
  {
    || (!Unset(s.avgWater) && AtLeast(water - s.avgWater.value, s.warnTemp))
    || (!Unset(s.avgOil) && AtLeast(oil - s.avgOil.value, s.warnTemp))
    || overheating
  }

  /** The critical test as written: `x - None` raises, so an overheating report
      before the baselines exist ends the script. `None` stands for that error. */
  function CriticalAsWritten(s: Samples, water: real, oil: real, overheating: bool): Option<bool>
  {
    if s.avgWater.None? then None
    else if Above(water - s.avgWater.value, s.criticalTemp) then Some(true)
    else if s.avgOil.None? then None
    else if Above(oil - s.avgOil.value, s.criticalTemp) then Some(true)
    else Some(overheating)
  }

  /** The critical test as intended: a temperature without a baseline is not
      critical on its own account. */
  predicate Critical(s: Samples, water: real, oil: real, overheating: bool)
  {
    || (s.avgWater.Some? && Above(water - s.avgWater.value, s.criticalTemp))
    || (s.avgOil.Some? && Above(oil - s.avgOil.value, s.criticalTemp))
    || overheating
  }

  /** The temperature lamp and the `heat` text, as written: `None` when the
      critical test raises. */
  function HeatWarningAsWritten(s: Samples, water: real, oil: real, overheating: bool, st: Lamps,
                                left: string, cfg: Config, blinkLed: real, blinkText: real,
                                now: real): Option<(Lamps, string)>
  {
    if !Hot(s, water, oil, overheating) then Some((st, left))
    else
      var st1: Lamps := st[1 := '1'];
      var c := CriticalAsWritten(s, water, oil, overheating);
      if c.None? then None
      else if c.value then
        Some((st1[1 := BlinkBit(cfg.ledBlink, blinkLed, now)],
              if BlinkOn(cfg.textBlink, blinkText, now) then HEAT else left))
      else Some((st1, left))
  }

  /** The temperature lamp: steady above the warning margin, blinking together with
      the `heat` text above the critical one or while the game reports
      overheating. */
  function HeatWarning(s: Samples, water: real, oil: real, overheating: bool, st: Lamps,
                       left: string, cfg: Config, blinkLed: real, blinkText: real,
                       now: real): (Lamps, string)
  {
    if !Hot(s, water, oil, overheating) then (st, left)
    else
      var st1: Lamps := st[1 := '1'];
      if Critical(s, water, oil, overheating) then
        (st1[1 := BlinkBit(cfg.ledBlink, blinkLed, now)],
         if BlinkOn(cfg.textBlink, blinkText, now) then HEAT else left)
      else (st1, left)
  }

  /** As written, an overheating report during the first laps, before any
      baseline exists, raises. */
  lemma HeatAsWrittenRaises(water: real, oil: real, st: Lamps, left: string, cfg: Config,
                            blinkLed: real, blinkText: real, now: real)
    ensures HeatWarningAsWritten(FRESH, water, oil, true, st, left, cfg, blinkLed, blinkText, now).None?
    ensures var (st1, left1) := HeatWarning(FRESH, water, oil, true, st, left, cfg, blinkLed, blinkText, now);
      && st1 == st[1 := BlinkBit(cfg.ledBlink, blinkLed, now)]
      && left1 == if BlinkOn(cfg.textBlink, blinkText, now) then HEAT else left
  {
  }

  /** The corrected warning agrees with the code as written whenever the latter
      does not raise, and it never raises. */
  lemma HeatWarningAgrees(s: Samples, water: real, oil: real, overheating: bool, st: Lamps,
                          left: string, cfg: Config, blinkLed: real, blinkText: real, now: real)
    ensures var w := HeatWarningAsWritten(s, water, oil, overheating, st, left, cfg, blinkLed, blinkText, now);
      w.Some? ==> w.value == HeatWarning(s, water, oil, overheating, st, left, cfg, blinkLed, blinkText, now)
    ensures s.avgWater.Some? && s.avgOil.Some? ==>
      HeatWarningAsWritten(s, water, oil, overheating, st, left, cfg, blinkLed, blinkText, now).Some?
  {
  }

  /** The rFactor code for an open pit lane. */
  const PIT_OPEN: int := Rf1.YellowFlagStateCode(Rf1.PitOpen)

  /** The pit lamp: steady while the pits are open, blinking with the `pit ` text
      while the player is in the pits. */
  function PitWarning(t: Telemetry, inPits: bool, st: Lamps, right: string, cfg: Config,
                      blinkLed: real, blinkText: real, now: real): (Lamps, string)
  {
    var st1: Lamps := if t.yellowFlagState == PIT_OPEN || PIT_OPEN in t.sectorFlags then st[3 := '1'] else st;
    if inPits then
      (st1[3 := BlinkBit(cfg.ledBlink, blinkLed, now)],
       if BlinkOn(cfg.textBlink, blinkText, now) then PIT else right)
    else (st1, right)
  }

  // ---------------------------------------------------------------------------
  // The whole pass

  /** The loop-carried variables. */
  datatype Rf1Loop = Rf1Loop(
    blinkLed: real, blinkText: real, infoTextTime: real,
    compareLap: real, compareSector: real, currentSector: int,
    samples: Samples, compareFuel: real, clock: Clock)

  /** Their values before the first pass. */
  const START: Rf1Loop := Rf1Loop(0.0, 0.0, 0.0, 0.0, 0.0, 1, FRESH, 0.0, Clock(0.0, 0.0, 0.0))

  /** The blink anchors move on. */
  function Blinks(l: Rf1Loop, cfg: Config, now: real): Rf1Loop
  {
    Rf1Loop(BlinkAnchor(l.blinkLed, now, cfg.ledBlink.duration),
            BlinkAnchor(l.blinkText, now, cfg.textBlink.duration),
            l.infoTextTime, l.compareLap, l.compareSector, l.currentSector,
            l.samples, l.compareFuel, l.clock)
  }

  /** The session clock moves on; a new session clears what was tracked. */
  function Session(l: Rf1Loop, et: real, now: real): Rf1Loop
  {
    var c := ClockTick(l.clock, et, now);
    if NewSession(l.clock, et) then
      Rf1Loop(l.blinkLed, l.blinkText, l.infoTextTime, 0.0, 0.0, 1, FRESH, 0.0, c)
    else
      Rf1Loop(l.blinkLed, l.blinkText, l.infoTextTime, l.compareLap, l.compareSector,
              l.currentSector, l.samples, l.compareFuel, c)
  }

  /** Entering a new sector restarts the page timer and takes the samples. */
  function EnterSector(l: Rf1Loop, dd: Vehicle, t: Telemetry, now: real): Rf1Loop
  {
    if l.currentSector != dd.sector then
      var s := TempSample(FuelSample(l.samples, l.compareFuel, t.fuel), t.engineWaterTemp, t.engineOilTemp);
      Rf1Loop(l.blinkLed, l.blinkText, now, l.compareLap, l.compareSector, dd.sector,
              s, t.fuel, l.clock)
    else l
  }

  /** The sector 2 and 3 split shows for one page duration after the sector entry. */
  predicate InSectorSplit(l: Rf1Loop, info: InfoText, now: real)
  {
    (l.currentSector == 2 || l.currentSector == 0) && info.sectorSplit
    && now - l.infoTextTime <= info.duration
  }

  /** What the info texts leave behind. */
  datatype Shown = Shown(loop: Rf1Loop, left: string, right: string)

  function InfoPages(l: Rf1Loop, left: string, right: string, dd: Vehicle, best: Bests,
                     t: Telemetry, cfg: Config, fmt: Formats, now: real, lap: real): Shown
  {
    if l.currentSector == 1 then
      var p := LapPages(l.compareLap, left, right, now - l.infoTextTime, cfg.info, dd, best,
                        t, l.clock.delta, fmt);
      Shown(Rf1Loop(l.blinkLed, l.blinkText, l.infoTextTime, p.compareLap, l.compareSector,
                    l.currentSector, l.samples, l.compareFuel, l.clock), p.left, p.right)
    else if InSectorSplit(l, cfg.info, now) then
      var cmp := CompareSectorOf(cfg.info.sectorCompare, l.currentSector, dd, best);
      Shown(Rf1Loop(l.blinkLed, l.blinkText, l.infoTextTime, l.compareLap, cmp,
                    l.currentSector, l.samples, l.compareFuel, l.clock),
            left, SectorSplitText(cmp, l.currentSector, lap, dd, fmt))
    else Shown(l, left, right)
  }

  /** What the warnings leave behind; `Halt` when the temperature test raises,
      with the writes made up to that point. */
  datatype Warned = Warned(status: Lamps, left: string, right: string, outcome: Outcome)

  /** The three warnings, in order, with the temperature test as written. */
  function Warnings(l: Rf1Loop, dd: Vehicle, t: Telemetry, cfg: Config, now: real,
                    st: Lamps, left: string, right: string): Warned
  {
    var (st1, left1) := FuelWarning(l.samples, t.fuel, st, left, cfg, l.blinkLed, l.blinkText, now);
    var h := HeatWarningAsWritten(l.samples, t.engineWaterTemp, t.engineOilTemp, t.overheating,
                                  st1, left1, cfg, l.blinkLed, l.blinkText, now);
    if h.None? then Warned(st1, left1, right, Halt)
    else
      var (st3, right3) := PitWarning(t, dd.inPits, h.value.0, right, cfg, l.blinkLed, l.blinkText, now);
      Warned(st3, h.value.1, right3, Continue)
  }

  /** The warnings stop the pass exactly where the temperature test as written
      raises; otherwise they show the corrected temperature warning. */
  lemma WarningsAsWritten(l: Rf1Loop, dd: Vehicle, t: Telemetry, cfg: Config, now: real,
                          st: Lamps, left: string, right: string)
    ensures var w := Warnings(l, dd, t, cfg, now, st, left, right);
      var (st1, left1) := FuelWarning(l.samples, t.fuel, st, left, cfg, l.blinkLed, l.blinkText, now);
      var h := HeatWarning(l.samples, t.engineWaterTemp, t.engineOilTemp, t.overheating,
                           st1, left1, cfg, l.blinkLed, l.blinkText, now);
      && (w.outcome == Halt <==> HeatWarningAsWritten(l.samples, t.engineWaterTemp, t.engineOilTemp,
                                   t.overheating, st1, left1, cfg, l.blinkLed, l.blinkText, now).None?)
      && (w.outcome == Halt ==> w.left == left1 && w.right == right)
      && (w.outcome == Continue ==>
            w.left == h.1 && (w.status, w.right) == PitWarning(t, dd.inPits, h.0, right, cfg, l.blinkLed, l.blinkText, now))
  {
    var (st1, left1) := FuelWarning(l.samples, t.fuel, st, left, cfg, l.blinkLed, l.blinkText, now);
    HeatWarningAgrees(l.samples, t.engineWaterTemp, t.engineOilTemp, t.overheating,
                      st1, left1, cfg, l.blinkLed, l.blinkText, now);
  }

  /** In the first laps of a session, before any temperature baseline exists, an
      overheating report ends the pass. */
  lemma OverheatingFirstLapsHalts(l: Rf1Loop, dd: Vehicle, t: Telemetry, cfg: Config, now: real,
                                  st: Lamps, left: string, right: string)
    requires l.samples == FRESH && t.overheating
    ensures Warnings(l, dd, t, cfg, now, st, left, right).outcome == Halt
  {
    var (st1, left1) := FuelWarning(l.samples, t.fuel, st, left, cfg, l.blinkLed, l.blinkText, now);
    HeatAsWrittenRaises(t.engineWaterTemp, t.engineOilTemp, st1, left1, cfg, l.blinkLed, l.blinkText, now);
  }

  /** Everything inside `if(dd)`: the lap clock, the sector entry, the pages and
      the warnings. */
  datatype Driven = Driven(loop: Rf1Loop, left: string, right: string, status: Lamps, outcome: Outcome)

  function DriverPass(l: Rf1Loop, right: string, st: Lamps, dd: Vehicle, best: Bests,
                      t: Telemetry, cfg: Config, fmt: Formats, now: real): Driven
  {
    var lap := LapClock(t, l.clock.delta);
    var l1 := EnterSector(l, dd, t, now);
    var sh := InfoPages(l1, LapText(fmt, lap), right, dd, best, t, cfg, fmt, now, lap);
    var w := Warnings(sh.loop, dd, t, cfg, now, st, sh.left, sh.right);
    Driven(sh.loop, w.left, w.right, w.status, w.outcome)
  }

  /** One pass of the loop body. It raises (and the script ends) when no bar group
      is enabled while the maximum RPM is known, when the gear is not in the
      table, or when the temperature test meets a missing baseline; up to that
      point its writes stay. */
  function Tick(l: Rf1Loop, p: Panel, t: Telemetry, cfg: Config, fmt: Formats, now: real): After<Rf1Loop>
  {
    var f := Front(l, p, t, cfg, now);
    if f.outcome == Halt then f else Drive(f.loop, f.panel, f.status, t, cfg, fmt, now)
  }

  /** The blink timers, the bar value and the gear: the part of a pass that can
      raise. */
  function Front(l: Rf1Loop, p: Panel, t: Telemetry, cfg: Config, now: real): After<Rf1Loop>
  {
    var l1 := Blinks(l, cfg, now);
    var v := RpmValue(t.engineRpm, t.engineMaxRpm, BarGroups(p.rpm), SPAN);
    if v.None? then After(l1, p, LAMPS_OFF, Halt)
    else
      var p1 := Valued(p, v.value);
      var g := GearGlyph(t.gear, cfg.neutral);
      if g.None? then After(l1, p1, LAMPS_OFF, Halt)
      else After(l1, Geared(p1, g.value), ShiftLamps(t.engineRpm, t.engineMaxRpm, SHIFT), Continue)
  }

  /** The rest of a pass, from the speed readout up to the engine gate; it raises
      only in the temperature test. */
  function Drive(l: Rf1Loop, p: Panel, st: Lamps, t: Telemetry, cfg: Config, fmt: Formats, now: real): After<Rf1Loop>
  {
    var right := SpeedText(cfg.units, t.speed, p.right);
    var l2 := Session(l, t.currentEt, now);
    var (dd, best) := ScanOf(t);
    var d := if dd.Some? then DriverPass(l2, right, st, dd.value, best, t, cfg, fmt, now)
             else Driven(l2, p.left, right, st, Continue);
    After(d.loop, Panel(d.left, d.right, p.gear, p.rpm, p.status), d.status, d.outcome)
  }

  // ---------------------------------------------------------------------------
  // The loop body, step by step

  class Rf1Dash {
    var blinkLed: real
    var blinkText: real
    var infoTextTime: real
    var compareLap: real
    var compareSector: real
    var currentSector: int
    var samples: Samples
    var compareFuel: real
    var clock: Clock
    /** The SRD-9c the script opened before entering the loop. */
    const dash: Display

    function Loop(): Rf1Loop
      reads this
    {
      Rf1Loop(blinkLed, blinkText, infoTextTime, compareLap, compareSector, currentSector,
              samples, compareFuel, clock)
    }

    constructor (d: Display)
      ensures Loop() == START && dash == d
    {
      blinkLed, blinkText, infoTextTime := 0.0, 0.0, 0.0;
      compareLap, compareSector, currentSector := 0.0, 0.0, 1;
      samples, compareFuel, clock := FRESH, 0.0, Clock(0.0, 0.0, 0.0);
      dash := d;
    }

    /** One pass of the `while True` body, given the block read from shared memory
        and the settings in force. A pass that runs to its end leaves the report of
        the gated display as the one last sent. */
    method Step(t: Telemetry, cfg: Config, fmt: Formats, now: real) returns (out: Outcome)
      modifies this, dash
      ensures var a := Tick(old(Loop()), old(dash.Snapshot()), t, cfg, fmt, now);
        && Loop() == a.loop && out == a.outcome
        && (out == Halt ==> dash.Snapshot() == a.panel && dash.report == old(dash.report))
        && (out == Continue ==> dash.Snapshot() == Gated(a.panel, a.status, t.engineRpm > 1.0))
      ensures out == Continue ==> dash.report == PackOf(dash.Snapshot())
    {
      var st: Lamps;
      out, st := StartPass(t, cfg, now);
      if out == Halt {
        return;
      }
      out, st := Prepare(st, t, cfg, fmt, now);
      if out == Halt {
        return;
      }
      Gate(dash, st, t.engineRpm > 1.0);
    }

    /** The blink timers, the bar and the gear, stopping at the first raise. */
    method StartPass(t: Telemetry, cfg: Config, now: real) returns (out: Outcome, st: Lamps)
      modifies this`blinkLed, this`blinkText, dash`rpm, dash`gear
      ensures var f := Front(old(Loop()), old(dash.Snapshot()), t, cfg, now);
        && Loop() == f.loop && dash.Snapshot() == f.panel && out == f.outcome
        && (out == Continue ==> st == f.status)
    {
      BlinkTimers(cfg, now);
      out, st := SetBar(dash, t.engineRpm, t.engineMaxRpm, SPAN, SHIFT);
      if out == Halt {
        return;
      }
      out := SetGear(dash, t.gear, cfg.neutral);
    }

    /** Everything from the speed readout up to the engine gate. */
    method Prepare(st0: Lamps, t: Telemetry, cfg: Config, fmt: Formats, now: real) returns (out: Outcome, st: Lamps)
      modifies this, dash`left, dash`right
      ensures var a := Drive(old(Loop()), old(dash.Snapshot()), st0, t, cfg, fmt, now);
        Loop() == a.loop && dash.Snapshot() == a.panel && st == a.status && out == a.outcome
    {
      SetSpeed(t, cfg);
      TrackSession(t, now);
      var dd, best := ScanVehicles(t);
      out, st := Continue, st0;
      if dd.Some? {
        out, st := Driver(dd.value, best, t, cfg, fmt, now, st);
      }
    }

    method BlinkTimers(cfg: Config, now: real)
      modifies this`blinkLed, this`blinkText
      ensures Loop() == Blinks(old(Loop()), cfg, now)
    {
      if now - blinkLed >= cfg.ledBlink.duration * 2.0 {
        blinkLed := now;
      }
      if now - blinkText >= cfg.textBlink.duration * 2.0 {
        blinkText := now;
      }
    }

    method SetSpeed(t: Telemetry, cfg: Config)
      modifies dash`right
      ensures dash.right == SpeedText(cfg.units, t.speed, old(dash.right))
    {
      if cfg.units == Mph {
        dash.right := IntText(Rf1.MpsToMph(t.speed));
      } else if cfg.units == Kmh {
        dash.right := IntText(Rf1.MpsToKph(t.speed));
      }
    }

    method TrackSession(t: Telemetry, now: real)
      modifies this`clock, this`compareLap, this`compareSector, this`currentSector,
               this`samples, this`compareFuel
      ensures Loop() == Session(old(Loop()), t.currentEt, now)
    {
      if t.currentEt != clock.value {
        if t.currentEt < clock.value {
          compareLap, compareSector, currentSector := 0.0, 0.0, 1;
          samples, compareFuel := FRESH, 0.0;
        }
        clock := Clock(t.currentEt, now, clock.delta);
      }
      var d := now - clock.update;
      if d > 0.5 && clock.value > 0.0 {
        d := 0.5;
      }
      clock := Clock(clock.value, clock.update, d);
    }

    /** Walks the whole vehicle array, keeping the last player and the session
        bests. */
    method ScanVehicles(t: Telemetry) returns (dd: Option<Vehicle>, best: Bests)
      ensures (dd, best) == ScanOf(t)
    {
      dd := None;
      var lap, s1, s2 := 0.0, 0.0, 0.0;
      if t.numVehicles > 0 {
        var vs := t.vehicles;
        var i := 0;
        while i < |vs|
          invariant 0 <= i <= |vs|
          invariant dd == LastPlayer(vs[..i])
          invariant lap == FieldBest(vs[..i], BestLap)
          invariant s1 == FieldBest(vs[..i], BestSector1)
          invariant s2 == FieldBest(vs[..i], BestSector2)
        {
          var d := vs[i];
          assert vs[..i + 1][..i] == vs[..i];
          if d.isPlayer {
            dd := Some(d);
          }
          if d.bestLapTime > 0.0 && (lap == 0.0 || d.bestLapTime < lap) {
            lap := d.bestLapTime;
          }
          if d.bestSector1 > 0.0 && (s1 == 0.0 || d.bestSector1 < s1) {
            s1 := d.bestSector1;
          }
          if d.bestSector2 > 0.0 && (s2 == 0.0 || d.bestSector2 < s2) {
            s2 := d.bestSector2;
          }
          i := i + 1;
        }
        assert vs[..i] == vs;
      }
      best := Bests(lap, s1, s2);
    }

    /** The body of `if(dd)`. */
    method Driver(dd: Vehicle, best: Bests, t: Telemetry, cfg: Config, fmt: Formats, now: real,
                  st0: Lamps) returns (out: Outcome, st: Lamps)
      modifies this`infoTextTime, this`currentSector, this`samples, this`compareFuel,
               this`compareLap, this`compareSector, dash`left, dash`right
      ensures var d := DriverPass(old(Loop()), old(dash.right), st0, dd, best, t, cfg, fmt, now);
        && Loop() == d.loop && dash.left == d.left && dash.right == d.right
        && st == d.status && out == d.outcome
    {
      var lap := LapClock(t, clock.delta);
      dash.left := LapText(fmt, lap);
      EnterNewSector(dd, t, now);
      Pages(dd, best, t, cfg, fmt, now, lap);
      out, st := Warn(dd, t, cfg, now, st0);
    }

    method EnterNewSector(dd: Vehicle, t: Telemetry, now: real)
      modifies this`infoTextTime, this`currentSector, this`samples, this`compareFuel
      ensures Loop() == EnterSector(old(Loop()), dd, t, now)
    {
      if currentSector != dd.sector {
        infoTextTime := now;
        currentSector := dd.sector;
        samples := FuelSample(samples, compareFuel, t.fuel);
        compareFuel := t.fuel;
        samples := TempSample(samples, t.engineWaterTemp, t.engineOilTemp);
      }
    }

    method Pages(dd: Vehicle, best: Bests, t: Telemetry, cfg: Config, fmt: Formats, now: real, lap: real)
      modifies this`compareLap, this`compareSector, dash`left, dash`right
      ensures var sh := InfoPages(old(Loop()), old(dash.left), old(dash.right), dd, best, t, cfg, fmt, now, lap);
        Loop() == sh.loop && dash.left == sh.left && dash.right == sh.right
    {
      if currentSector == 1 {
        var p := LapPages(compareLap, dash.left, dash.right, now - infoTextTime, cfg.info, dd, best,
                          t, clock.delta, fmt);
        compareLap := p.compareLap;
        dash.left, dash.right := p.left, p.right;
      } else if InSectorSplit(Loop(), cfg.info, now) {
        compareSector := CompareSectorOf(cfg.info.sectorCompare, currentSector, dd, best);
        dash.right := SectorSplitText(compareSector, currentSector, lap, dd, fmt);
      }
    }

    /** The fuel, temperature and pit warnings; the pass stops (`Halt`) where the
        temperature test raises. */
    method Warn(dd: Vehicle, t: Telemetry, cfg: Config, now: real, st0: Lamps) returns (out: Outcome, st: Lamps)
      modifies dash`left, dash`right
      ensures Warned(st, dash.left, dash.right, out)
              == Warnings(Loop(), dd, t, cfg, now, st0, old(dash.left), old(dash.right))
    {
      var fuel := FuelWarning(samples, t.fuel, st0, dash.left, cfg, blinkLed, blinkText, now);
      dash.left := fuel.1;
      var heat := HeatWarningAsWritten(samples, t.engineWaterTemp, t.engineOilTemp, t.overheating,
                                       fuel.0, fuel.1, cfg, blinkLed, blinkText, now);
      if heat.None? {
        out, st := Halt, fuel.0;
        return;
      }
      dash.left := heat.value.1;
      var pit := PitWarning(t, dd.inPits, heat.value.0, dash.right, cfg, blinkLed, blinkText, now);
      out, st, dash.right := Continue, pit.0, pit.1;
    }
  }
}
