/** The RaceRoom dashboard: one pass of the `while True` body of pyDashR3E.py. The
    variables the loop carries from pass to pass are the fields of `R3eDash`; the
    shared-memory block copied at the top of the pass is an `R3e.Shared` value. */
module DashR3e {
  import opened Wrappers
  import opened Text
  import opened Srd9c
  import opened DashCommon
  import R3e

  // ---------------------------------------------------------------------------
  // The green LEDs: the bar's, or the DRS and push-to-pass patterns'

  /** DRS or push-to-pass is doing something the green LEDs could show. */
  predicate Boosting(t: R3e.Shared)
  {
    t.ptp.amountLeft > 0 || t.ptp.engaged > 0 || t.drsEngaged > 0
  }

  /** Neither push-to-pass nor DRS is available or engaged. */
  predicate Idle(t: R3e.Shared)
  {
    t.ptp.available < 1 && t.ptp.engaged < 1 && t.drsEngaged < 1
  }

  /** The `use_green` flag after the check at the top of the pass: taken from the
      bar while boosting (when the settings give the LEDs to DRS and push-to-pass),
      given back once nothing is available, and otherwise kept. */
  function UseGreen(u: bool, t: R3e.Shared, cfg: Config): (r: bool)
    ensures cfg.drsLed && Boosting(t) ==> !r
    ensures !(cfg.drsLed && Boosting(t)) && Idle(t) ==> r
    ensures r != u ==> (cfg.drsLed && Boosting(t)) || Idle(t)
  {
    if Boosting(t) && cfg.drsLed then false
    else if Idle(t) then true
    else u
  }

  /** The flag is a hysteresis: deciding it twice on the same block changes
      nothing, and while push-to-pass stays available without being used the
      bar keeps whatever it had. */
  lemma UseGreenSettles(u: bool, t: R3e.Shared, cfg: Config)
    ensures UseGreen(UseGreen(u, t, cfg), t, cfg) == UseGreen(u, t, cfg)
    ensures t.ptp.available >= 1 && !Boosting(t) ==> UseGreen(u, t, cfg) == u
  {
  }

  /** DRS: the inner and outer pairs take turns with the LED blink. */
  function DrsGreen(cfg: Config, bl: real, now: real): string
  {
    if BlinkOn(cfg.ledBlink, bl, now) then INNER_PAIR else OUTER_PAIR
  }

  /** Push-to-pass cool-down: a charging bar in the last four seconds, else the
      first LED blinking. */
  function CooldownGreen(t: R3e.Shared, cfg: Config, bl: real, now: real): string
  {
    if t.ptp.waitTimeLeft <= 4.0 then Charging(t.ptp.waitTimeLeft)
    else if BlinkOn(cfg.ledBlink, bl, now) then NO_GREEN
    else FIRST_GREEN
  }

  /** Push-to-pass engaged: a depleting bar in the last four seconds, else the
      pairs taking turns. */
  function EngagedGreen(t: R3e.Shared, cfg: Config, bl: real, now: real): string
  {
    if t.ptp.engagedTimeLeft <= 4.0 then Depleting(t.ptp.engagedTimeLeft)
    else if BlinkOn(cfg.ledBlink, bl, now) then INNER_PAIR
    else OUTER_PAIR
  }

  /** The DRS and push-to-pass texts use their own switch with the text blink's
      duration; whether text blinking is enabled is not consulted. */
  predicate BoostTextOn(cfg: Config, bt: real, now: real)
  {
    cfg.drsText && now - bt <= cfg.textBlink.duration
  }

  /** The push-to-pass texts show while it is engaged with more than four seconds
      left. */
  predicate EngagedText(t: R3e.Shared, cfg: Config, bt: real, now: real)
  {
    t.ptp.engaged == 1 && t.ptp.engagedTimeLeft > 4.0 && BoostTextOn(cfg, bt, now)
  }

  /** `str(amount_left).ljust(4)`. */
  function AmountText(t: R3e.Shared): string
  {
    LJust(IntToString(t.ptp.amountLeft), 4, SPACE)
  }

  function DrsEffect(p: Panel, t: R3e.Shared, cfg: Config, bl: real, bt: real, now: real): Panel
  {
    if t.drsEngaged == 1 then
      var q := Painted(p, DrsGreen(cfg, bl, now));
      if BoostTextOn(cfg, bt, now) then Panel(DRS_TEXT, ON_TEXT, q.gear, q.rpm, q.status) else q
    else p
  }

  function CooldownEffect(p: Panel, t: R3e.Shared, cfg: Config, bl: real, now: real): Panel
  {
    if t.ptp.amountLeft > 0 then Painted(p, CooldownGreen(t, cfg, bl, now)) else p
  }

  function EngagedEffect(p: Panel, t: R3e.Shared, cfg: Config, bl: real, bt: real, now: real): Panel
  {
    if t.ptp.engaged == 1 then
      var q := Painted(p, EngagedGreen(t, cfg, bl, now));
      if EngagedText(t, cfg, bt, now) then Panel(PTP_TEXT, AmountText(t), q.gear, q.rpm, q.status) else q
    else p
  }

  /** The three effects, written in order: DRS, cool-down, engaged. */
  function Effects(p: Panel, t: R3e.Shared, cfg: Config, bl: real, bt: real, now: real): Panel
  {
    EngagedEffect(CooldownEffect(DrsEffect(p, t, cfg, bl, bt, now), t, cfg, bl, now), t, cfg, bl, bt, now)
  }

  /** Which pattern the green LEDs end up with: the later writes win, so engaged
      beats cool-down, which beats DRS. */
  function GreenOf(t: R3e.Shared, cfg: Config, bl: real, now: real, green: string): string
  {
    if t.ptp.engaged == 1 then EngagedGreen(t, cfg, bl, now)
    else if t.ptp.amountLeft > 0 then CooldownGreen(t, cfg, bl, now)
    else if t.drsEngaged == 1 then DrsGreen(cfg, bl, now)
    else green
  }

  /** The effects touch only the green LED string and the two text fields; the
      green LEDs show the pattern of highest priority, and the texts are push-to-
      pass's over DRS's over what was there. */
  lemma EffectsShow(p: Panel, t: R3e.Shared, cfg: Config, bl: real, bt: real, now: real)
    ensures var q := Effects(p, t, cfg, bl, bt, now);
      && q.gear == p.gear && q.status == p.status
      && q.rpm == WithGreen(p.rpm, GreenOf(t, cfg, bl, now, p.rpm.green))
      && (EngagedText(t, cfg, bt, now) ==> q.left == PTP_TEXT && q.right == AmountText(t))
      && (!EngagedText(t, cfg, bt, now) && t.drsEngaged == 1 && BoostTextOn(cfg, bt, now) ==>
            q.left == DRS_TEXT && q.right == ON_TEXT)
      && (!EngagedText(t, cfg, bt, now) && !(t.drsEngaged == 1 && BoostTextOn(cfg, bt, now)) ==>
            q.left == p.left && q.right == p.right)
  {
  }

  /** Whatever boost is active, the green group is given a full four-LED pattern. */
  lemma BoostPatternsFit(t: R3e.Shared, cfg: Config, bl: real, now: real, green: string)
    requires t.ptp.engaged == 1 || t.ptp.amountLeft > 0 || t.drsEngaged == 1
    ensures var g := GreenOf(t, cfg, bl, now, green);
      |g| == 4 && forall i :: 0 <= i < 4 ==> g[i] in "01"
  {
    if t.ptp.engaged == 1 && t.ptp.engagedTimeLeft <= 4.0 {
      DepletingPattern(t.ptp.engagedTimeLeft);
    } else if t.ptp.engaged != 1 && t.ptp.amountLeft > 0 && t.ptp.waitTimeLeft <= 4.0 {
      ChargingPattern(t.ptp.waitTimeLeft);
    }
  }

  // ---------------------------------------------------------------------------
  // Readouts and pages

  /** The speed readout in the units chosen; with any other units the right field
      keeps its text. */
  function SpeedText(u: Units, speed: real, right: string): string
  {
    match u
    case Mph => IntText(R3e.MpsToMph(speed))
    case Kmh => IntText(R3e.MpsToKph(speed))
    case OtherUnits => right
  }

  /** Index of the first driver in the given slot, or `|ds|` when there is none. */
  function FirstSlot(ds: seq<R3e.DriverData>, slot: int): (k: nat)
    ensures k <= |ds|
    ensures k < |ds| ==> ds[k].slotId == slot
    ensures forall j :: 0 <= j < k ==> ds[j].slotId != slot
  {
    if ds == [] then 0
    else if ds[0].slotId == slot then 0
    else 1 + FirstSlot(ds[1..], slot)
  }

  /** The player's entry: the first driver whose slot is the player's, searched
      only when the field is not empty. */
  function DriverOf(t: R3e.Shared): (dd: Option<R3e.DriverData>)
    ensures dd.Some? ==> dd.value in t.drivers && dd.value.slotId == t.slotId
    ensures dd.None? ==> t.numCars <= 0 || forall j :: 0 <= j < |t.drivers| ==> t.drivers[j].slotId != t.slotId
  {
    if t.numCars > 0 then
      var k := FirstSlot(t.drivers, t.slotId);
      if k < |t.drivers| then Some(t.drivers[k]) else None
    else None
  }

  /** Walks the driver array up to the first entry in the player's slot. */
  method FindDriver(t: R3e.Shared) returns (dd: Option<R3e.DriverData>)
    ensures dd == DriverOf(t)
  {
    dd := None;
    if t.numCars > 0 {
      var ds := t.drivers;
      var i := 0;
      while i < |ds|
        invariant 0 <= i <= |ds|
        invariant forall j :: 0 <= j < i ==> ds[j].slotId != t.slotId
        invariant dd.None?
      {
        if ds[i].slotId == t.slotId {
          dd := Some(ds[i]);
          break;
        }
        i := i + 1;
      }
      var k := FirstSlot(ds, t.slotId);
      assert dd.Some? ==> k == i;
      assert dd.None? ==> k == |ds|;
    }
  }

  /** The sector 1 pages follow one another in windows measured from the sector
      entry that are open on the left and closed on the right; a disabled page
      takes no time. */
  predicate InLapPage(info: InfoText, et: real)
  {
    var hi := Flag(info.lapSplit) * info.duration;
    0.0 < et <= hi && info.lapSplit
  }

  predicate InPositionPage(info: InfoText, et: real)
  {
    var lo := Flag(info.lapSplit) * info.duration;
    var hi := lo + Flag(info.position) * info.duration;
    lo < et <= hi && info.position
  }

  predicate InRemainingPage(info: InfoText, et: real)
  {
    var lo := Flag(info.lapSplit) * info.duration + Flag(info.position) * info.duration;
    var hi := lo + Flag(info.remaining) * info.duration;
    lo < et <= hi && info.remaining
  }

  /** The windows never overlap, none is open at the sector entry itself, and all
      of them are over once the enabled durations have elapsed. */
  lemma PagesExclusive(info: InfoText, et: real)
    ensures !(InLapPage(info, et) && InPositionPage(info, et))
    ensures !(InLapPage(info, et) && InRemainingPage(info, et))
    ensures !(InPositionPage(info, et) && InRemainingPage(info, et))
    ensures et <= 0.0 ==> !InLapPage(info, et) && !InPositionPage(info, et) && !InRemainingPage(info, et)
    ensures et > (Flag(info.lapSplit) + Flag(info.position) + Flag(info.remaining)) * info.duration
            ==> !InLapPage(info, et) && !InPositionPage(info, et) && !InRemainingPage(info, et)
  {
  }

  /** The lap the split page compares against, chosen after the page is over. */
  function CompareLapOf(mode: Compare, t: R3e.Shared): (r: real)
    ensures r == 0.0 || r > 0.0
    ensures mode == SelfPrevious ==> r == if t.lapTimePreviousSelf > 0.0 then t.lapTimePreviousSelf else 0.0
    ensures mode == SelfBest ==> r == if t.lapTimeBestSelf > 0.0 then t.lapTimeBestSelf else 0.0
    ensures mode == SessionBest ==> r == if t.lapTimeBestLeader > 0.0 then t.lapTimeBestLeader else 0.0
    ensures mode == OtherCompare ==> r == 0.0
  {
    if t.lapTimePreviousSelf > 0.0 && mode == SelfPrevious then t.lapTimePreviousSelf
    else if t.lapTimeBestSelf > 0.0 && mode == SelfBest then t.lapTimeBestSelf
    else if t.lapTimeBestLeader > 0.0 && mode == SessionBest then t.lapTimeBestLeader
    else 0.0
  }

  /** The right half of the remaining page: laps in the race, else the session
      time left, else blank. */
  function RemainingText(t: R3e.Shared, fmt: Formats): string
  {
    if t.numberOfLaps > 0 then CountText(t.numberOfLaps)
    else if t.sessionTimeRemaining > 0.0 then fmt.clock(t.sessionTimeRemaining)
    else FOUR_BLANKS
  }

  /** The split of the lap just completed against the comparison lap. */
  function LapSplitText(cmp: real, t: R3e.Shared, fmt: Formats): string
  {
    if cmp > 0.0 && t.lapTimePreviousSelf > 0.0 then fmt.delta(t.lapTimePreviousSelf - cmp) else NO_SPLIT
  }

  /** What the pages leave: the comparison lap and the two display fields. */
  datatype Pages = Pages(compareLap: real, left: string, right: string)

  /** The sector 1 pages, written in order. */
  function LapPages(cmp: real, left: string, right: string, et: real, info: InfoText,
                    t: R3e.Shared, fmt: Formats): Pages
  {
    var p1 :=
      if InLapPage(info, et) then Pages(cmp, LapText(fmt, t.lapTimePreviousSelf), LapSplitText(cmp, t, fmt))
      else Pages(CompareLapOf(info.lapCompare, t), left, right);
    var p2 :=
      if InPositionPage(info, et) then Pages(p1.compareLap, PositionText(t.position), CountText(t.numCars))
      else p1;
    if InRemainingPage(info, et) then Pages(p2.compareLap, LapsText(t.completedLaps), RemainingText(t, fmt))
    else p2
  }

  /** The comparison lap changes only outside the lap split window, and then to the
      lap the settings ask for; each page shows its own texts, and outside all
      windows the fields are left as they were. */
  lemma LapPagesShow(cmp: real, left: string, right: string, et: real, info: InfoText,
                     t: R3e.Shared, fmt: Formats)
    ensures var r := LapPages(cmp, left, right, et, info, t, fmt);
      && r.compareLap == (if InLapPage(info, et) then cmp else CompareLapOf(info.lapCompare, t))
      && (InLapPage(info, et) ==>
            r.left == LapText(fmt, t.lapTimePreviousSelf) && r.right == LapSplitText(cmp, t, fmt))
      && (InPositionPage(info, et) ==> r.left == PositionText(t.position) && r.right == CountText(t.numCars))
      && (InRemainingPage(info, et) ==> r.left == LapsText(t.completedLaps) && r.right == RemainingText(t, fmt))
      && (!InLapPage(info, et) && !InPositionPage(info, et) && !InRemainingPage(info, et) ==>
            r.left == left && r.right == right)
  {
    PagesExclusive(info, et);
  }

  /** The sector time the split compares against, for the sector just completed
      (index 0 for sector 1, 1 for sectors 1 and 2 together): the first of the
      previous, best and session best times that the settings ask for and that is
      set. */
  function CompareSectorOf(mode: Compare, i: nat, dd: R3e.DriverData, t: R3e.Shared): (r: real)
    requires i < 2
    ensures r == 0.0 || r > 0.0
    ensures mode == SelfPrevious ==> r == if dd.sectorPrevious[i] > 0.0 then dd.sectorPrevious[i] else 0.0
    ensures mode == SelfBest ==> r == if dd.sectorBest[i] > 0.0 then dd.sectorBest[i] else 0.0
    ensures mode == SessionBest ==> r == if t.sessionBestSectors[i] > 0.0 then t.sessionBestSectors[i] else 0.0
    ensures mode == OtherCompare ==> r == 0.0
  {
    if dd.sectorPrevious[i] > 0.0 && mode == SelfPrevious then dd.sectorPrevious[i]
    else if dd.sectorBest[i] > 0.0 && mode == SelfBest then dd.sectorBest[i]
    else if t.sessionBestSectors[i] > 0.0 && mode == SessionBest then t.sessionBestSectors[i]
    else 0.0
  }

  /** The sector choice as the script writes it: three separate `if`s, the last
      with an `else` that resets the comparison. Whatever the first two assign is
      overwritten by the third, so only the session best survives. */
  function CompareSectorAsWritten(mode: Compare, i: nat, dd: R3e.DriverData, t: R3e.Shared): real
    requires i < 2
  {
    if t.sessionBestSectors[i] > 0.0 && mode == SessionBest then t.sessionBestSectors[i] else 0.0
  }

  /** The split of the sector just completed, or the placeholder. */
  function SectorSplitText(cmp: real, i: nat, dd: R3e.DriverData, fmt: Formats): string
    requires i < 2
  {
    if cmp > 0.0 && dd.sectorCurrent[i] > 0.0 then fmt.delta(dd.sectorCurrent[i] - cmp) else NO_SPLIT
  }

  /** As written, a sector split compared with the driver's own previous or best
      sector never shows a time, even when both sector times are set; the chain
      of `elif`s shows the difference. */
  lemma SectorCompareAsWrittenLoses(mode: Compare, i: nat, dd: R3e.DriverData, t: R3e.Shared, fmt: Formats)
    requires i < 2 && (mode == SelfPrevious || mode == SelfBest) && dd.sectorCurrent[i] > 0.0
    ensures SectorSplitText(CompareSectorAsWritten(mode, i, dd, t), i, dd, fmt) == NO_SPLIT
    ensures var want := if mode == SelfPrevious then dd.sectorPrevious[i] else dd.sectorBest[i];
      want > 0.0 ==> SectorSplitText(CompareSectorOf(mode, i, dd, t), i, dd, fmt)
                     == fmt.delta(dd.sectorCurrent[i] - want)
  {
  }

  /** For the session best the two agree. */
  lemma SectorCompareAgrees(i: nat, dd: R3e.DriverData, t: R3e.Shared)
    requires i < 2
    ensures CompareSectorAsWritten(SessionBest, i, dd, t) == CompareSectorOf(SessionBest, i, dd, t)
  {
  }

  // ---------------------------------------------------------------------------
  // Warnings

  const FUEL_LOW: real := 0.1
  const FUEL_CRITICAL: real := 0.05
  const WATER_WARN: real := 91.0
  const WATER_CRITICAL: real := 93.0

  /** At most a tenth of the tank left, with fuel use on. */
  predicate FuelLow(t: R3e.Shared)
  {
    t.fuelUseActive == 1 && t.fuelCapacity > 0.0 && t.fuelLeft / t.fuelCapacity <= FUEL_LOW
  }

  predicate FuelCritical(t: R3e.Shared)
  {
    FuelLow(t) && t.fuelLeft / t.fuelCapacity < FUEL_CRITICAL
  }

  /** The red lamp: steady when fuel is low, blinking with the `fuel` text when it
      is critical. */
  function FuelWarning(t: R3e.Shared, st: Lamps, left: string, cfg: Config,
                       bl: real, bt: real, now: real): (Lamps, string)
  {
    if FuelCritical(t) then
      (st[0 := BlinkBit(cfg.ledBlink, bl, now)], if BlinkOn(cfg.textBlink, bt, now) then FUEL else left)
    else if FuelLow(t) then (st[0 := '1'], left)
    else (st, left)
  }

  /** The yellow lamp: steady from 91 degrees of water, blinking with the `heat`
      text above 93. */
  function HeatWarning(t: R3e.Shared, st: Lamps, left: string, cfg: Config,
                       bl: real, bt: real, now: real): (Lamps, string)
  {
    if t.engineWaterTemp > WATER_CRITICAL then
      (st[1 := BlinkBit(cfg.ledBlink, bl, now)], if BlinkOn(cfg.textBlink, bt, now) then HEAT else left)
    else if t.engineWaterTemp >= WATER_WARN then (st[1 := '1'], left)
    else (st, left)
  }

  /** In the pit lane: stopped in the pit window, or the limiter on. */
  predicate InPit(t: R3e.Shared)
  {
    t.pitWindowStatus == R3e.PitWindowCode(R3e.PitStopped) || t.pitLimiter == 1
  }

  /** The green lamp: steady while the pit window is open, blinking with the
      `pit` text while in the pit lane. */
  function PitWarning(t: R3e.Shared, st: Lamps, right: string, cfg: Config,
                      bl: real, bt: real, now: real): (Lamps, string)
  {
    var st1: Lamps := if t.pitWindowStatus == R3e.PitWindowCode(R3e.PitOpen) then st[3 := '1'] else st;
    if InPit(t) then
      (st1[3 := BlinkBit(cfg.ledBlink, bl, now)], if BlinkOn(cfg.textBlink, bt, now) then PIT else right)
    else (st1, right)
  }

  /** The three warnings, in order. */
  function Warnings(t: R3e.Shared, cfg: Config, bl: real, bt: real, now: real,
                    st: Lamps, left: string, right: string): (Lamps, string, string)
  {
    var (st1, left1) := FuelWarning(t, st, left, cfg, bl, bt, now);
    var (st2, left2) := HeatWarning(t, st1, left1, cfg, bl, bt, now);
    var (st3, right3) := PitWarning(t, st2, right, cfg, bl, bt, now);
    (st3, left2, right3)
  }

  /** Starting from the shift light alone, each warning owns one lamp: red for
      fuel, yellow for heat, green for the pits. A lamp is lit while its warning
      holds, except in the on phase of the blink when the warning is critical; the
      shift light is left alone. The heat text wins over the fuel text. */
  lemma WarningLamps(t: R3e.Shared, cfg: Config, bl: real, bt: real, now: real,
                     st: Lamps, left: string, right: string)
    requires st[0] == st[1] == st[3] == '0'
    ensures var (r, l, rt) := Warnings(t, cfg, bl, bt, now, st, left, right);
      var blink := BlinkOn(cfg.ledBlink, bl, now);
      var text := BlinkOn(cfg.textBlink, bt, now);
      && r[2] == st[2]
      && (r[0] == '1' <==> FuelLow(t) && !(FuelCritical(t) && blink))
      && (r[1] == '1' <==> t.engineWaterTemp >= WATER_WARN && !(t.engineWaterTemp > WATER_CRITICAL && blink))
      && (r[3] == '1' <==> if InPit(t) then !blink else t.pitWindowStatus == R3e.PitWindowCode(R3e.PitOpen))
      && l == (if t.engineWaterTemp > WATER_CRITICAL && text then HEAT
               else if FuelCritical(t) && text then FUEL else left)
      && rt == (if InPit(t) && text then PIT else right)
  {
  }

  // ---------------------------------------------------------------------------
  // The whole pass

  /** The loop-carried variables (`blink_time` as its two entries). */
  datatype R3eLoop = R3eLoop(
    blinkLed: real, blinkText: real, compareLap: real, compareSector: real,
    infoTextTime: real, currentSector: int)

  /** Their values before the first pass. */
  const START: R3eLoop := R3eLoop(0.0, 0.0, 0.0, 0.0, 0.0, 0)

  /** The blink anchors move on. */
  function Blinks(l: R3eLoop, cfg: Config, now: real): R3eLoop
  {
    R3eLoop(BlinkAnchor(l.blinkLed, now, cfg.ledBlink.duration),
            BlinkAnchor(l.blinkText, now, cfg.textBlink.duration),
            l.compareLap, l.compareSector, l.infoTextTime, l.currentSector)
  }

  /** Entering a new sector restarts the page timer. */
  function EnterSector(l: R3eLoop, dd: R3e.DriverData, now: real): R3eLoop
  {
    if l.currentSector != dd.trackSector then
      R3eLoop(l.blinkLed, l.blinkText, l.compareLap, l.compareSector, now, dd.trackSector)
    else l
  }

  /** The sector split shows in sectors 2 and 3 for one page duration after the
      sector entry. */
  predicate InSectorSplit(l: R3eLoop, info: InfoText, now: real)
  {
    (l.currentSector == 2 || l.currentSector == 3) && info.sectorSplit
    && now - l.infoTextTime <= info.duration
  }

  /** What the info texts leave behind. */
  datatype Shown = Shown(loop: R3eLoop, left: string, right: string)

  function InfoPages(l: R3eLoop, left: string, right: string, dd: R3e.DriverData,
                     t: R3e.Shared, cfg: Config, fmt: Formats, now: real): Shown
  {
    if l.currentSector == 1 then
      var p := LapPages(l.compareLap, left, right, now - l.infoTextTime, cfg.info, t, fmt);
      Shown(R3eLoop(l.blinkLed, l.blinkText, p.compareLap, l.compareSector, l.infoTextTime, l.currentSector),
            p.left, p.right)
    else if InSectorSplit(l, cfg.info, now) then
      var i: nat := l.currentSector - 2;
      var cmp := CompareSectorAsWritten(cfg.info.sectorCompare, i, dd, t);
      Shown(R3eLoop(l.blinkLed, l.blinkText, l.compareLap, cmp, l.infoTextTime, l.currentSector),
            left, SectorSplitText(cmp, i, dd, fmt))
    else Shown(l, left, right)
  }

  /** Within the sector split window the pass compares as the script is written:
      against the driver's own previous or best sector it shows `--.--`, and
      against the session best it shows the split the corrected chain gives. */
  lemma SectorSplitAsWrittenShows(l: R3eLoop, left: string, right: string, dd: R3e.DriverData,
                                  t: R3e.Shared, cfg: Config, fmt: Formats, now: real)
    requires l.currentSector != 1 && InSectorSplit(l, cfg.info, now)
    ensures var sh := InfoPages(l, left, right, dd, t, cfg, fmt, now);
      var i: nat := l.currentSector - 2;
      var mode := cfg.info.sectorCompare;
      && sh.left == left
      && ((mode == SelfPrevious || mode == SelfBest) && dd.sectorCurrent[i] > 0.0 ==> sh.right == NO_SPLIT)
      && (mode == SessionBest ==> sh.right == SectorSplitText(CompareSectorOf(mode, i, dd, t), i, dd, fmt))
  {
    var i: nat := l.currentSector - 2;
    var mode := cfg.info.sectorCompare;
    if (mode == SelfPrevious || mode == SelfBest) && dd.sectorCurrent[i] > 0.0 {
      SectorCompareAsWrittenLoses(mode, i, dd, t, fmt);
    }
    if mode == SessionBest {
      SectorCompareAgrees(i, dd, t);
    }
  }

  /** Everything inside `if(dd)`: the sector entry and the pages. */
  function DriverPass(l: R3eLoop, left: string, right: string, dd: R3e.DriverData,
                      t: R3e.Shared, cfg: Config, fmt: Formats, now: real): Shown
  {
    InfoPages(EnterSector(l, dd, now), left, right, dd, t, cfg, fmt, now)
  }

  /** One pass of the loop body. It raises (and the script ends) when no bar group
      is enabled while the maximum engine speed is known, or when the gear is not
      in the table; up to that point its writes stay. */
  function Tick(l: R3eLoop, p: Panel, t: R3e.Shared, cfg: Config, fmt: Formats, now: real): After<R3eLoop>
  {
    var f := Front(l, p, t, cfg, now);
    if f.outcome == Halt then f else Drive(f.loop, f.panel, f.status, t, cfg, fmt, now)
  }

  /** The green flag, the blink timers, the bar value and the gear: the part of a
      pass that can raise. */
  function Front(l: R3eLoop, p: Panel, t: R3e.Shared, cfg: Config, now: real): After<R3eLoop>
  {
    var p0 := GreenUsed(p, UseGreen(p.rpm.useGreen, t, cfg));
    var l1 := Blinks(l, cfg, now);
    var v := RpmValue(t.engineRps, t.maxEngineRps, BarGroups(p0.rpm), SPAN);
    if v.None? then After(l1, p0, LAMPS_OFF, Halt)
    else
      var p1 := Valued(p0, v.value);
      var g := GearGlyph(t.gear, cfg.neutral);
      if g.None? then After(l1, p1, LAMPS_OFF, Halt)
      else After(l1, Geared(p1, g.value), ShiftLamps(t.engineRps, t.maxEngineRps, SHIFT), Continue)
  }

  /** The rest of a pass, from the speed readout up to the engine gate; it cannot
      raise. */
  function Drive(l: R3eLoop, p: Panel, st: Lamps, t: R3e.Shared, cfg: Config, fmt: Formats, now: real): After<R3eLoop>
  {
    var right := SpeedText(cfg.units, t.carSpeed, p.right);
    var left := LapText(fmt, t.lapTimeCurrentSelf);
    var dd := DriverOf(t);
    var sh := if dd.Some? then DriverPass(l, left, right, dd.value, t, cfg, fmt, now) else Shown(l, left, right);
    var (st1, left1, right1) := Warnings(t, cfg, l.blinkLed, l.blinkText, now, st, sh.left, sh.right);
    var q := Effects(Panel(left1, right1, p.gear, p.rpm, p.status), t, cfg, l.blinkLed, l.blinkText, now);
    After(sh.loop, q, st1, Continue)
  }

  /** With the LEDs given to DRS and push-to-pass, a pass that runs to its end with
      the engine running shows the pattern of highest priority on the green LEDs,
      untouched by the bar. */
  lemma GreenShowsPattern(l: R3eLoop, p: Panel, t: R3e.Shared, cfg: Config, fmt: Formats, now: real)
    requires cfg.drsLed && Boosting(t)
    requires Tick(l, p, t, cfg, fmt, now).outcome == Continue
    ensures var a := Tick(l, p, t, cfg, fmt, now);
      var q := Gated(a.panel, a.status, t.engineRps > 0.0);
      t.engineRps > 0.0 ==>
        && !q.rpm.useGreen
        && q.rpm.green == GreenOf(t, cfg, BlinkAnchor(l.blinkLed, now, cfg.ledBlink.duration), now, p.rpm.green)
  {
    var f := Front(l, p, t, cfg, now);
    var d := Drive(f.loop, f.panel, f.status, t, cfg, fmt, now);
    var sh := if DriverOf(t).Some? then DriverPass(f.loop, LapText(fmt, t.lapTimeCurrentSelf),
                                                   SpeedText(cfg.units, t.carSpeed, f.panel.right),
                                                   DriverOf(t).value, t, cfg, fmt, now)
              else Shown(f.loop, LapText(fmt, t.lapTimeCurrentSelf), SpeedText(cfg.units, t.carSpeed, f.panel.right));
    var w := Warnings(t, cfg, f.loop.blinkLed, f.loop.blinkText, now, f.status, sh.left, sh.right);
    var e := Panel(w.1, w.2, f.panel.gear, f.panel.rpm, f.panel.status);
    EffectsShow(e, t, cfg, f.loop.blinkLed, f.loop.blinkText, now);
    assert d.panel == Effects(e, t, cfg, f.loop.blinkLed, f.loop.blinkText, now);
    CalcLedsKeeps(Panel(d.panel.left, d.panel.right, d.panel.gear, d.panel.rpm, d.status));
  }

  // ---------------------------------------------------------------------------
  // The loop body, step by step

  class R3eDash {
    var blinkLed: real
    var blinkText: real
    var compareLap: real
    var compareSector: real
    var infoTextTime: real
    var currentSector: int
    /** The SRD-9c the script opened before entering the loop. */
    const dash: Display

    function Loop(): R3eLoop
      reads this
    {
      R3eLoop(blinkLed, blinkText, compareLap, compareSector, infoTextTime, currentSector)
    }

    constructor (d: Display)
      ensures Loop() == START && dash == d
    {
      blinkLed, blinkText := 0.0, 0.0;
      compareLap, compareSector, infoTextTime, currentSector := 0.0, 0.0, 0.0, 0;
      dash := d;
    }

    /** One pass of the `while True` body, given the block copied from shared
        memory and the settings in force. A pass that runs to its end leaves the
        report of the gated display as the one last sent. */
    method Step(t: R3e.Shared, cfg: Config, fmt: Formats, now: real) returns (out: Outcome)
      modifies this, dash
      ensures var a := Tick(old(Loop()), old(dash.Snapshot()), t, cfg, fmt, now);
        && Loop() == a.loop && out == a.outcome
        && (out == Halt ==> dash.Snapshot() == a.panel && dash.report == old(dash.report))
        && (out == Continue ==> dash.Snapshot() == Gated(a.panel, a.status, t.engineRps > 0.0))
      ensures out == Continue ==> dash.report == PackOf(dash.Snapshot())
    {
      var st: Lamps;
      out, st := StartPass(t, cfg, now);
      if out == Halt {
        return;
      }
      st := Prepare(st, t, cfg, fmt, now);
      Gate(dash, st, t.engineRps > 0.0);
    }

    /** The green flag, the blink timers, the bar and the gear, stopping at the
        first raise. */
    method StartPass(t: R3e.Shared, cfg: Config, now: real) returns (out: Outcome, st: Lamps)
      modifies this`blinkLed, this`blinkText, dash`rpm, dash`gear
      ensures var f := Front(old(Loop()), old(dash.Snapshot()), t, cfg, now);
        && Loop() == f.loop && dash.Snapshot() == f.panel && out == f.outcome
        && (out == Continue ==> st == f.status)
    {
      ShareGreen(t, cfg);
      BlinkTimers(cfg, now);
      out, st := SetBar(dash, t.engineRps, t.maxEngineRps, SPAN, SHIFT);
      if out == Halt {
        return;
      }
      out := SetGear(dash, t.gear, cfg.neutral);
    }

    /** Everything from the speed readout up to the engine gate. */
    method Prepare(st0: Lamps, t: R3e.Shared, cfg: Config, fmt: Formats, now: real) returns (st: Lamps)
      modifies this`compareLap, this`compareSector, this`infoTextTime, this`currentSector,
               dash`left, dash`right, dash`rpm
      ensures var a := Drive(old(Loop()), old(dash.Snapshot()), st0, t, cfg, fmt, now);
        Loop() == a.loop && dash.Snapshot() == a.panel && st == a.status
    {
      SetSpeed(t, cfg);
      dash.left := LapText(fmt, t.lapTimeCurrentSelf);
      var dd := FindDriver(t);
      if dd.Some? {
        EnterNewSector(dd.value, now);
        Pages(dd.value, t, cfg, fmt, now);
      }
      st := Warn(t, cfg, now, st0);
      Boost(t, cfg, now);
    }

    method ShareGreen(t: R3e.Shared, cfg: Config)
      modifies dash`rpm
      ensures dash.Snapshot() == GreenUsed(old(dash.Snapshot()), UseGreen(old(dash.rpm.useGreen), t, cfg))
    {
      if (t.ptp.amountLeft > 0 || t.ptp.engaged > 0 || t.drsEngaged > 0) && cfg.drsLed {
        dash.rpm := WithUseGreen(dash.rpm, false);
      } else if t.ptp.available < 1 && t.ptp.engaged < 1 && t.drsEngaged < 1 {
        dash.rpm := WithUseGreen(dash.rpm, true);
      }
    }

    method BlinkTimers(cfg: Config, now: real)
      modifies this`blinkLed, this`blinkText
      ensures Loop() == Blinks(old(Loop()), cfg, now)
    {
      if now - blinkLed >= cfg.ledBlink.duration * 2.0 {
        blinkLed := now;
      }
      if now - blinkText >= cfg.textBlink.duration * 2.0 {
        blinkText := now;
      }
    }

    method SetSpeed(t: R3e.Shared, cfg: Config)
      modifies dash`right
      ensures dash.right == SpeedText(cfg.units, t.carSpeed, old(dash.right))
    {
      if cfg.units == Mph {
        dash.right := IntText(R3e.MpsToMph(t.carSpeed));
      } else if cfg.units == Kmh {
        dash.right := IntText(R3e.MpsToKph(t.carSpeed));
      }
    }

    method EnterNewSector(dd: R3e.DriverData, now: real)
      modifies this`infoTextTime, this`currentSector
      ensures Loop() == EnterSector(old(Loop()), dd, now)
    {
      if currentSector != dd.trackSector {
        infoTextTime := now;
        currentSector := dd.trackSector;
      }
    }

    method Pages(dd: R3e.DriverData, t: R3e.Shared, cfg: Config, fmt: Formats, now: real)
      modifies this`compareLap, this`compareSector, dash`left, dash`right
      ensures var sh := InfoPages(old(Loop()), old(dash.left), old(dash.right), dd, t, cfg, fmt, now);
        Loop() == sh.loop && dash.left == sh.left && dash.right == sh.right
    {
      if currentSector == 1 {
        var p := LapPages(compareLap, dash.left, dash.right, now - infoTextTime, cfg.info, t, fmt);
        compareLap := p.compareLap;
        dash.left, dash.right := p.left, p.right;
      } else if InSectorSplit(Loop(), cfg.info, now) {
        var i: nat := currentSector - 2;
        var mode := cfg.info.sectorCompare;
        if dd.sectorPrevious[i] > 0.0 && mode == SelfPrevious {
          compareSector := dd.sectorPrevious[i];
        }
        if dd.sectorBest[i] > 0.0 && mode == SelfBest {
          compareSector := dd.sectorBest[i];
        }
        if t.sessionBestSectors[i] > 0.0 && mode == SessionBest {
          compareSector := t.sessionBestSectors[i];
        } else {
          compareSector := 0.0;
        }
        dash.right := SectorSplitText(compareSector, i, dd, fmt);
      }
    }

    method Warn(t: R3e.Shared, cfg: Config, now: real, st0: Lamps) returns (st: Lamps)
      modifies dash`left, dash`right
      ensures (st, dash.left, dash.right) == Warnings(t, cfg, blinkLed, blinkText, now, st0, old(dash.left), old(dash.right))
    {
      var fuel := FuelWarning(t, st0, dash.left, cfg, blinkLed, blinkText, now);
      var heat := HeatWarning(t, fuel.0, fuel.1, cfg, blinkLed, blinkText, now);
      dash.left := heat.1;
      var pit := PitWarning(t, heat.0, dash.right, cfg, blinkLed, blinkText, now);
      st, dash.right := pit.0, pit.1;
    }

    /** The DRS and push-to-pass effects on the green LEDs and the texts. */
    method Boost(t: R3e.Shared, cfg: Config, now: real)
      modifies dash`left, dash`right, dash`rpm
      ensures dash.Snapshot() == Effects(old(dash.Snapshot()), t, cfg, blinkLed, blinkText, now)
    {
      if t.drsEngaged == 1 {
        dash.rpm := WithGreen(dash.rpm, DrsGreen(cfg, blinkLed, now));
        if BoostTextOn(cfg, blinkText, now) {
          dash.left, dash.right := DRS_TEXT, ON_TEXT;
        }
      }
      if t.ptp.amountLeft > 0 {
        dash.rpm := WithGreen(dash.rpm, CooldownGreen(t, cfg, blinkLed, now));
      }
      if t.ptp.engaged == 1 {
        dash.rpm := WithGreen(dash.rpm, EngagedGreen(t, cfg, blinkLed, now));
        if EngagedText(t, cfg, blinkText, now) {
          dash.left, dash.right := PTP_TEXT, AmountText(t);
        }
      }
    }
  }
}
