/** The first RaceRoom dashboard, the `__main__` block of r3e.py: the same
    shared-memory block as pyDashR3E.py, but no settings file, fixed page and
    blink timings, and one blink anchor that each blinking branch re-anchors on
    its own. */
module R3eLegacy {
  import opened Wrappers
  import opened Text
  import opened Srd9c
  import opened DashCommon
  import R3e
  import DashR3e

  /** `blink_duration` and `sector_split_duration`, and the fixed neutral glyph. */
  const BLINK: real := 0.5
  const SPLIT: real := 3.0
  const NEUTRAL: string := "n"

  // ---------------------------------------------------------------------------
  // The green flag

  /** `use_green`: taken from the bar whenever DRS or push-to-pass is doing
      something, given back once nothing is available. */
  function UseGreen(u: bool, t: R3e.Shared): (r: bool)
    ensures DashR3e.Boosting(t) ==> !r
    ensures !DashR3e.Boosting(t) && DashR3e.Idle(t) ==> r
    ensures r != u ==> DashR3e.Boosting(t) || DashR3e.Idle(t)
  {
    if DashR3e.Boosting(t) then false
    else if DashR3e.Idle(t) then true
    else u
  }

  /** The later script keeps this rule, behind its `drs_ptp.led` switch. */
  lemma UseGreenAsLater(u: bool, t: R3e.Shared, cfg: Config)
    requires cfg.drsLed
    ensures UseGreen(u, t) == DashR3e.UseGreen(u, t, cfg)
  {
  }

  // ---------------------------------------------------------------------------
  // The one blink anchor

  /** A blinking branch first moves the anchor on by a full period... */
  function Anchor(a: real, now: real): real
  {
    BlinkAnchor(a, now, BLINK)
  }

  /** ...and then is in its on phase for the first half of the period. */
  predicate On(a: real, now: real)
  {
    now - Anchor(a, now) <= BLINK
  }

  /** The anchor, the status list and the display fields as the warnings and
      effects hand them on. */
  datatype Scene = Scene(anchor: real, status: Lamps, panel: Panel)

  function WithLeft(p: Panel, s: string): Panel
  {
    Panel(s, p.right, p.gear, p.rpm, p.status)
  }

  function WithRight(p: Panel, s: string): Panel
  {
    Panel(p.left, s, p.gear, p.rpm, p.status)
  }

  // ---------------------------------------------------------------------------
  // Warnings

  /** The red lamp: lit when fuel is low; when critical, lit with the `fuel` text
      in the on phase and dark in the off phase. */
  function FuelWarning(t: R3e.Shared, s: Scene, now: real): Scene
  {
    if DashR3e.FuelCritical(t) then
      var a := Anchor(s.anchor, now);
      if now - a <= BLINK then Scene(a, s.status[0 := '1'], WithLeft(s.panel, FUEL))
      else Scene(a, s.status[0 := '0'], s.panel)
    else if DashR3e.FuelLow(t) then Scene(s.anchor, s.status[0 := '1'], s.panel)
    else s
  }

  /** The yellow lamp: lit from 91 degrees of water; above 93, lit in the on phase
      and dark with the `heat` text in the off phase. */
  function HeatWarning(t: R3e.Shared, s: Scene, now: real): Scene
  {
    if t.engineWaterTemp > DashR3e.WATER_CRITICAL then
      var a := Anchor(s.anchor, now);
      if now - a <= BLINK then Scene(a, s.status[1 := '1'], s.panel)
      else Scene(a, s.status[1 := '0'], WithLeft(s.panel, HEAT))
    else if t.engineWaterTemp >= DashR3e.WATER_WARN then Scene(s.anchor, s.status[1 := '1'], s.panel)
    else s
  }

  /** The green lamp: lit while the pit window is open; in the pit lane, lit in the
      on phase and dark with the `pit` text in the off phase. */
  function PitWarning(t: R3e.Shared, s: Scene, now: real): Scene
  {
    var st1: Lamps := if t.pitWindowStatus == R3e.PitWindowCode(R3e.PitOpen) then s.status[3 := '1'] else s.status;
    if DashR3e.InPit(t) then
      var a := Anchor(s.anchor, now);
      if now - a <= BLINK then Scene(a, st1[3 := '1'], s.panel)
      else Scene(a, st1[3 := '0'], WithRight(s.panel, PIT))
    else Scene(s.anchor, st1, s.panel)
  }

  function Warnings(t: R3e.Shared, s: Scene, now: real): Scene
  {
    PitWarning(t, HeatWarning(t, FuelWarning(t, s, now), now), now)
  }

  // ---------------------------------------------------------------------------
  // Effects

  function DrsEffect(t: R3e.Shared, s: Scene, now: real): Scene
  {
    if t.drsEngaged == 1 then
      var a := Anchor(s.anchor, now);
      if now - a <= BLINK then
        Scene(a, s.status, Panel(DRS_TEXT, ON_TEXT, s.panel.gear, WithGreen(s.panel.rpm, INNER_PAIR), s.panel.status))
      else Scene(a, s.status, Painted(s.panel, OUTER_PAIR))
    else s
  }

  function CooldownEffect(t: R3e.Shared, s: Scene, now: real): Scene
  {
    if t.ptp.amountLeft > 0 then
      if t.ptp.waitTimeLeft <= 4.0 then Scene(s.anchor, s.status, Painted(s.panel, Charging(t.ptp.waitTimeLeft)))
      else
        var a := Anchor(s.anchor, now);
        Scene(a, s.status, Painted(s.panel, if now - a <= BLINK then FIRST_GREEN else LAST_GREEN))
    else s
  }

  function EngagedEffect(t: R3e.Shared, s: Scene, now: real): Scene
  {
    if t.ptp.engaged == 1 then
      if t.ptp.engagedTimeLeft <= 4.0 then Scene(s.anchor, s.status, Painted(s.panel, Depleting(t.ptp.engagedTimeLeft)))
      else
        var a := Anchor(s.anchor, now);
        if now - a <= BLINK then
          Scene(a, s.status, Panel(PTP_TEXT, DashR3e.AmountText(t), s.panel.gear,
                                   WithGreen(s.panel.rpm, INNER_PAIR), s.panel.status))
        else Scene(a, s.status, Painted(s.panel, OUTER_PAIR))
    else s
  }

  function Effects(t: R3e.Shared, s: Scene, now: real): Scene
  {
    EngagedEffect(t, CooldownEffect(t, DrsEffect(t, s, now), now), now)
  }

  /** A branch that blinks leaves the anchor where the first one put it: every
      blinking branch of a pass sees the same phase. */
  lemma ReanchorOnce(a: real, now: real)
    ensures Anchor(Anchor(a, now), now) == Anchor(a, now)
    ensures On(Anchor(a, now), now) == On(a, now)
  {
    BlinkAnchorIdempotent(a, now, BLINK);
  }

  /** Whatever blinked, an anchor handed on is either the one the pass started
      with or that one moved on once, and it has the phase of the start. */
  predicate SamePhase(a0: real, a: real, now: real)
  {
    (a == a0 || a == Anchor(a0, now)) && Anchor(a, now) == Anchor(a0, now)
  }

  lemma WarningsAnchor(t: R3e.Shared, s: Scene, now: real)
    ensures SamePhase(s.anchor, Warnings(t, s, now).anchor, now)
  {
    ReanchorOnce(s.anchor, now);
  }

  lemma EffectsAnchor(t: R3e.Shared, s: Scene, now: real)
    ensures SamePhase(s.anchor, Effects(t, s, now).anchor, now)
  {
    ReanchorOnce(s.anchor, now);
  }

  /** Starting from the shift light alone, each warning owns one lamp, lit while
      its warning holds except in the off phase when it blinks; the phase is the
      one the pass started with. The heat and pit texts show in the off phase,
      the fuel text in the on phase. */
  lemma WarningLamps(t: R3e.Shared, s: Scene, now: real)
    requires s.status[0] == s.status[1] == s.status[3] == '0'
    ensures var r := Warnings(t, s, now);
      var on := On(s.anchor, now);
      var hot := t.engineWaterTemp > DashR3e.WATER_CRITICAL;
      && r.status[2] == s.status[2]
      && (r.status[0] == '1' <==> DashR3e.FuelLow(t) && (DashR3e.FuelCritical(t) ==> on))
      && (r.status[1] == '1' <==> t.engineWaterTemp >= DashR3e.WATER_WARN && (hot ==> on))
      && (r.status[3] == '1' <==> if DashR3e.InPit(t) then on
                                  else t.pitWindowStatus == R3e.PitWindowCode(R3e.PitOpen))
      && r.panel.left == (if hot && !on then HEAT
                          else if DashR3e.FuelCritical(t) && on then FUEL else s.panel.left)
      && r.panel.right == (if DashR3e.InPit(t) && !on then PIT else s.panel.right)
      && r.panel.gear == s.panel.gear && r.panel.rpm == s.panel.rpm
  {
    ReanchorOnce(s.anchor, now);
  }

  /** The green pattern the effects leave, later writes winning. */
  function GreenOf(t: R3e.Shared, on: bool, green: string): string
  {
    if t.ptp.engaged == 1 then
      if t.ptp.engagedTimeLeft <= 4.0 then Depleting(t.ptp.engagedTimeLeft)
      else if on then INNER_PAIR else OUTER_PAIR
    else if t.ptp.amountLeft > 0 then
      if t.ptp.waitTimeLeft <= 4.0 then Charging(t.ptp.waitTimeLeft)
      else if on then FIRST_GREEN else LAST_GREEN
    else if t.drsEngaged == 1 then
      if on then INNER_PAIR else OUTER_PAIR
    else green
  }

  /** Each effect hands on an anchor of the same phase and changes, besides the
      texts, at most the green LED string. */
  lemma EffectSteps(t: R3e.Shared, s: Scene, now: real)
    ensures var r := DrsEffect(t, s, now);
      && SamePhase(s.anchor, r.anchor, now) && r.status == s.status
      && r.panel.gear == s.panel.gear && r.panel.status == s.panel.status
      && r.panel.rpm == WithGreen(s.panel.rpm, if t.drsEngaged == 1 then
                                                 (if On(s.anchor, now) then INNER_PAIR else OUTER_PAIR)
                                               else s.panel.rpm.green)
    ensures var r := CooldownEffect(t, s, now);
      && SamePhase(s.anchor, r.anchor, now) && r.status == s.status
      && r.panel.gear == s.panel.gear && r.panel.status == s.panel.status
      && r.panel.left == s.panel.left && r.panel.right == s.panel.right
      && r.panel.rpm == WithGreen(s.panel.rpm, if t.ptp.amountLeft > 0 then
                                                 (if t.ptp.waitTimeLeft <= 4.0 then Charging(t.ptp.waitTimeLeft)
                                                  else if On(s.anchor, now) then FIRST_GREEN else LAST_GREEN)
                                               else s.panel.rpm.green)
    ensures var r := EngagedEffect(t, s, now);
      && SamePhase(s.anchor, r.anchor, now) && r.status == s.status
      && r.panel.gear == s.panel.gear && r.panel.status == s.panel.status
      && r.panel.rpm == WithGreen(s.panel.rpm, if t.ptp.engaged == 1 then
                                                 (if t.ptp.engagedTimeLeft <= 4.0 then Depleting(t.ptp.engagedTimeLeft)
                                                  else if On(s.anchor, now) then INNER_PAIR else OUTER_PAIR)
                                               else s.panel.rpm.green)
  {
    ReanchorOnce(s.anchor, now);
  }

  /** The effects change only the green LEDs and the texts; engaged push-to-pass
      wins over its cool-down, which wins over DRS. */
  lemma EffectsGreen(t: R3e.Shared, s: Scene, now: real)
    ensures var r := Effects(t, s, now);
      && r.status == s.status && r.panel.gear == s.panel.gear && r.panel.status == s.panel.status
      && r.panel.rpm == WithGreen(s.panel.rpm, GreenOf(t, On(s.anchor, now), s.panel.rpm.green))
  {
    var s1 := DrsEffect(t, s, now);
    var s2 := CooldownEffect(t, s1, now);
    EffectSteps(t, s, now);
    EffectSteps(t, s1, now);
    EffectSteps(t, s2, now);
    assert On(s1.anchor, now) == On(s.anchor, now) && On(s2.anchor, now) == On(s.anchor, now);
  }

  /** The texts show in the on phase only, push-to-pass's over DRS's. */
  lemma EffectsTexts(t: R3e.Shared, s: Scene, now: real)
    ensures var r := Effects(t, s, now);
      var on := On(s.anchor, now);
      var ptp := t.ptp.engaged == 1 && t.ptp.engagedTimeLeft > 4.0 && on;
      && (ptp ==> r.panel.left == PTP_TEXT && r.panel.right == DashR3e.AmountText(t))
      && (!ptp && t.drsEngaged == 1 && on ==> r.panel.left == DRS_TEXT && r.panel.right == ON_TEXT)
      && (!ptp && !(t.drsEngaged == 1 && on) ==> r.panel.left == s.panel.left && r.panel.right == s.panel.right)
  {
    var s1 := DrsEffect(t, s, now);
    var s2 := CooldownEffect(t, s1, now);
    EffectSteps(t, s, now);
    EffectSteps(t, s1, now);
    assert On(s1.anchor, now) == On(s.anchor, now) && On(s2.anchor, now) == On(s.anchor, now);
  }

  // ---------------------------------------------------------------------------
  // Pages

  /** The loop-carried variables. `previous_lap` is `None` or a lap time. */
  datatype LegacyLoop = LegacyLoop(blinkLast: real, previousLap: Option<real>, splitLast: real, splitSector: int)

  const START: LegacyLoop := LegacyLoop(0.0, None, 0.0, 0)

  /** Entering a new sector restarts the page timer. */
  function EnterSector(l: LegacyLoop, dd: R3e.DriverData, now: real): LegacyLoop
  {
    if l.splitSector != dd.trackSector then LegacyLoop(l.blinkLast, l.previousLap, now, dd.trackSector)
    else l
  }

  /** The lap split against the lap recorded on the last position page. */
  function LapSplitText(prev: Option<real>, t: R3e.Shared, fmt: Formats): string
  {
    if !Unset(prev) && t.lapTimePreviousSelf > 0.0 then fmt.delta(t.lapTimePreviousSelf - prev.value)
    else NO_SPLIT
  }

  /** The sector split against the driver's own previous sector. */
  function SectorSplitText(i: nat, dd: R3e.DriverData, fmt: Formats): string
    requires i < 2
  {
    if dd.sectorPrevious[i] > 0.0 && dd.sectorCurrent[i] > 0.0 then
      fmt.delta(dd.sectorCurrent[i] - dd.sectorPrevious[i])
    else NO_SPLIT
  }

  /** What the pages leave: the recorded lap and the two display fields. */
  datatype Shown = Shown(loop: LegacyLoop, left: string, right: string)

  /** Sector 1 shows three pages of three seconds each, the position page also
      recording the lap just completed; sectors 2 and 3 show the split for three
      seconds. */
  function InfoPages(l: LegacyLoop, left: string, right: string, dd: R3e.DriverData,
                     t: R3e.Shared, fmt: Formats, now: real): Shown
  {
    var d := now - l.splitLast;
    if dd.trackSector == 1 then
      if d <= SPLIT then
        Shown(l, LapText(fmt, t.lapTimePreviousSelf), LapSplitText(l.previousLap, t, fmt))
      else if d <= SPLIT * 2.0 then
        var prev := if t.lapTimePreviousSelf > 0.0 then Some(t.lapTimePreviousSelf) else None;
        Shown(LegacyLoop(l.blinkLast, prev, l.splitLast, l.splitSector), PositionText(t.position), CountText(t.numCars))
      else if d <= SPLIT * 3.0 then
        Shown(l, LapsText(t.completedLaps), DashR3e.RemainingText(t, fmt))
      else Shown(l, left, right)
    else if (dd.trackSector == 2 || dd.trackSector == 3) && d <= SPLIT then
      Shown(l, left, SectorSplitText(dd.trackSector - 2, dd, fmt))
    else Shown(l, left, right)
  }

  /** The recorded lap is never zero: once set it is a positive lap time, and it
      changes only on the position page. */
  lemma RecordedLapPositive(l: LegacyLoop, left: string, right: string, dd: R3e.DriverData,
                            t: R3e.Shared, fmt: Formats, now: real)
    requires l.previousLap.Some? ==> l.previousLap.value > 0.0
    ensures var r := InfoPages(l, left, right, dd, t, fmt, now).loop;
      && (r.previousLap.Some? ==> r.previousLap.value > 0.0)
      && (r.previousLap != l.previousLap ==>
            dd.trackSector == 1 && SPLIT < now - l.splitLast <= 2.0 * SPLIT)
      && r.blinkLast == l.blinkLast && r.splitLast == l.splitLast && r.splitSector == l.splitSector
  {
  }

  /** The lap split page shows the lap just completed against the one recorded on
      the position page of the lap before. */
  lemma LapSplitAgainstRecorded(l: LegacyLoop, left: string, right: string, dd: R3e.DriverData,
                                t0: R3e.Shared, t: R3e.Shared, fmt: Formats, now0: real, now: real)
    requires dd.trackSector == 1 && SPLIT < now0 - l.splitLast <= 2.0 * SPLIT
    requires t0.lapTimePreviousSelf > 0.0 && t.lapTimePreviousSelf > 0.0
    ensures var l1 := InfoPages(l, left, right, dd, t0, fmt, now0).loop;
      var l2 := LegacyLoop(l1.blinkLast, l1.previousLap, now, dd.trackSector);
      InfoPages(l2, left, right, dd, t, fmt, now).right
        == fmt.delta(t.lapTimePreviousSelf - t0.lapTimePreviousSelf)
  {
  }

  /** The later script, with its corrected comparison chain, shows the same
      sector split when asked to compare with the previous sector. */
  lemma SectorSplitAsLater(i: nat, dd: R3e.DriverData, t: R3e.Shared, fmt: Formats)
    requires i < 2
    ensures SectorSplitText(i, dd, fmt)
         == DashR3e.SectorSplitText(DashR3e.CompareSectorOf(SelfPrevious, i, dd, t), i, dd, fmt)
  {
  }

  // ---------------------------------------------------------------------------
  // The whole pass

  /** The green flag, the bar value and the gear: the part of a pass that can
      raise. */
  function Front(l: LegacyLoop, p: Panel, t: R3e.Shared): After<LegacyLoop>
  {
    var p0 := GreenUsed(p, UseGreen(p.rpm.useGreen, t));
    var v := RpmValue(t.engineRps, t.maxEngineRps, BarGroups(p0.rpm), SPAN);
    if v.None? then After(l, p0, LAMPS_OFF, Halt)
    else
      var p1 := Valued(p0, v.value);
      var g := GearGlyph(t.gear, NEUTRAL);
      if g.None? then After(l, p1, LAMPS_OFF, Halt)
      else After(l, Geared(p1, g.value), ShiftLamps(t.engineRps, t.maxEngineRps, SHIFT), Continue)
  }

  /** The rest of a pass, from the speed readout up to the engine gate. */
  function Drive(l: LegacyLoop, p: Panel, st: Lamps, t: R3e.Shared, fmt: Formats, now: real): After<LegacyLoop>
  {
    var right := IntText(R3e.MpsToMph(t.carSpeed));
    var left := LapText(fmt, t.lapTimeCurrentSelf);
    var dd := DashR3e.DriverOf(t);
    var sh := if dd.Some? then InfoPages(EnterSector(l, dd.value, now), left, right, dd.value, t, fmt, now)
              else Shown(l, left, right);
    var w := Warnings(t, Scene(sh.loop.blinkLast, st, Panel(sh.left, sh.right, p.gear, p.rpm, p.status)), now);
    var e := Effects(t, w, now);
    After(LegacyLoop(e.anchor, sh.loop.previousLap, sh.loop.splitLast, sh.loop.splitSector), e.panel, e.status, Continue)
  }

  function Tick(l: LegacyLoop, p: Panel, t: R3e.Shared, fmt: Formats, now: real): After<LegacyLoop>
  {
    var f := Front(l, p, t);
    if f.outcome == Halt then f else Drive(f.loop, f.panel, f.status, t, fmt, now)
  }

  // ---------------------------------------------------------------------------
  // The loop body, step by step

  class R3eLegacyDash {
    var blinkLast: real
    var previousLap: Option<real>
    var splitLast: real
    var splitSector: int
    /** The SRD-9c the script opened before entering the loop. */
    const dash: Display

    function Loop(): LegacyLoop
      reads this
    {
      LegacyLoop(blinkLast, previousLap, splitLast, splitSector)
    }

    constructor (d: Display)
      ensures Loop() == START && dash == d
    {
      blinkLast, previousLap, splitLast, splitSector := 0.0, None, 0.0, 0;
      dash := d;
    }

    /** One pass of the `while True` body, given the block copied from shared
        memory; every `time()` of the pass reads as `now`. */
    method Step(t: R3e.Shared, fmt: Formats, now: real) returns (out: Outcome)
      modifies this, dash
      ensures var a := Tick(old(Loop()), old(dash.Snapshot()), t, fmt, now);
        && Loop() == a.loop && out == a.outcome
        && (out == Halt ==> dash.Snapshot() == a.panel && dash.report == old(dash.report))
        && (out == Continue ==> dash.Snapshot() == Gated(a.panel, a.status, t.engineRps > 0.0))
      ensures out == Continue ==> dash.report == PackOf(dash.Snapshot())
    {
      var st: Lamps;
      out, st := StartPass(t);
      if out == Halt {
        return;
      }
      st := Prepare(st, t, fmt, now);
      Gate(dash, st, t.engineRps > 0.0);
    }

    method StartPass(t: R3e.Shared) returns (out: Outcome, st: Lamps)
      modifies dash`rpm, dash`gear
      ensures var f := Front(old(Loop()), old(dash.Snapshot()), t);
        && dash.Snapshot() == f.panel && out == f.outcome
        && (out == Continue ==> st == f.status)
    {
      if t.ptp.amountLeft > 0 || t.ptp.engaged > 0 || t.drsEngaged > 0 {
        dash.rpm := WithUseGreen(dash.rpm, false);
      } else if t.ptp.available < 1 && t.ptp.engaged < 1 && t.drsEngaged < 1 {
        dash.rpm := WithUseGreen(dash.rpm, true);
      }
      out, st := SetBar(dash, t.engineRps, t.maxEngineRps, SPAN, SHIFT);
      if out == Halt {
        return;
      }
      out := SetGear(dash, t.gear, NEUTRAL);
    }

    method Prepare(st0: Lamps, t: R3e.Shared, fmt: Formats, now: real) returns (st: Lamps)
      modifies this, dash`left, dash`right, dash`rpm
      ensures var a := Drive(old(Loop()), old(dash.Snapshot()), st0, t, fmt, now);
        Loop() == a.loop && dash.Snapshot() == a.panel && st == a.status
    {
      dash.right := IntText(R3e.MpsToMph(t.carSpeed));
      dash.left := LapText(fmt, t.lapTimeCurrentSelf);
      var dd := DashR3e.FindDriver(t);
      if dd.Some? {
        EnterNewSector(dd.value, now);
        Pages(dd.value, t, fmt, now);
      }
      st := Warn(t, now, st0);
      Boost(t, now, st);
    }

    method EnterNewSector(dd: R3e.DriverData, now: real)
      modifies this`splitLast, this`splitSector
      ensures Loop() == EnterSector(old(Loop()), dd, now)
    {
      if splitSector != dd.trackSector {
        splitLast := now;
        splitSector := dd.trackSector;
      }
    }

    method Pages(dd: R3e.DriverData, t: R3e.Shared, fmt: Formats, now: real)
      modifies this`previousLap, dash`left, dash`right
      ensures var sh := InfoPages(old(Loop()), old(dash.left), old(dash.right), dd, t, fmt, now);
        Loop() == sh.loop && dash.left == sh.left && dash.right == sh.right
    {
      if dd.trackSector == 1 {
        if now - splitLast <= SPLIT {
          dash.left := LapText(fmt, t.lapTimePreviousSelf);
          dash.right := LapSplitText(previousLap, t, fmt);
        } else if now - splitLast <= SPLIT * 2.0 {
          if t.lapTimePreviousSelf > 0.0 {
            previousLap := Some(t.lapTimePreviousSelf);
          } else {
            previousLap := None;
          }
          dash.left, dash.right := PositionText(t.position), CountText(t.numCars);
        } else if now - splitLast <= SPLIT * 3.0 {
          dash.left, dash.right := LapsText(t.completedLaps), DashR3e.RemainingText(t, fmt);
        }
      } else if dd.trackSector == 2 || dd.trackSector == 3 {
        if now - splitLast <= SPLIT {
          dash.right := SectorSplitText(dd.trackSector - 2, dd, fmt);
        }
      }
    }

    /** `if(time() - blink_last >= blink_duration*2): blink_last = time()`. */
    method Reanchor(now: real)
      modifies this`blinkLast
      ensures blinkLast == Anchor(old(blinkLast), now)
    {
      if now - blinkLast >= BLINK * 2.0 {
        blinkLast := now;
      }
    }

    method Warn(t: R3e.Shared, now: real, st0: Lamps) returns (st: Lamps)
      modifies this`blinkLast, dash`left, dash`right
      ensures Scene(blinkLast, st, dash.Snapshot())
           == Warnings(t, Scene(old(blinkLast), st0, old(dash.Snapshot())), now)
    {
      st := WarnFuel(t, now, st0);
      st := WarnHeat(t, now, st);
      st := WarnPit(t, now, st);
    }

    method WarnFuel(t: R3e.Shared, now: real, st0: Lamps) returns (st: Lamps)
      modifies this`blinkLast, dash`left
      ensures Scene(blinkLast, st, dash.Snapshot())
           == FuelWarning(t, Scene(old(blinkLast), st0, old(dash.Snapshot())), now)
    {
      st := st0;
      if t.fuelUseActive == 1 && t.fuelCapacity > 0.0 && t.fuelLeft / t.fuelCapacity <= DashR3e.FUEL_LOW {
        st := st[0 := '1'];
        if t.fuelLeft / t.fuelCapacity < DashR3e.FUEL_CRITICAL {
          Reanchor(now);
          if now - blinkLast <= BLINK {
            st := st[0 := '1'];
            dash.left := FUEL;
          }
          if now - blinkLast > BLINK {
            st := st[0 := '0'];
          }
        }
      }
    }

    method WarnHeat(t: R3e.Shared, now: real, st0: Lamps) returns (st: Lamps)
      modifies this`blinkLast, dash`left
      ensures Scene(blinkLast, st, dash.Snapshot())
           == HeatWarning(t, Scene(old(blinkLast), st0, old(dash.Snapshot())), now)
    {
      st := st0;
      if t.engineWaterTemp >= DashR3e.WATER_WARN {
        st := st[1 := '1'];
        if t.engineWaterTemp > DashR3e.WATER_CRITICAL {
          Reanchor(now);
          if now - blinkLast <= BLINK {
            st := st[1 := '1'];
          }
          if now - blinkLast > BLINK {
            st := st[1 := '0'];
            dash.left := HEAT;
          }
        }
      }
    }

    method WarnPit(t: R3e.Shared, now: real, st0: Lamps) returns (st: Lamps)
      modifies this`blinkLast, dash`right
      ensures Scene(blinkLast, st, dash.Snapshot())
           == PitWarning(t, Scene(old(blinkLast), st0, old(dash.Snapshot())), now)
    {
      st := st0;
      if t.pitWindowStatus == R3e.PitWindowCode(R3e.PitOpen) {
        st := st[3 := '1'];
      }
      if t.pitWindowStatus == R3e.PitWindowCode(R3e.PitStopped) || t.pitLimiter == 1 {
        Reanchor(now);
        if now - blinkLast <= BLINK {
          st := st[3 := '1'];
        }
        if now - blinkLast > BLINK {
          st := st[3 := '0'];
          dash.right := PIT;
        }
      }
    }

    /** The effects leave the status list alone; `st` only carries it through. */
    method Boost(t: R3e.Shared, now: real, st: Lamps)
      modifies this`blinkLast, dash`left, dash`right, dash`rpm
      ensures Scene(blinkLast, st, dash.Snapshot())
           == Effects(t, Scene(old(blinkLast), st, old(dash.Snapshot())), now)
    {
      BoostDrs(t, now, st);
      BoostCooldown(t, now, st);
      BoostEngaged(t, now, st);
    }

    method BoostDrs(t: R3e.Shared, now: real, st: Lamps)
      modifies this`blinkLast, dash`left, dash`right, dash`rpm
      ensures Scene(blinkLast, st, dash.Snapshot())
           == DrsEffect(t, Scene(old(blinkLast), st, old(dash.Snapshot())), now)
    {
      if t.drsEngaged == 1 {
        Reanchor(now);
        if now - blinkLast <= BLINK {
          dash.rpm := WithGreen(dash.rpm, INNER_PAIR);
          dash.left, dash.right := DRS_TEXT, ON_TEXT;
        }
        if now - blinkLast > BLINK {
          dash.rpm := WithGreen(dash.rpm, OUTER_PAIR);
        }
      }
    }

    method BoostCooldown(t: R3e.Shared, now: real, st: Lamps)
      modifies this`blinkLast, dash`rpm
      ensures Scene(blinkLast, st, dash.Snapshot())
           == CooldownEffect(t, Scene(old(blinkLast), st, old(dash.Snapshot())), now)
    {
      if t.ptp.amountLeft > 0 {
        if t.ptp.waitTimeLeft <= 4.0 {
          dash.rpm := WithGreen(dash.rpm, Charging(t.ptp.waitTimeLeft));
        } else {
          Reanchor(now);
          if now - blinkLast <= BLINK {
            dash.rpm := WithGreen(dash.rpm, FIRST_GREEN);
          }
          if now - blinkLast > BLINK {
            dash.rpm := WithGreen(dash.rpm, LAST_GREEN);
          }
        }
      }
    }

    method BoostEngaged(t: R3e.Shared, now: real, st: Lamps)
      modifies this`blinkLast, dash`left, dash`right, dash`rpm
      ensures Scene(blinkLast, st, dash.Snapshot())
           == EngagedEffect(t, Scene(old(blinkLast), st, old(dash.Snapshot())), now)
    {
      if t.ptp.engaged == 1 {
        if t.ptp.engagedTimeLeft <= 4.0 {
          dash.rpm := WithGreen(dash.rpm, Depleting(t.ptp.engagedTimeLeft));
        } else {
          Reanchor(now);
          if now - blinkLast <= BLINK {
            dash.rpm := WithGreen(dash.rpm, INNER_PAIR);
            dash.left, dash.right := PTP_TEXT, DashR3e.AmountText(t);
          }
          if now - blinkLast > BLINK {
            dash.rpm := WithGreen(dash.rpm, OUTER_PAIR);
          }
        }
      }
    }
  }
}
