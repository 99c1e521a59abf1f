/** The Assetto Corsa dashboard: one pass of the `while` body of `pyDashAC` in
    pyDashAC.py, as far as it is live code: the session tracking, the blink
    timers, the bar, the gear, the speed and the engine gate. The three
    shared-memory pages copied at the top of the pass are reduced to one `Block`. */
module DashAc {
  import opened Wrappers
  import opened Text
  import opened Srd9c
  import opened DashCommon
  import Ac

  /** What the pass reads of the physics, graphics and static pages. */
  datatype Block = Block(
    gear: int, rpm: int, speed: real,
    session: int,
    numCars: int, carModel: string, track: string, maxRpm: int)

  /** The `[session, track, carModel]` list a session is told apart by. */
  datatype SessionKey = SessionKey(session: int, track: string, carModel: string)

  function KeyOf(b: Block): SessionKey
  {
    SessionKey(b.session, b.track, b.carModel)
  }

  /** The `samples` dictionary: fuel use per sector and its average. */
  datatype Samples = Samples(fuel: seq<real>, avgFuel: Option<real>)

  const FRESH: Samples := Samples([], None)

  /** The loop-carried variables; `current_session` is `[]` (`None`) or a key. */
  datatype AcLoop = AcLoop(
    blinkLed: real, blinkText: real, compareLap: real, compareSector: real,
    infoTextTime: real, currentSector: int, samples: Samples, compareFuel: real,
    session: Option<SessionKey>, printInfo: bool)

  /** Their values before the first pass. */
  const START: AcLoop := AcLoop(0.0, 0.0, 0.0, 0.0, 0.0, 0, FRESH, 0.0, None, true)

  /** The session check at the top of the pass: an empty field forgets the session;
      otherwise a key other than the stored one clears what was tracked and is
      stored. */
  function Track(l: AcLoop, b: Block): AcLoop
  {
    if b.numCars > 0 then
      if l.session == Some(KeyOf(b)) then l
      else AcLoop(l.blinkLed, l.blinkText, 0.0, 0.0, 0.0, 0, FRESH, 0.0, Some(KeyOf(b)), true)
    else
      AcLoop(l.blinkLed, l.blinkText, l.compareLap, l.compareSector, l.infoTextTime,
             l.currentSector, l.samples, l.compareFuel, None, l.printInfo)
  }

  /** The tracked state is cleared to its start values. */
  predicate Cleared(l: AcLoop)
  {
    l.compareLap == 0.0 && l.compareSector == 0.0 && l.infoTextTime == 0.0
    && l.currentSector == 0 && l.samples == FRESH && l.compareFuel == 0.0 && l.printInfo
  }

  /** A session is active exactly when the field is not empty, and it is the
      block's; the tracked state is cleared exactly when the key changes, and
      otherwise nothing changes. */
  lemma TrackSessions(l: AcLoop, b: Block)
    ensures var r := Track(l, b);
      && (r.session.Some? <==> b.numCars > 0)
      && (r.session.Some? ==> r.session.value == KeyOf(b))
      && r.blinkLed == l.blinkLed && r.blinkText == l.blinkText
      && (b.numCars > 0 && l.session != Some(KeyOf(b)) ==> Cleared(r))
      && (b.numCars > 0 && l.session == Some(KeyOf(b)) ==> r == l)
  {
  }

  /** A pass with an empty field in between makes the same session count as new:
      its tracked state is cleared again. */
  lemma EmptyFieldForgets(l: AcLoop, b0: Block, b: Block)
    requires b0.numCars <= 0 && b.numCars > 0
    ensures Cleared(Track(Track(l, b0), b))
    ensures Track(Track(l, b0), b).session == Some(KeyOf(b))
  {
  }

  /** Tracking the same block twice is tracking it once. */
  lemma TrackIdempotent(l: AcLoop, b: Block)
    ensures Track(Track(l, b), b) == Track(l, b)
  {
  }

  /** The gear dictionary of this script, looked up with `str(gear)`: the raw gear
      is offset by one, so 0 is reverse, 1 neutral and 2 to 10 show 1 to 9. Any
      other gear is a missing key, which raises. */
  function AcGearGlyph(gear: int, neutral: string): (r: Option<string>)
    ensures r.Some? <==> 0 <= gear <= 10
    ensures gear == 1 ==> r == Some(neutral)
  {
    if gear == 0 then Some("r")
    else if gear == 1 then Some(neutral)
    else if 2 <= gear <= 10 then Some(IntToString(gear - 1))
    else None
  }

  /** The offset table agrees with the rFactor and RaceRoom table moved by one,
      from reverse up to seventh; it also has eighth and ninth, and no `'-'`. */
  lemma AcGearShifted(gear: int, neutral: string)
    ensures 0 <= gear <= 8 ==> AcGearGlyph(gear, neutral) == GearGlyph(gear - 1, neutral)
    ensures 9 <= gear <= 10 ==> AcGearGlyph(gear, neutral).Some? && GearGlyph(gear - 1, neutral).None?
  {
  }

  /** A forward gear shows as a single digit that reads back as the gear. */
  lemma AcGearReadsBack(gear: int, neutral: string)
    requires 2 <= gear <= 10
    ensures var g := AcGearGlyph(gear, neutral).value;
      |g| == 1 && IsDigit(g[0]) && ParseInt(g) == Some(gear - 1)
  {
    DigitString(gear - 1);
    IntToStringRoundTrip(gear - 1);
  }

  /** The speed readout: the page's speed is in km/h already; the mph figure goes
      through `kph_to_mph`. Any other units keep the text. */
  function SpeedText(u: Units, speed: real, right: string): string
  {
    match u
    case Mph => IntText(Ac.KphToMph(speed))
    case Kmh => IntText(speed)
    case OtherUnits => right
  }

  /** The blink anchors move on. */
  function Blinks(l: AcLoop, cfg: Config, now: real): AcLoop
  {
    AcLoop(BlinkAnchor(l.blinkLed, now, cfg.ledBlink.duration),
           BlinkAnchor(l.blinkText, now, cfg.textBlink.duration),
           l.compareLap, l.compareSector, l.infoTextTime, l.currentSector,
           l.samples, l.compareFuel, l.session, l.printInfo)
  }

  /** The part of a pass that runs in a session: the bar uses the settings' span
      and shift point; the pass raises when that span is zero while the maximum
      RPM is known, or when the gear is outside the table. */
  function Live(l: AcLoop, p: Panel, b: Block, cfg: Config, now: real): After<AcLoop>
  {
    var l1 := Blinks(l, cfg, now);
    var v := RpmValue(b.rpm as real, b.maxRpm as real, BarGroups(p.rpm), cfg.rpmRange);
    if v.None? then After(l1, p, LAMPS_OFF, Halt)
    else
      var p1 := Valued(p, v.value);
      var g := AcGearGlyph(b.gear, cfg.neutral);
      if g.None? then After(l1, p1, LAMPS_OFF, Halt)
      else
        var p2 := Panel(p1.left, SpeedText(cfg.units, b.speed, p1.right), g.value, p1.rpm, p1.status);
        After(l1, p2, ShiftLamps(b.rpm as real, b.maxRpm as real, cfg.rpmShift), Continue)
  }

  /** One pass of the loop body: without a session only the gate runs, and it
      resets. */
  function Tick(l: AcLoop, p: Panel, b: Block, cfg: Config, now: real): After<AcLoop>
  {
    var l1 := Track(l, b);
    if l1.session.None? then After(l1, p, LAMPS_OFF, Continue)
    else Live(l1, p, b, cfg, now)
  }

  /** The display shows telemetry only in a session with the engine turning over
      1 RPM. */
  predicate Running(l: AcLoop, b: Block)
  {
    l.session.Some? && b.rpm > 1
  }

  /** Without a session a pass cannot raise and the display ends reset; in a
      session that runs to its end, the only status lamp it can light is the
      shift light, and the gear and speed are shown while the engine runs. */
  lemma TickShows(l: AcLoop, p: Panel, b: Block, cfg: Config, now: real)
    ensures var a := Tick(l, p, b, cfg, now);
      b.numCars <= 0 ==> a.outcome == Continue && !Running(a.loop, b) && a.loop.session.None?
    ensures var a := Tick(l, p, b, cfg, now);
      a.outcome == Continue && b.numCars > 0 ==>
        && a.status[0] == a.status[1] == a.status[3] == '0'
        && (a.status[2] == '1' <==> ShiftLight(b.rpm as real, b.maxRpm as real, cfg.rpmShift))
        && Some(a.panel.gear) == AcGearGlyph(b.gear, cfg.neutral)
        && a.panel.right == SpeedText(cfg.units, b.speed, p.right)
    ensures var a := Tick(l, p, b, cfg, now);
      a.outcome == Continue && Running(a.loop, b) ==>
        var q := Gated(a.panel, a.status, true);
        q.gear == a.panel.gear && q.right == a.panel.right && q.left == p.left
  {
    var a := Tick(l, p, b, cfg, now);
    GatedShows(a.panel, a.status, true);
  }

  // ---------------------------------------------------------------------------
  // The loop body, step by step

  class AcDash {
    var blinkLed: real
    var blinkText: real
    var compareLap: real
    var compareSector: real
    var infoTextTime: real
    var currentSector: int
    var samples: Samples
    var compareFuel: real
    var session: Option<SessionKey>
    var printInfo: bool
    /** The SRD-9c the launcher hands over. */
    const dash: Display

    function Loop(): AcLoop
      reads this
    {
      AcLoop(blinkLed, blinkText, compareLap, compareSector, infoTextTime, currentSector,
             samples, compareFuel, session, printInfo)
    }

    constructor (d: Display)
      ensures Loop() == START && dash == d
    {
      blinkLed, blinkText, compareLap, compareSector := 0.0, 0.0, 0.0, 0.0;
      infoTextTime, currentSector, samples, compareFuel := 0.0, 0, FRESH, 0.0;
      session, printInfo := None, true;
      dash := d;
    }

    /** One pass of the loop body, given the pages copied from shared memory and
        the settings in force. A pass that runs to its end leaves the report of
        the gated display as the one last sent. */
    method Step(b: Block, cfg: Config, now: real) returns (out: Outcome)
      modifies this, dash
      ensures var a := Tick(old(Loop()), old(dash.Snapshot()), b, cfg, now);
        && Loop() == a.loop && out == a.outcome
        && (out == Halt ==> dash.Snapshot() == a.panel && dash.report == old(dash.report))
        && (out == Continue ==> dash.Snapshot() == Gated(a.panel, a.status, Running(a.loop, b)))
      ensures out == Continue ==> dash.report == PackOf(dash.Snapshot())
    {
      TrackSession(b);
      var st := LAMPS_OFF;
      if session.Some? {
        out, st := InSession(b, cfg, now);
        if out == Halt {
          return;
        }
      }
      out := Continue;
      Gate(dash, st, session.Some? && b.rpm > 1);
    }

    /** The blink timers, the bar, the gear and the speed, stopping at the first
        raise. */
    method InSession(b: Block, cfg: Config, now: real) returns (out: Outcome, st: Lamps)
      modifies this`blinkLed, this`blinkText, dash`rpm, dash`gear, dash`right
      ensures var a := Live(old(Loop()), old(dash.Snapshot()), b, cfg, now);
        && Loop() == a.loop && dash.Snapshot() == a.panel && out == a.outcome
        && (out == Continue ==> st == a.status)
    {
      BlinkTimers(cfg, now);
      out, st := SetBar(dash, b.rpm as real, b.maxRpm as real, cfg.rpmRange, cfg.rpmShift);
      if out == Halt {
        return;
      }
      out := SetGear(b, cfg);
      if out == Halt {
        return;
      }
      SetSpeed(b, cfg);
    }

    method TrackSession(b: Block)
      modifies this
      ensures Loop() == Track(old(Loop()), b)
    {
      if b.numCars > 0 {
        if session != Some(KeyOf(b)) {
          compareLap, compareSector, infoTextTime, currentSector := 0.0, 0.0, 0.0, 0;
          samples, compareFuel := FRESH, 0.0;
          session := Some(KeyOf(b));
          printInfo := true;
        }
      } else {
        session := None;
      }
    }

    method BlinkTimers(cfg: Config, now: real)
      modifies this`blinkLed, this`blinkText
      ensures Loop() == Blinks(old(Loop()), cfg, now)
    {
      if now - blinkLed >= cfg.ledBlink.duration * 2.0 {
        blinkLed := now;
      }
      if now - blinkText >= cfg.textBlink.duration * 2.0 {
        blinkText := now;
      }
    }

    method SetGear(b: Block, cfg: Config) returns (out: Outcome)
      modifies dash`gear
      ensures var g := AcGearGlyph(b.gear, cfg.neutral);
        && (out == Halt <==> g.None?)
        && (g.Some? ==> dash.Snapshot() == Geared(old(dash.Snapshot()), g.value))
        && (g.None? ==> dash.gear == old(dash.gear))
    {
      var g := AcGearGlyph(b.gear, cfg.neutral);
      if g.None? {
        return Halt;
      }
      dash.gear := g.value;
      out := Continue;
    }

    method SetSpeed(b: Block, cfg: Config)
      modifies dash`right
      ensures dash.right == SpeedText(cfg.units, b.speed, old(dash.right))
    {
      if cfg.units == Mph {
        dash.right := IntText(Ac.KphToMph(b.speed));
      } else if cfg.units == Kmh {
        dash.right := IntText(b.speed);
      }
    }
  }
}
