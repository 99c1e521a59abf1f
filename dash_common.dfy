/** What the dashboard loop bodies have in common: the blink timers, the RPM bar
    fraction and shift light, the gear glyph table, the numeric readouts, the
    push-to-pass LED patterns, the engine gate, and the typed view of the settings
    the loop bodies read. */
module DashCommon {
  import opened Wrappers
  import opened Text
  import opened Srd9c

  /** How one pass of a `while True` body ends: it runs to its end, or it raises,
      and the script's outer `except` logs the error and leaves the loop. */
  datatype Outcome = Continue | Halt

  // ---------------------------------------------------------------------------
  // Settings, as the loop bodies read them

  datatype Units = Mph | Kmh | OtherUnits

  /** The `compare_lap` choice of a split page; any other string is `OtherCompare`. */
  datatype Compare = SelfPrevious | SelfBest | SessionBest | OtherCompare

  /** A `led_blink` or `text_blink` section. */
  datatype Blinker = Blinker(enabled: bool, duration: real)

  /** The `info_text` section: the page duration and which pages are enabled. */
  datatype InfoText = InfoText(
    duration: real,
    lapSplit: bool, lapCompare: Compare,
    position: bool, remaining: bool,
    sectorSplit: bool, sectorCompare: Compare)

  /** The settings entries a loop body looks up, already typed. */
  datatype Config = Config(
    ledBlink: Blinker, textBlink: Blinker,
    neutral: string, units: Units, info: InfoText,
    drsLed: bool, drsText: bool,
    rpmRange: real, rpmShift: real)

  /** Float-to-text renderings the scripts do with `str.format`:
      `lapTime` is `'{0:01.0f}.{1:04.1f}'` of `divmod(x, 60)`, `clock` the same with
      `{0:02.0f}`, and `delta` is `'{0:04.2f}'`. */
  datatype Formats = Formats(lapTime: real -> string, clock: real -> string, delta: real -> string)

  /** `int(b)` of a bool, as a float factor. */
  function Flag(b: bool): real { if b then 1.0 else 0.0 }

  // ---------------------------------------------------------------------------
  // Blink timers: everything that blinks does so in unison off one anchor

  /** The anchor moves to `now` once a full on/off period of `2 * duration` has
      elapsed since it was last set. */
  function BlinkAnchor(anchor: real, now: real, duration: real): (r: real)
    ensures now - anchor >= 2.0 * duration ==> r == now
    ensures now - anchor < 2.0 * duration ==> r == anchor
  {
    if now - anchor >= 2.0 * duration then now else anchor
  }

  /** With time running forward, the anchor never lies ahead of `now` nor a full
      period behind it. */
  lemma BlinkAnchorBounds(anchor: real, now: real, duration: real)
    requires anchor <= now && duration > 0.0
    ensures var r := BlinkAnchor(anchor, now, duration);
      anchor <= r <= now && now - r < 2.0 * duration
  {
  }

  /** Re-anchoring a second time at the same instant changes nothing. */
  lemma BlinkAnchorIdempotent(anchor: real, now: real, duration: real)
    ensures BlinkAnchor(BlinkAnchor(anchor, now, duration), now, duration)
         == BlinkAnchor(anchor, now, duration)
  {
  }

  /** The "on" phase of a blink: the first `duration` seconds after the anchor,
      both ends included. */
  predicate BlinkOn(b: Blinker, anchor: real, now: real)
  {
    b.enabled && now - anchor <= b.duration
  }

  /** A blinking LED is dark during the on phase and lit otherwise, so it stays lit
      when blinking is disabled. */
  function BlinkBit(b: Blinker, anchor: real, now: real): (c: char)
    ensures c == '0' <==> BlinkOn(b, anchor, now)
    ensures c == '0' || c == '1'
  {
    if BlinkOn(b, anchor, now) then '0' else '1'
  }

  // ---------------------------------------------------------------------------
  // RPM bar and shift light

  /** The fixed share of the RPM range each bar group covers, and the shift point. */
  const SPAN: real := 0.13
  const SHIFT: real := 0.95

  /** The four status LEDs as the list of one-character strings the loop builds:
      fuel, temperature, shift light, pit. */
  type Lamps = s: string | |s| == 4 witness "0000"

  const LAMPS_OFF: Lamps := "0000"

  /** The RPM bar is spread over the green, red and blue groups that are enabled;
      the status LEDs do not count here. */
  function BarGroups(m: Rpm): nat
  {
    B2I(m.useGreen) + B2I(m.useRed) + B2I(m.useBlue)
  }

  /** The bar covers the top `groups * k` of the RPM range: the part of `ratio`
      above `1 - groups * k`, scaled to that span and clamped at zero. The division
      raises when the span is zero. */
  function BarFraction(ratio: real, groups: nat, k: real): (r: Option<real>)
    ensures r.None? <==> groups as real * k == 0.0
    ensures r.Some? ==> r.value >= 0.0
  {
    var span := groups as real * k;
    if span == 0.0 then None
    else
      var x := (ratio - (1.0 - span)) / span;
      Some(if x < 0.0 then 0.0 else x)
  }

  /** Over a positive span the bar is dark up to `1 - span`, grows linearly above it
      and is full exactly from the top of the range on. */
  lemma BarFractionScale(ratio: real, groups: nat, k: real)
    requires groups as real * k > 0.0
    ensures var span := groups as real * k;
      var r := BarFraction(ratio, groups, k).value;
      && (r == 0.0 <==> ratio <= 1.0 - span)
      && (ratio >= 1.0 - span ==> r * span == ratio - (1.0 - span))
      && (r >= 1.0 <==> ratio >= 1.0)
  {
    var span := groups as real * k;
    var x := (ratio - (1.0 - span)) / span;
    assert x * span == ratio - (1.0 - span);
    assert x >= 1.0 <==> ratio >= 1.0 by {
      if x >= 1.0 {
        assert x * span >= span;
      } else {
        assert x * span < span;
      }
    }
    assert x <= 0.0 <==> ratio <= 1.0 - span by {
      if x <= 0.0 {
        assert x * span <= 0.0;
      } else {
        assert x * span > 0.0;
      }
    }
  }

  /** A higher RPM never shortens the bar. */
  lemma BarFractionMonotone(a: real, b: real, groups: nat, k: real)
    requires groups as real * k > 0.0 && a <= b
    ensures BarFraction(a, groups, k).value <= BarFraction(b, groups, k).value
  {
    var span := groups as real * k;
    var x, y := (a - (1.0 - span)) / span, (b - (1.0 - span)) / span;
    assert x * span == a - (1.0 - span) && y * span == b - (1.0 - span);
    assert (y - x) * span == b - a;
    assert x <= y;
  }

  /** The bar value a loop body stores: zero when the maximum RPM is not known, the
      bar fraction of `rpm / maxRpm` otherwise. */
  function RpmValue(rpm: real, maxRpm: real, groups: nat, k: real): (r: Option<real>)
    ensures maxRpm <= 0.0 ==> r == Some(0.0)
    ensures maxRpm > 0.0 ==> r == BarFraction(rpm / maxRpm, groups, k)
  {
    if maxRpm > 0.0 then BarFraction(rpm / maxRpm, groups, k) else Some(0.0)
  }

  /** The blue status LED: lit once the RPM reaches `threshold` of the maximum. */
  predicate ShiftLight(rpm: real, maxRpm: real, threshold: real)
  {
    maxRpm > 0.0 && rpm / maxRpm >= threshold
  }

  /** Without a known maximum RPM the bar is dark and the shift light is off; with a
      known maximum and enabled groups the value is always defined. */
  lemma RpmIdle(rpm: real, maxRpm: real, groups: nat, k: real, threshold: real)
    ensures maxRpm <= 0.0 ==>
      RpmValue(rpm, maxRpm, groups, k) == Some(0.0) && !ShiftLight(rpm, maxRpm, threshold)
    ensures groups > 0 && k > 0.0 ==> RpmValue(rpm, maxRpm, groups, k).Some?
  {
  }

  /** The `rpm` dictionary with its `value` entry replaced. */
  function WithValue(m: Rpm, v: real): Rpm
  {
    Rpm(m.green, m.red, m.blue, m.useGreen, m.useRed, m.useBlue, m.useStatus, v)
  }

  /** The `rpm` dictionary with its `green` entry replaced. */
  function WithGreen(m: Rpm, g: string): Rpm
  {
    Rpm(g, m.red, m.blue, m.useGreen, m.useRed, m.useBlue, m.useStatus, m.value)
  }

  /** The `rpm` dictionary with its `use_green` entry replaced. */
  function WithUseGreen(m: Rpm, u: bool): Rpm
  {
    Rpm(m.green, m.red, m.blue, u, m.useRed, m.useBlue, m.useStatus, m.value)
  }

  /** How a pass ends: the loop-carried variables, the display fields and the
      status list before the engine gate, and whether the pass ran to its end. */
  datatype After<L> = After(loop: L, panel: Panel, status: Lamps, outcome: Outcome)

  /** The status list once the shift light is decided: only the third lamp. */
  function ShiftLamps(rpm: real, maxRpm: real, shift: real): (st: Lamps)
    ensures st[2] == '1' <==> ShiftLight(rpm, maxRpm, shift)
    ensures st[0] == st[1] == st[3] == '0' && st[2] in "01"
  {
    if ShiftLight(rpm, maxRpm, shift) then LAMPS_OFF[2 := '1'] else LAMPS_OFF
  }

  /** The panel once the bar value is set. */
  function Valued(p: Panel, v: real): Panel
  {
    Panel(p.left, p.right, p.gear, WithValue(p.rpm, v), p.status)
  }

  /** The panel once the green group is given to the bar (`u`) or taken from it. */
  function GreenUsed(p: Panel, u: bool): Panel
  {
    Panel(p.left, p.right, p.gear, WithUseGreen(p.rpm, u), p.status)
  }

  /** The panel once the green LED string is set to a pattern. */
  function Painted(p: Panel, green: string): Panel
  {
    Panel(p.left, p.right, p.gear, WithGreen(p.rpm, green), p.status)
  }

  /** The panel once the gear glyph is set. */
  function Geared(p: Panel, g: string): Panel
  {
    Panel(p.left, p.right, g, p.rpm, p.status)
  }

  // ---------------------------------------------------------------------------
  // Gear glyphs

  /** The gear dictionary of the rFactor and RaceRoom scripts, looked up with
      `str(gear)`: -2 is `'-'`, -1 reverse, 0 the neutral symbol and 1 to 7 their
      digit. Any other gear is a missing key, which raises. */
  function GearGlyph(gear: int, neutral: string): (r: Option<string>)
    ensures r.Some? <==> -2 <= gear <= 7
    ensures gear == 0 ==> r == Some(neutral)
  {
    if gear == -2 then Some("-")
    else if gear == -1 then Some("r")
    else if gear == 0 then Some(neutral)
    else if 1 <= gear <= 7 then Some(IntToString(gear))
    else None
  }

  lemma DigitString(n: nat)
    requires n < 10
    ensures IntToString(n) == [DigitChar(n)]
  {
  }

  /** A forward gear shows as its own single digit, which reads back as the gear;
      reverse and the lowest entry show as letters that are not digits. */
  lemma GearGlyphReadsBack(gear: int, neutral: string)
    requires -2 <= gear <= 7 && gear != 0
    ensures var g := GearGlyph(gear, neutral).value;
      && |g| == 1
      && (gear > 0 <==> IsDigit(g[0]))
      && (gear > 0 ==> ParseInt(g) == Some(gear))
  {
    if gear > 0 {
      DigitString(gear);
      IntToStringRoundTrip(gear);
    }
  }

  /** As long as the neutral symbol is not one of the other glyphs, different gears
      show differently. */
  lemma GearGlyphInjective(a: int, b: int, neutral: string)
    requires GearGlyph(a, neutral).Some? && GearGlyph(b, neutral).Some?
    requires forall g :: -2 <= g <= 7 && g != 0 ==> GearGlyph(g, neutral).value != neutral
    ensures GearGlyph(a, neutral) == GearGlyph(b, neutral) ==> a == b
  {
    if a != 0 && b != 0 {
      GearGlyphReadsBack(a, neutral);
      GearGlyphReadsBack(b, neutral);
    }
  }

  // ---------------------------------------------------------------------------
  // Numeric readouts

  /** `'{0}'.format(int(x))`: the speed readout. */
  function IntText(x: real): (s: string)
    ensures ParseInt(s) == Some(Trunc(x))
  {
    IntToStringRoundTrip(Trunc(x));
    IntToString(Trunc(x))
  }

  const NO_CLOCK: string := "-.--.-"
  const NO_SPLIT: string := "--.--"
  const FUEL: string := "fuel"
  const HEAT: string := "heat"
  const PIT: string := "pit "
  const FOUR_BLANKS: string := "    "
  const SPACE: char := ' '

  /** A lap time, or the placeholder for a lap without a valid time. */
  function LapText(fmt: Formats, x: real): string
  {
    if x > 0.0 then fmt.lapTime(x) else NO_CLOCK
  }

  /** Python's `not x` on an average that is `None` or a float. */
  predicate Unset(x: Option<real>)
  {
    x.None? || x.value == 0.0
  }

  /** `'P' + str(n).rjust(3)`: the position page's left half. */
  function PositionText(n: int): string
  {
    ['P'] + RJust(IntToString(n), 3, SPACE)
  }

  /** `'L' + str(n).rjust(3)`: the laps page's left half. */
  function LapsText(n: int): string
  {
    ['L'] + RJust(IntToString(n), 3, SPACE)
  }

  /** `' ' + str(n).ljust(3)`: a count shown in the right half. */
  function CountText(n: int): string
  {
    [SPACE] + LJust(IntToString(n), 3, SPACE)
  }

  lemma {:induction false} NatToStringShort(n: nat)
    requires n < 1000
    ensures |NatToString(n)| <= 3
  {
    if n >= 10 {
      NatToStringShort(n / 10);
      if n < 100 {
        assert n / 10 < 10;
      } else {
        assert n / 10 < 100;
        NatToStringShorter(n / 10);
      }
    }
  }

  lemma NatToStringShorter(n: nat)
    requires n < 100
    ensures |NatToString(n)| <= 2
  {
    if n >= 10 {
      assert n / 10 < 10;
    }
  }

  /** Counts below a thousand fill exactly the four digits of a display field, the
      count itself at the right end (left page) or just after the blank (right page). */
  lemma PageTextsFit(n: int)
    requires 0 <= n < 1000
    ensures |PositionText(n)| == 4 && |LapsText(n)| == 4 && |CountText(n)| == 4
    ensures PositionText(n)[4 - |IntToString(n)|..] == IntToString(n)
    ensures CountText(n)[1..1 + |IntToString(n)|] == IntToString(n)
  {
    NatToStringShort(n);
  }

  // ---------------------------------------------------------------------------
  // Push-to-pass LED patterns

  /** Fixed green patterns: the two inner LEDs, the two outer ones, none, the
      first only and the last only. */
  const INNER_PAIR: string := "0110"
  const OUTER_PAIR: string := "1001"
  const NO_GREEN: string := "0000"
  const FIRST_GREEN: string := "1000"
  const LAST_GREEN: string := "0001"

  /** The texts shown while DRS or push-to-pass is engaged. */
  const DRS_TEXT: string := "drs "
  const ON_TEXT: string := " on "
  const PTP_TEXT: string := " ptp"

  /** Cool-down: `('0' * int(wait)).rjust(4, '1')`. */
  function Charging(wait: real): string
  {
    RJust(Repeat('0', Trunc(wait)), 4, '1')
  }

  /** Engaged: `('1' * int(left)).rjust(4, '0')`. */
  function Depleting(left: real): string
  {
    RJust(Repeat('1', Trunc(left)), 4, '0')
  }

  /** With at most four seconds to wait, the pattern is four LEDs whose last
      `int(wait)` are dark: the bar fills up as the wait runs out. */
  lemma ChargingPattern(wait: real)
    requires wait <= 4.0
    ensures |Charging(wait)| == 4
    ensures forall i :: 0 <= i < 4 ==> (Charging(wait)[i] == '0' <==> i >= 4 - Trunc(wait))
    ensures forall i :: 0 <= i < 4 ==> Charging(wait)[i] in "01"
  {
    var n := Trunc(wait);
    var z := Repeat('0', n);
    assert |z| == if n <= 0 then 0 else n;
    forall i | 0 <= i < 4
      ensures Charging(wait)[i] == if i >= 4 - n then '0' else '1'
    {
      RJustAt(z, 4, '1', i);
    }
  }

  /** With at most four seconds left, the last `int(left)` LEDs are lit: the bar
      empties as push-to-pass runs out. */
  lemma DepletingPattern(left: real)
    requires left <= 4.0
    ensures |Depleting(left)| == 4
    ensures forall i :: 0 <= i < 4 ==> (Depleting(left)[i] == '1' <==> i >= 4 - Trunc(left))
    ensures forall i :: 0 <= i < 4 ==> Depleting(left)[i] in "01"
  {
    var n := Trunc(left);
    var z := Repeat('1', n);
    assert |z| == if n <= 0 then 0 else n;
    forall i | 0 <= i < 4
      ensures Depleting(left)[i] == if i >= 4 - n then '1' else '0'
    {
      RJustAt(z, 4, '0', i);
    }
  }

  // ---------------------------------------------------------------------------
  // Engine gate

  /** What ends a tick: the status string is pushed and the report sent while the
      engine runs; otherwise `reset` blanks the display. */
  function Gated(p: Panel, status: string, running: bool): (r: Panel)
  {
    if running then CalcLedsOf(Panel(p.left, p.right, p.gear, p.rpm, status))
    else CalcLedsOf(ResetOf(p))
  }

  /** A stopped engine always shows dashes and dark LEDs, whatever the tick wrote;
      a running one shows the tick's texts. */
  lemma GatedShows(p: Panel, status: string, running: bool)
    ensures !running ==> var r := PackOf(Gated(p, status, running));
      && (forall i :: 1 <= i < 9 || i == 11 ==> r[i] == 0x40)
      && r[9] == 0 && r[10] == 0
    ensures running ==> var q := Gated(p, status, running);
      q.left == p.left && q.right == p.right && q.gear == p.gear
  {
    if running {
      CalcLedsKeeps(Panel(p.left, p.right, p.gear, p.rpm, status));
    } else {
      ResetShowsDashes(p);
    }
  }

  // ---------------------------------------------------------------------------
  // The steps every loop body shares

  /** The bar value and the shift light, for the given span per group and shift
      point; raises before writing when the bar has no group to spread over. */
  method SetBar(dash: Display, rpm: real, maxRpm: real, k: real, shift: real)
    returns (out: Outcome, st: Lamps)
    modifies dash`rpm
    ensures var v := RpmValue(rpm, maxRpm, BarGroups(old(dash.rpm)), k);
      && (out == Halt <==> v.None?)
      && (v.Some? ==> dash.Snapshot() == Valued(old(dash.Snapshot()), v.value))
      && (v.None? ==> dash.rpm == old(dash.rpm))
      && (out == Continue ==> st == ShiftLamps(rpm, maxRpm, shift))
  {
    var value := 0.0;
    st := LAMPS_OFF;
    if maxRpm > 0.0 {
      var span := BarGroups(dash.rpm) as real * k;
      value := rpm / maxRpm;
      value := value - (1.0 - span);
      if span == 0.0 {
        return Halt, st;
      }
      value := value / span;
      if value < 0.0 {
        value := 0.0;
      }
      if rpm / maxRpm >= shift {
        st := st[2 := '1'];
      }
    }
    dash.rpm := WithValue(dash.rpm, value);
    out := Continue;
  }

  /** The gear glyph; a gear outside the table is a missing key, which raises
      before anything is written. */
  method SetGear(dash: Display, gear: int, neutral: string) returns (out: Outcome)
    modifies dash`gear
    ensures var g := GearGlyph(gear, neutral);
      && (out == Halt <==> g.None?)
      && (g.Some? ==> dash.Snapshot() == Geared(old(dash.Snapshot()), g.value))
      && (g.None? ==> dash.gear == old(dash.gear))
  {
    var g := GearGlyph(gear, neutral);
    if g.None? {
      return Halt;
    }
    dash.gear := g.value;
    out := Continue;
  }

  /** The engine gate: push the status list and send, or reset. */
  method Gate(dash: Display, st: Lamps, running: bool)
    modifies dash
    ensures dash.Snapshot() == Gated(old(dash.Snapshot()), st, running)
    ensures dash.report == PackOf(dash.Snapshot())
  {
    if running {
      dash.status := st;
      dash.Update();
    } else {
      dash.Reset();
    }
  }
}
