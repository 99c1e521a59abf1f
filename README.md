# pySRD9c in Dafny

pySRD9c drives a Renovatio SRD-9c steering-wheel display from sim-racing
telemetry. The display has two four-digit 7-segment fields, a one-digit gear
field, twelve RPM LEDs and four status LEDs.

This project models the parts of the repository that compute what the
display shows, and proves properties of them:

- **The SRD-9c driver** (`srd9c.dfy`, module `Srd9c`; `pySRD9c.py`).
  - Text is fitted to a field and encoded through the 7-segment table.
  - LED strings are normalised, and the RPM bar is dealt over the LED groups.
  - These are packed into the 41-byte HID output report, and `reset` blanks the
    panel. `Display` is a class whose fields are the ones the scripts assign,
    plus the last report sent.
- **Python helpers** (`text.dfy`, module `Text`). These are `c * n`, `rjust`,
  `ljust`, slicing, `upper`/`lower`, `int()` of a float, and `str()` of an int
  with its inverse.
- **The launcher** (`launcher.dfy`, module `Launcher`; `pyDash.py`).
  - `check_option` and the `read_settings` defaults.
  - The shallow merge with the settings file and the validation block. The
    validation overwrites options one by one.
  - The sequence that clears the display after a simulator exits.
- **One pass of each dashboard loop.** Each is a `Tick` function, which is the
  reference, plus a class whose fields are the loop-carried variables. The
  class's `Step` method is proved against `Tick`.
  - `dash_rf1.dfy` (`pyDashRF1.py`, rFactor-engine games).
  - `dash_r3e.dfy` (`pyDashR3E.py`, RaceRoom).
  - `r3e_legacy.dfy` (`r3e.py`, the first RaceRoom dashboard).
  - `dash_ac.dfy` (`pyDashAC.py`, Assetto Corsa).
  - `dash_common.dfy` (module `DashCommon`) holds what these loops share in
    code: the blink anchors, the bar fraction, the shift light, the gear table,
    the page texts, the LED patterns and the engine gate.
- **Enumerations and unit conversions** of each simulator's shared-memory block
  (`rf1_defs.dfy`, `r3e_defs.dfy`, `ac_defs.dfy`; `pyRF1.py`, `pyR3E.py`,
  `pyAC.py`). The conversion helpers at `r3e.py:289-302` are identical copies of
  those in `pyR3E.py`.

Conventions of the model:

- **Time.** Every call to `time()` within one pass reads the same instant `now`,
  which is a `real` parameter of `Step`.
- **Shared memory.** The shared-memory block is a datatype that holds only the
  fields the loop bodies read.
- **Exceptions.** The loops end at the first exception: a `KeyError` in the gear
  table, a `ZeroDivisionError` from a zero bar span, or a `TypeError`. A pass
  therefore returns `Outcome.Halt`, or `Continue` when it runs to the end.
- **Float formatting.** `str.format` of floats (lap clocks, deltas) is a record of
  function values, `Formats`. `float(str(x))` and `str(x)` of settings values
  are the record `Library`.
- **Python 2 semantics.** `None` sorts below every number, and `not x` holds for
  both `None` and `0.0`. Both are written out where the code relies on them
  (`Unset`, `AtLeast`, `Above`).

## Model

| member | source | states |
|---|---|---|
| Text.Repeat | pySRD9c.py:118 | `c * n` has `max(n, 0)` characters, all equal to `c` |
| Text.RJust | pySRD9c.py:110 | `rjust` never truncates; a short string is padded on the left up to the width and ends with the original |
| Text.RJustAt | pySRD9c.py:110 | each position of a right-justified string is padding up to `w - len(s)` and then the matching character of `s` |
| Text.LJust | pySRD9c.py:118 | `ljust` never truncates; a short string keeps its characters first and is padded on the right |
| Text.SliceTo | pySRD9c.py:120 | `s[:n]` is the first `min(n, len(s))` characters of `s` |
| Text.SliceFrom | pySRD9c.py:121 | `s[n:]` is what follows the first `n` characters, and is empty when `s` is shorter |
| Text.UpperLetters | pySRD9c.py:97 | upper-casing is idempotent and changes only lower-case letters |
| Text.LowerLetters | pyDash.py:72 | lower-casing (as `strtobool` does) is idempotent and changes only upper-case letters |
| Text.LowerString | pyDash.py:72 | `s.lower()` keeps the length and lower-cases each character |
| Text.Trunc | pyDashRF1.py:193 | Python's `int()` of a float truncates toward zero, for both signs |
| Text.NatToString | pyDashRF1.py:289 | `str(n)` is a non-empty string of decimal digits without a leading zero |
| Text.NatToStringRoundTrip | pyDashRF1.py:289 | the digits of `str(n)` read back as `n` |
| Text.ParseDigits | pyDashRF1.py:289 | a digit string, with or without a leading minus, reads back as its value |
| Text.IntToStringRoundTrip | pyDashRF1.py:289 | `str()` of any int, negative ones included, reads back as the same int |
| Srd9c.Glyph | pySRD9c.py:28-67 | a non-dot character becomes a byte below 0x80 (the dot bit is never set by the table); a character whose upper-case form is missing from the table becomes 0 |
| Srd9c.GlyphIgnoresCase | pySRD9c.py:97 | lower- and upper-case letters draw the same segments |
| Srd9c.TruncatedKeepsLeft | pySRD9c.py:92-93 | over-long text loses characters from its right end until at most `l` non-dot characters remain; what is left is a prefix of the input |
| Srd9c.FittedLayout | pySRD9c.py:92-95 | short text is left-padded with spaces; the fitted text always spans exactly `l` digit positions, dots not counted |
| Srd9c.EncodeLength | pySRD9c.py:96-107 | one byte comes out per non-dot character |
| Srd9c.EncodeBytes | pySRD9c.py:96-107 | every encoded byte lies in 0..255 |
| Srd9c.EncodeAt | pySRD9c.py:104-105 | the byte of a non-dot character is its glyph, plus 0x80 exactly when a dot follows it |
| Srd9c.DisplayBytesShape | pySRD9c.py:90-107 | `string_to_display(s, l)` returns exactly `l` bytes, each in 0..255, whatever `s` is |
| Srd9c.TrimRight | pySRD9c.py:92-93 | the first loop computes the truncation function |
| Srd9c.PadLeft | pySRD9c.py:94-95 | the second loop prepends exactly the missing spaces |
| Srd9c.EncodeText | pySRD9c.py:96-106 | the encoding loop builds the encoding function's bytes |
| Srd9c.StringToDisplay | pySRD9c.py:90-107 | the three loops together return `DisplayBytes(s, l)`, which has length `l` |
| Srd9c.Bits | pySRD9c.py:110 | the kept characters are all `'0'`/`'1'` and no more than the input |
| Srd9c.BitsOfLed | pySRD9c.py:110 | an LED string is kept whole |
| Srd9c.StringToLed | pySRD9c.py:109-110 | `string_to_led` always returns exactly four `'0'`/`'1'` characters |
| Srd9c.StringToLedReverses | pySRD9c.py:110 | on a 4-LED string it is a reversal, so applying it twice gives the string back |
| Srd9c.StringToLedDropsNoise | pySRD9c.py:110 | characters other than `'0'` and `'1'` are dropped first |
| Srd9c.StringToLedShort | pySRD9c.py:110 | a short LED string comes out reversed, padded with `'0'` at the far end |
| Srd9c.PackNibbles | pySRD9c.py:137 | `int(a + b, 2)` of two 4-bit strings is 16 times the high nibble plus the low one |
| Srd9c.LedByteRange | pySRD9c.py:137-138 | each LED byte of the report is in 0..255 |
| Srd9c.LedByteLayout | pySRD9c.py:137-138 | LED k of the low string is bit k, and LED k of the high string is bit 4 + k |
| Srd9c.LedBar | pySRD9c.py:117-118 | the bar covers at least the `n` LEDs of the enabled groups |
| Srd9c.LedBarLit | pySRD9c.py:118 | exactly the first `int(n * abs(value))` LEDs carry the lit character, which is `'1'`, or `'0'` for a negative value |
| Srd9c.CalcLedsKeeps | pySRD9c.py:119-129 | `calc_leds` changes only the LED strings of enabled groups; texts, value and flags stay |
| Srd9c.DealGroups | pySRD9c.py:119-129 | enabled groups take consecutive four-LED slices of the bar in the order green, red, blue, status |
| Srd9c.CalcLedsGroups | pySRD9c.py:112-130 | after `calc_leds` every enabled group holds exactly its four LEDs of the bar |
| Srd9c.Zeros | pySRD9c.py:140 | the padding is `n` zero bytes |
| Srd9c.ReportLayout | pySRD9c.py:132-141 | the report is 41 bytes: byte 0 is 0, bytes 1-4 the left field, 5-8 the right field, 9 red/green, 10 status/blue, 11 the gear, the rest 0 |
| Srd9c.Assemble | pySRD9c.py:134-141 | the list built with `+=` is the 41-byte layout |
| Srd9c.ReportBytes | pySRD9c.py:132-141 | every byte of the report is in 0..255 |
| Srd9c.DarkBar | pySRD9c.py:118 | with value 0 the bar is all `'0'` |
| Srd9c.DealDark | pySRD9c.py:119-129 | dealing a dark bar leaves every enabled group dark |
| Srd9c.DarkLeds | pySRD9c.py:112-130 | a panel that is dark with value 0 stays dark after `calc_leds` |
| Srd9c.PlainText | pySRD9c.py:96-106 | dot-free text is encoded character by character |
| Srd9c.PlainFits | pySRD9c.py:92-95 | dot-free text of the exact width is neither truncated nor padded |
| Srd9c.UniformText | pySRD9c.py:96-106 | a run of one non-dot character encodes to that character's glyph at every position |
| Srd9c.DashGlyph | pySRD9c.py:60 | `'-'` is segment byte 0x40 |
| Srd9c.DashField | pySRD9c.py:149-150 | `'----'` encodes to four bytes 0x40 |
| Srd9c.DashGear | pySRD9c.py:148 | `'-'` in the gear field encodes to 0x40 |
| Srd9c.DarkByte | pySRD9c.py:137-138 | two dark LED strings pack to byte 0 |
| Srd9c.FieldsReport | pySRD9c.py:132-141 | a panel whose digits all encode to `b` and whose LEDs are dark gives a report of `b` in bytes 1-8 and 11 and 0 elsewhere |
| Srd9c.ResetShowsDashes | pySRD9c.py:147-156 | after `reset` the report shows `'-'` (0x40) in every digit and has every LED byte 0 |
| Srd9c.Display.CalcLeds | pySRD9c.py:112-130 | the method computes the panel `CalcLedsOf` gives and sends nothing |
| Srd9c.Display.RpmBar | pySRD9c.py:113-118 | the bar over `4 * groups` LEDs |
| Srd9c.Display.DealOut | pySRD9c.py:119-129 | the method deals the bar as `Deal` does |
| Srd9c.Display.PackReport | pySRD9c.py:132-141 | `pack_report` deals the LEDs, then returns the layout of the new panel |
| Srd9c.Display.Pack | pySRD9c.py:134-141 | the layout of the current panel |
| Srd9c.Display.Update | pySRD9c.py:143-145 | `update` makes the packed report the one the device shows |
| Srd9c.Display.Reset | pySRD9c.py:147-157 | `reset` blanks the fields, then updates |
| Srd9c.Display.Blank | pySRD9c.py:147-155 | the assignments of `reset`, without the report |
| Launcher.StrToBool | pyDash.py:72 | `strtobool` is true exactly on the yes-words and false exactly on the no-words, in any case; anything else raises `ValueError` |
| Launcher.StrToBoolReadsBool | pyDash.py:72 | `str(True)` and `str(False)` read back as themselves |
| Launcher.CheckOption | pyDash.py:64-80 | the option's reading is returned exactly when it passes the check (a float in `[min, max]`, a member of the list, or a strtobool word); otherwise the default is returned (the copies at `pyDashRF1.py:48-64` and `pyDashR3E.py:50-66` are identical) |
| Launcher.CheckOptionHolds | pyDash.py:64-80 | with a default that passes the check, the result always passes it, whatever the settings file holds |
| Launcher.CheckOptionKeepsValid | pyDash.py:67-76 | a value that already passes, and whose text form reads back as itself, comes back unchanged |
| Launcher.Under | pyDash.py:158-189 | putting a section key before each rule's path keeps the rules and their checks |
| Launcher.GetSet | pyDash.py:158-189 | writing an option and reading it back gives the written value |
| Launcher.GetSetApart | pyDash.py:158-189 | writing one option leaves every option on a diverging path unchanged |
| Launcher.UnderFits | pyDash.py:158-189 | a section whose default passes its rules stays valid and independent under its key |
| Launcher.FlatFits | pyDash.py:158-189 | sections with distinct keys, each fitting the defaults, flatten to independent rules that the defaults pass |
| Launcher.ValidateFromValid | pyDash.py:156-189 | with defaults that pass and independent paths, a validation block that completes leaves every validated option passing its check |
| Launcher.ValidateFromKeeps | pyDash.py:156-189 | options on paths apart from every validated one keep the value they had before validation |
| Launcher.TextBlinkSection | pyDash.py:83-87 | the `text_blink` defaults pass their rules (duration in `[0.1, 1]`) |
| Launcher.LedBlinkSection | pyDash.py:88-92 | the `led_blink` defaults pass their rules (duration in `[0.1, 1]`) |
| Launcher.InfoSplitsFit | pyDash.py:94-103 | the sector and lap split defaults pass their rules (a bool and one of the three comparisons) |
| Launcher.InfoRestFit | pyDash.py:104-113 | the position, remaining and duration defaults pass their rules (duration in `[1, 5]`) |
| Launcher.InfoTextSection | pyDash.py:93-114 | the whole `info_text` default passes its rules |
| Launcher.DrsPtpSection | pyDash.py:115-119 | the `drs_ptp` defaults pass their rules |
| Launcher.NeutralSection | pyDash.py:120-123 | the neutral symbol `n` is one of `'0'`, `'n'`, `'-'`, `'_'`, `' '` |
| Launcher.SpeedSection | pyDash.py:124-127 | `mph` is one of the allowed units |
| Launcher.FuelSection | pyDash.py:128-134 | the fuel defaults pass samples `[1, 5]`, warning `[2, 5]` and critical `[0.5, 2]` |
| Launcher.TemperatureSection | pyDash.py:135-141 | the temperature defaults pass samples `[1, 5]`, warning `[2, 10]` and critical `[10, 20]` |
| Launcher.RpmSection | pyDash.py:142-146 | the rpm defaults pass range `[0.05, 0.33]` and shift `[0.85, 1.0]` |
| Launcher.DefaultsValidWith | pyDash.py:82-189 | whatever the comments say, the validated options sit on independent paths and the defaults pass every rule |
| Launcher.DefaultsValid | pyDash.py:82-147 | the defaults pass every rule of the validation block |
| Launcher.Merge | pyDash.py:152 | `dict(defaults, **loaded)` is shallow: a section from the file replaces the default section wholesale, and missing sections come from the defaults |
| Launcher.Validate | pyDash.py:158-189 | the in-place validation loop computes the validation function |
| Launcher.ReadSettings | pyDash.py:149-193 | an unreadable file gives the defaults; a file that is not an object raises; validation runs exactly when the merged settings differ from the defaults, and then every validated option passes its check |
| Launcher.BlankGlyph | pyDash.py:210 | space encodes to 0 |
| Launcher.BlankField | pyDash.py:211-212 | four spaces encode to four zero bytes |
| Launcher.BlankGear | pyDash.py:210 | a space in the gear field encodes to 0 |
| Launcher.ClearedPanel | pyDash.py:210-217 | after the clear, texts are blank and LED bytes are 0 |
| Launcher.ClearShowsNothing | pyDash.py:210-218 | after the clear, bytes 1 to 11 of the report (both fields, both LED bytes, the gear) are 0, i.e. the panel is dark |
| Launcher.Clear | pyDash.py:210-217 | the assignments of the clear sequence |
| Launcher.ClearDisplay | pyDash.py:210-218 | the clear sequence ends with the report of the cleared panel sent |
| Rf1.GamePhaseOf | pyRF1.py:16-26 | a raw game phase is in the table exactly for 0..8 |
| Rf1.GamePhaseRoundTrip | pyRF1.py:16-26 | codes and phases correspond one to one |
| Rf1.YellowFlagStateOf | pyRF1.py:28-38 | a raw yellow flag state is in the table exactly for -1..7 |
| Rf1.YellowFlagStateRoundTrip | pyRF1.py:28-38 | codes and states correspond one to one (`invalid` is -1, `pitOpen` is 4) |
| Rf1.SurfaceTypeOf | pyRF1.py:40-47 | a raw surface is in the table exactly for 0..5 |
| Rf1.SurfaceTypeRoundTrip | pyRF1.py:40-47 | codes and surfaces correspond one to one |
| Rf1.SectorOf | pyRF1.py:49-53 | a raw sector is in the table exactly for 0..2 |
| Rf1.SectorRoundTrip | pyRF1.py:49-53 | codes and sectors correspond one to one (`sector3` is 0) |
| Rf1.LapOrder | pyRF1.py:49-53 | going round a lap, each sector's code is the previous one plus 1 modulo 3, three steps come back to the start, and code 0 (`sector3`) is followed by `sector1` |
| Rf1.FinishStatusOf | pyRF1.py:55-60 | a raw finish status is in the table exactly for 0..3 |
| Rf1.FinishStatusRoundTrip | pyRF1.py:55-60 | codes and statuses correspond one to one |
| Rf1.ControlOf | pyRF1.py:62-68 | a raw control is in the table exactly for -1..3 |
| Rf1.ControlRoundTrip | pyRF1.py:62-68 | codes and controls correspond one to one |
| Rf1.WheelIndexOf | pyRF1.py:70-75 | a raw wheel index is in the table exactly for 0..3 |
| Rf1.WheelIndexRoundTrip | pyRF1.py:70-75 | codes and wheels correspond one to one |
| Rf1.Sector2AloneAdds | pyRF1.py:109-115 | sector 2 times are cumulative: sector 1 plus sector 2 alone is the reported time |
| Rf1.ScalingsLinear | pyRF1.py:194-207 | `mps_to_mph` (x2.23694), `mps_to_kph` (x3.6), `kpa_to_psi` and `l_to_g` map 0 to 0, add and keep order |
| Rf1.CToFAffine | pyRF1.py:203-204 | `c_to_f` maps 0 to 32 and 100 to 212, and each degree to 1.8 degrees |
| R3e.SessionOf | pyR3E.py:17-22 | a raw session is in the table exactly for -1..2 |
| R3e.SessionRoundTrip | pyR3E.py:17-22 | codes and sessions correspond one to one |
| R3e.SessionPhaseOf | pyR3E.py:24-33 | a raw session phase is in the table exactly for -1..7 without 1 |
| R3e.SessionPhaseRoundTrip | pyR3E.py:24-33 | codes and phases correspond one to one (GRIDWALK is 2) |
| R3e.ControlOf | pyR3E.py:35-41 | a raw control is in the table exactly for -1..3 |
| R3e.ControlRoundTrip | pyR3E.py:35-41 | codes and controls correspond one to one |
| R3e.PitWindowOf | pyR3E.py:43-50 | a raw pit window state is in the table exactly for -1..4 |
| R3e.PitWindowRoundTrip | pyR3E.py:43-50 | codes and states correspond one to one (OPEN is 2, STOPPED is 3) |
| R3e.TireTypeOf | pyR3E.py:52-56 | a raw tire type is in the table exactly for -1..1 |
| R3e.TireTypeRoundTrip | pyR3E.py:52-56 | codes and tire types correspond one to one |
| R3e.PitstopStatusOf | pyR3E.py:58-62 | a raw pit stop status is in the table exactly for -1..1 |
| R3e.PitstopStatusRoundTrip | pyR3E.py:58-62 | codes and statuses correspond one to one |
| R3e.FinishStatusOf | pyR3E.py:64-72 | a raw finish status is in the table exactly for -1..5 |
| R3e.FinishStatusRoundTrip | pyR3E.py:64-72 | codes and statuses correspond one to one |
| R3e.ScalingsLinear | pyR3E.py:274-290 | `rps_to_rpm` (x9.549296596), `mps_to_mph`, `mps_to_kph`, `kpa_to_psi` and `l_to_g` map 0 to 0, add and keep order |
| R3e.CToFAffine | pyR3E.py:286-287 | `c_to_f` maps 0 to 32 and 100 to 212, and each degree to 1.8 degrees |
| Ac.StatusOf | pyAC.py:14-19 | a raw status is in the table exactly for 0..3 |
| Ac.StatusRoundTrip | pyAC.py:14-19 | codes and statuses correspond one to one |
| Ac.SessionOf | pyAC.py:21-30 | a raw session is in the table exactly for -1..6 |
| Ac.SessionRoundTrip | pyAC.py:21-30 | codes and sessions correspond one to one (drag is 6) |
| Ac.FlagOf | pyAC.py:32-40 | a raw flag is in the table exactly for 0..6 |
| Ac.FlagRoundTrip | pyAC.py:32-40 | codes and flags correspond one to one |
| Ac.ScalingsLinear | pyAC.py:142-155 | `kph_to_mph` (x1.60934 as written), `mps_to_kph`, `kpa_to_psi` and `l_to_g` map 0 to 0, add and keep order |
| Ac.KphToMphGrows | pyAC.py:142-143 | as written, `kph_to_mph` makes a positive speed larger |
| Ac.CToFAffine | pyAC.py:151-152 | `c_to_f` maps 0 to 32 and 100 to 212, and each degree to 1.8 degrees |
| DashCommon.BlinkAnchor | pyDashRF1.py:175-178 | the anchor moves to `now` exactly when `now - anchor >= 2 * duration`, and otherwise stays |
| DashCommon.BlinkAnchorBounds | pyDashRF1.py:175-178 | with time running forward, the new anchor is at most `now` and less than a full period behind it |
| DashCommon.BlinkAnchorIdempotent | r3e.py:422-423 | re-anchoring twice at one instant is re-anchoring once |
| DashCommon.BlinkBit | pyDashRF1.py:329-332 | a blinking lamp is `'0'` exactly in the on phase (`enabled` and `now - anchor <= duration`), and `'1'` otherwise |
| DashCommon.BarFraction | pyDashRF1.py:182-186 | the bar fraction is undefined (division by zero) exactly when `groups * k` is 0, and is never negative |
| DashCommon.BarFractionScale | pyDashRF1.py:182-186 | the fraction is 0 exactly up to `1 - span` of the maximum RPM (span = `groups * k`), grows as `(ratio - (1 - span)) / span` after it, and reaches 1 exactly at the maximum |
| DashCommon.BarFractionMonotone | pyDashRF1.py:182-186 | a higher RPM never gives a shorter bar |
| DashCommon.RpmValue | pyDashRF1.py:179-186 | with no known maximum RPM the value is 0; otherwise it is the bar fraction of `rpm / max` |
| DashCommon.RpmIdle | pyDashRF1.py:179-190 | with no known maximum RPM the bar is 0 and the shift light is off; with at least one enabled group and a positive range the bar value never divides by zero |
| DashCommon.ShiftLamps | pyDashRF1.py:187-189 | only the third status lamp can be lit, and it is lit exactly when `rpm / max >= shift` |
| DashCommon.GearGlyph | pyDashRF1.py:191 | the gear table has exactly the gears -2..7, and 0 shows the neutral symbol |
| DashCommon.DigitString | pyDashRF1.py:191 | `str(i)` of a digit is that digit |
| DashCommon.GearGlyphReadsBack | pyDashRF1.py:191 | `'-'` for -2, `'r'` for -1, and for a forward gear a single digit that reads back as the gear |
| DashCommon.GearGlyphInjective | pyDashRF1.py:191 | unless the neutral symbol is itself one of the others, distinct gears show distinct glyphs |
| DashCommon.IntText | pyDashRF1.py:193 | the speed text reads back as `int(x)` |
| DashCommon.PageTextsFit | pyDashRF1.py:289-290 | for counts below 1000 the position, laps and count texts are four characters, with the number right-justified (or left-justified after the space) |
| DashCommon.ChargingPattern | pyDashR3E.py:316-317 | in the last four seconds of the cool-down the green LEDs are four, the last `int(wait)` of them dark and the rest lit |
| DashCommon.DepletingPattern | pyDashR3E.py:326-327 | in the last four seconds of push-to-pass the green LEDs are four, the last `int(left)` of them lit and the rest dark |
| DashCommon.GatedShows | pyDashRF1.py:358-362 | with the engine stopped the report shows dashes and dark LEDs whatever the pass wrote; with it running the texts and the gear stay as the pass set them |
| DashCommon.SetBar | pyDashRF1.py:179-190 | the method sets the bar value and the shift light as `RpmValue`/`ShiftLamps` state, and raises exactly when the span is zero while the maximum is known |
| DashCommon.SetGear | pyDashRF1.py:191 | the method sets the table's glyph, and raises exactly for a gear outside -2..7 |
| DashCommon.Gate | pyDashRF1.py:357-362 | the engine gate pushes the status and sends, or resets; either way the report sent is that of the new panel |
| DashRf1.MaxOfIsMax | pyDashRF1.py:255 | `max()` of the water samples is one of them and no sample exceeds it |
| DashRf1.MinOfIsMin | pyDashRF1.py:255 | `min()` of the water samples is one of them and no sample is below it |
| DashRf1.SumBounds | pyDashRF1.py:248 | a sum of `n` values between `lo` and `hi` lies between `n * lo` and `n * hi` |
| DashRf1.MeanBounds | pyDashRF1.py:254 | a mean lies between the lowest and highest values |
| DashRf1.FuelSampleKeeps | pyDashRF1.py:243-249 | sampling touches only the fuel entries, and only when `compare_fuel > 0` and `compare_fuel > fuel` |
| DashRf1.FuelSampleSlides | pyDashRF1.py:244-247 | the newest sample is the fuel burnt; the window grows to seven and then keeps the newest seven |
| DashRf1.FuelSampleAverage | pyDashRF1.py:246-248 | the average changes only when the window holds seven samples, and then becomes three times the mean of those samples |
| DashRf1.FuelSamplePositive | pyDashRF1.py:244-245 | fuel samples stay positive |
| DashRf1.TempSampleKeeps | pyDashRF1.py:250-260 | the temperature windows never exceed seven, and once computed a baseline never changes |
| DashRf1.WaterBaseline | pyDashRF1.py:253-254 | when the water window is full and no baseline exists, the baseline becomes the mean of all samples but the first, which lies between their minimum and maximum |
| DashRf1.WaterMargins | pyDashRF1.py:255-256 | with the baseline come the warning margin (`max - min` of the samples) and the critical margin (1.5 times that) |
| DashRf1.OilBaseline | pyDashRF1.py:259-260 | when the oil window is full and no baseline exists, the baseline becomes the mean of all samples but the first, which lies between their minimum and maximum |
| DashRf1.ClockTick | pyDashRF1.py:197-213 | the clock follows the game's elapsed time and stamps when it moved; the delta is capped at 0.5 once time has started |
| DashRf1.LastPlayer | pyDashRF1.py:219-222 | the driver the scan keeps is a player in the array, or none when no vehicle is a player |
| DashRf1.LastPlayerIsLast | pyDashRF1.py:219-222 | no vehicle after the kept one is a player |
| DashRf1.FieldBestIsLeast | pyDashRF1.py:223-228 | each session best is the least positive time in the field, or 0 when nobody has one |
| DashRf1.CompareLapOf | pyDashRF1.py:276-284 | the comparison lap is the time the mode names when it is positive, and otherwise 0 |
| DashRf1.PagesExclusive | pyDashRF1.py:263-294 | the sector 1 windows `[0, a)`, `[a, a+b)`, `[a+b, a+b+c)` over enabled pages never overlap |
| DashRf1.LapPagesShow | pyDashRF1.py:261-301 | the comparison lap changes only outside the lap split window, and each window shows its own page |
| DashRf1.SectorSplitCompares | pyDashRF1.py:302-324 | the sector split compares like with like: in the last sector both sides are sector 2 alone |
| DashRf1.FuelWarningShows | pyDashRF1.py:325-334 | only the first (red) lamp changes: off unless a positive average exists and the fuel left is at most three averages, steady on down to one average, and below that blinking with the LED timer and showing `fuel` in the text timer's on phase |
| DashRf1.HeatAsWrittenRaises | pyDashRF1.py:335-346 | as written, an overheating report before the baselines exist raises `TypeError`, while the corrected warning sets the second lamp to the LED timer's blink bit and shows `HEAT` on the left in the text timer's on phase |
| DashRf1.HeatWarningAgrees | pyDashRF1.py:335-346 | the corrected warning equals the code as written wherever that does not raise, and the code as written does not raise once both baselines exist |
| DashRf1.Rf1Dash.constructor | pyDashRF1.py:140-150 | the loop variables start as the script sets them |
| DashRf1.Rf1Dash.Step | pyDashRF1.py:174-368 | one pass equals `Tick`: loop variables, outcome and panel; a pass that ends sends the gated panel's report, and a pass that raises (bar, gear or the temperature test) sends nothing |
| DashRf1.WarningsAsWritten | pyDashRF1.py:325-356 | the warnings of a pass stop exactly where the temperature test as written raises, keeping the fuel warning's writes and the right text; otherwise they show the corrected temperature warning followed by the pit warning |
| DashRf1.OverheatingFirstLapsHalts | pyDashRF1.py:335-340 | an overheating report before any temperature baseline exists ends the pass (the handler at lines 365-368 leaves the loop) |
| DashRf1.Rf1Dash.StartPass | pyDashRF1.py:175-191 | blink timers, bar and gear, stopping at the first raise |
| DashRf1.Rf1Dash.Prepare | pyDashRF1.py:192-356 | speed, session clock, scan, driver pass and warnings leave the loop variables, the panel, the lamps and the outcome as `Drive` computes them, with the temperature test as written |
| DashRf1.Rf1Dash.BlinkTimers | pyDashRF1.py:175-178 | both anchors move as `BlinkAnchor` states |
| DashRf1.Rf1Dash.SetSpeed | pyDashRF1.py:192-195 | the right field shows the speed in the chosen units |
| DashRf1.Rf1Dash.TrackSession | pyDashRF1.py:196-213 | the clock moves on; a new session clears what was tracked |
| DashRf1.Rf1Dash.ScanVehicles | pyDashRF1.py:214-228 | the loop over the vehicles finds the last player and the three session bests |
| DashRf1.Rf1Dash.Driver | pyDashRF1.py:229-356 | the body of `if(dd)` leaves the loop variables, both texts, the lamps and the outcome as `DriverPass` computes them, halting where the temperature test as written raises |
| DashRf1.Rf1Dash.EnterNewSector | pyDashRF1.py:240-260 | a new sector restarts the page timer and takes the samples |
| DashRf1.Rf1Dash.Pages | pyDashRF1.py:261-324 | the info pages set the comparison times and both texts as `InfoPages` computes them |
| DashRf1.Rf1Dash.Warn | pyDashRF1.py:325-356 | the lamps, both texts and the outcome are those of `Warnings`: fuel, then the temperature test as written (stopping where it raises), then pit |
| DashR3e.UseGreen | pyDashR3E.py:177-180 | `use_green` is cleared while DRS/push-to-pass is active and the LED setting is on, set when nothing is available or engaged, and otherwise kept |
| DashR3e.UseGreenSettles | pyDashR3E.py:177-180 | deciding twice on the same block changes nothing; while push-to-pass is available but unused the flag keeps its value |
| DashR3e.EffectsShow | pyDashR3E.py:305-335 | the effects change only the green LEDs, which get the boost pattern, and the texts: the push-to-pass text beats the DRS text, and without either the texts stay |
| DashR3e.BoostPatternsFit | pyDashR3E.py:314-327 | with any boost active the green group gets four `'0'`/`'1'` LEDs |
| DashR3e.FirstSlot | pyDashR3E.py:211-214 | the index found holds the slot, and no earlier entry does |
| DashR3e.DriverOf | pyDashR3E.py:209-214 | the driver is the first entry in the player's slot, looked up only when there are cars |
| DashR3e.FindDriver | pyDashR3E.py:209-214 | the loop with `break` finds the same driver as `DriverOf` |
| DashR3e.PagesExclusive | pyDashR3E.py:222-253 | the windows `(0, a]`, `(a, a+b]`, `(a+b, a+b+c]` never overlap, and none is open at the sector entry itself |
| DashR3e.CompareLapOf | pyDashR3E.py:236-243 | the comparison lap is the time the mode names when it is positive, and otherwise 0 |
| DashR3e.LapPagesShow | pyDashR3E.py:220-260 | the comparison lap changes only outside the lap split window, and each window shows its own page |
| DashR3e.CompareSectorOf | pyDashR3E.py:263-270 | corrected chain: the sector time the mode names when positive, and otherwise 0 |
| DashR3e.SectorCompareAsWrittenLoses | pyDashR3E.py:263-274 | as written, a split against the driver's own previous or best sector always shows `--.--` |
| DashR3e.SectorCompareAgrees | pyDashR3E.py:267-270 | for the session best the chain as written and the corrected chain agree |
| DashR3e.SectorSplitAsWrittenShows | pyDashR3E.py:261-274 | the sector split page, which uses the chain as written, keeps the left text, shows `--.--` against the driver's own previous or best sector once the current sector time is positive, and against the session best shows the corrected comparison |
| DashR3e.WarningLamps | pyDashR3E.py:275-304 | starting from the shift light alone, red is lit iff fuel is at most 10% (blinking below 5%), yellow iff the water is at least 91 degrees (blinking above 93), green iff the pit window is open, or blinking while stopped in the pit or on the limiter; in the text on phase `heat` beats `fuel` on the left and `pit ` takes the right |
| DashR3e.GreenShowsPattern | pyDashR3E.py:305-339 | with the LEDs given to DRS and push-to-pass and the engine running, the green group shows the boost pattern instead of the bar |
| DashR3e.R3eDash.constructor | pyDashR3E.py:147-151 | the loop variables start as the script sets them |
| DashR3e.R3eDash.Step | pyDashR3E.py:176-341 | one pass equals `Tick`, and the report sent is that of the gated panel |
| DashR3e.R3eDash.StartPass | pyDashR3E.py:177-198 | green flag, blink timers, bar and gear, stopping at the first raise |
| DashR3e.R3eDash.Prepare | pyDashR3E.py:199-335 | speed, lap clock, driver search, pages (with the sector chain as written), warnings and effects leave the loop variables, the panel and the lamps as `Drive` computes them |
| DashR3e.R3eDash.ShareGreen | pyDashR3E.py:177-180 | the flag becomes `UseGreen` of its old value |
| DashR3e.R3eDash.BlinkTimers | pyDashR3E.py:182-185 | both anchors move as `BlinkAnchor` states |
| DashR3e.R3eDash.SetSpeed | pyDashR3E.py:199-202 | the right field shows the speed in the chosen units |
| DashR3e.R3eDash.EnterNewSector | pyDashR3E.py:217-219 | a new sector restarts the page timer |
| DashR3e.R3eDash.Pages | pyDashR3E.py:220-274 | the info pages and the sector split, with its three separate `if`s as written, set the comparison times and both texts as `InfoPages` computes them |
| DashR3e.R3eDash.Warn | pyDashR3E.py:275-304 | the three warnings in order |
| DashR3e.R3eDash.Boost | pyDashR3E.py:305-335 | the DRS and push-to-pass effects |
| R3eLegacy.UseGreen | r3e.py:349-352 | `use_green` is cleared while DRS/push-to-pass is active, set when nothing is available or engaged, and otherwise kept |
| R3eLegacy.UseGreenAsLater | r3e.py:349-352 | it equals the later script's rule with the LED setting on |
| R3eLegacy.ReanchorOnce | r3e.py:422-423 | re-anchoring again at the same instant changes nothing and keeps the blink phase, so a later branch that blinks sees the anchor the first one set |
| R3eLegacy.WarningsAnchor | r3e.py:418-450 | the anchor the warnings hand on is in the same blink phase as the one they started from |
| R3eLegacy.EffectsAnchor | r3e.py:451-485 | the anchor the effects hand on is in the same blink phase |
| R3eLegacy.WarningLamps | r3e.py:418-450 | each warning owns one lamp; `fuel` shows in the on phase, but `heat` and `pit ` in the off phase |
| R3eLegacy.EffectSteps | r3e.py:451-485 | each effect keeps the blink phase and changes only the green LEDs and, in the on phase, the texts |
| R3eLegacy.EffectsGreen | r3e.py:451-485 | the green LEDs show engaged over cool-down over DRS |
| R3eLegacy.EffectsTexts | r3e.py:455-483 | the texts show in the on phase only, push-to-pass's over DRS's |
| R3eLegacy.RecordedLapPositive | r3e.py:395-399 | the lap recorded by the position page stays none or positive; it changes only in sector 1 during the position window, and nothing else of the loop changes |
| R3eLegacy.LapSplitAgainstRecorded | r3e.py:385-399 | once the position page has recorded the previous lap, the lap split shown at the next sector entry is the new previous lap minus the recorded one |
| R3eLegacy.SectorSplitAsLater | r3e.py:411-417 | the sector split equals the later script's corrected split with the driver's previous sector |
| R3eLegacy.R3eLegacyDash.constructor | r3e.py:320-325 | the loop variables start as the script sets them |
| R3eLegacy.R3eLegacyDash.Step | r3e.py:343-491 | one pass equals `Tick`, updating iff the engine turns and resetting otherwise |
| R3eLegacy.R3eLegacyDash.StartPass | r3e.py:348-365 | green flag, bar and gear (neutral fixed to `n`), stopping at the first raise |
| R3eLegacy.R3eLegacyDash.Prepare | r3e.py:366-485 | speed, lap clock, driver, pages, warnings and effects |
| R3eLegacy.R3eLegacyDash.EnterNewSector | r3e.py:380-382 | a new sector restarts the page timer |
| R3eLegacy.R3eLegacyDash.Pages | r3e.py:379-417 | the pages and the sector split set the recorded lap and both texts as `InfoPages` computes them |
| R3eLegacy.R3eLegacyDash.Reanchor | r3e.py:422-423 | the single anchor moves as `BlinkAnchor` with 0.5 s |
| R3eLegacy.R3eLegacyDash.Warn | r3e.py:418-450 | the three warnings in order |
| R3eLegacy.R3eLegacyDash.WarnFuel | r3e.py:418-428 | the fuel warning |
| R3eLegacy.R3eLegacyDash.WarnHeat | r3e.py:429-439 | the temperature warning |
| R3eLegacy.R3eLegacyDash.WarnPit | r3e.py:440-450 | the pit warning |
| R3eLegacy.R3eLegacyDash.Boost | r3e.py:451-485 | the three effects in order |
| R3eLegacy.R3eLegacyDash.BoostDrs | r3e.py:451-460 | the DRS effect |
| R3eLegacy.R3eLegacyDash.BoostCooldown | r3e.py:461-471 | the cool-down effect |
| R3eLegacy.R3eLegacyDash.BoostEngaged | r3e.py:472-485 | the engaged effect |
| DashAc.TrackSessions | pyDashAC.py:64-79 | a session is active exactly when the field has cars, and then it is this block's key; tracked state is cleared exactly when the key changes; blink anchors are kept |
| DashAc.EmptyFieldForgets | pyDashAC.py:78-79 | after an empty-field pass, the next valid block counts as a new session even with the same key |
| DashAc.TrackIdempotent | pyDashAC.py:64-79 | tracking the same block twice is tracking it once |
| DashAc.AcGearGlyph | pyDashAC.py:105 | the offset gear table has exactly the raw gears 0..10, and 1 shows the neutral symbol |
| DashAc.AcGearShifted | pyDashAC.py:105 | up to seventh gear it is the rFactor/RaceRoom table moved by one; it also has eighth and ninth |
| DashAc.AcGearReadsBack | pyDashAC.py:105 | a forward gear shows a single digit that reads back as the raw gear minus one |
| DashAc.TickShows | pyDashAC.py:80-109 | without a session the pass cannot raise and ends reset; in a session only the shift lamp can be lit, and the gear and the speed are shown |
| DashAc.AcDash.constructor | pyDashAC.py:27-36 | the loop variables start as the script sets them |
| DashAc.AcDash.Step | pyDashAC.py:64-285 | one pass equals `Tick`; the update happens only in a session with `rpm > 1`, else reset |
| DashAc.AcDash.InSession | pyDashAC.py:89-109 | blink timers, bar with the settings' span and shift point, gear and speed, stopping at the first raise |
| DashAc.AcDash.TrackSession | pyDashAC.py:64-79 | the session check as `Track` states |
| DashAc.AcDash.BlinkTimers | pyDashAC.py:89-92 | both anchors move as `BlinkAnchor` states |
| DashAc.AcDash.SetGear | pyDashAC.py:105 | the offset table's glyph, raising for a gear outside 0..10 |
| DashAc.AcDash.SetSpeed | pyDashAC.py:106-109 | `int(speed)` in km/h, `int(kph_to_mph(speed))` in mph |

## Left out

- HID device discovery, the USB send and `self_test` (`pySRD9c.py:79-88, 143-145, 159-176`). They are device I/O and sleep loops. `update` is modelled as "the packed report becomes the last report sent".
- The ctypes layouts and the mmap reads of the shared-memory blocks. Each block is a datatype holding only the fields the loops read.
- Settings file I/O: JSON load and dump, and the `getmtime` hot reload at the top of each loop. `read_settings` takes the parsed file as a parameter, and a loop pass takes the settings in force as a `Config`.
- The `read_settings` copies in `pyDashRF1.py` and `pyDashR3E.py`, which validate fewer options. Only the `pyDash.py` table is modelled.
- `float(str(x))` and `str(x)` of settings values. They are the abstract `Library` record, because exact decimal parsing and printing are library code.
- `strtobool` is written out from its word table.
- Float-to-text formatting (`'{0:01.0f}.{1:04.1f}'`, `'{0:04.2f}'`, `'{0:02.0f}.{1:04.1f}'`). It is the abstract `Formats` record, because IEEE rounding is not modelled. Arithmetic is on `real`, with no floating-point rounding.
- Process discovery, `pid_exists`, the single-instance check, logging, `sleep` and the dispatch from `pyDash.py` to the dashboard scripts. These are operating-system calls. Each `Step` is one pass of a loop body.
- The commented-out code of `pyDashAC.py` (81-87, 110-279), which never runs. The AC loop still keeps `samples`, `compare_fuel` and `print_info`, because the live session tracking resets them.
- `time()`: all reads within one pass are one instant. The legacy script's repeated `time()` calls in one branch can differ by microseconds, and that is not modelled.
- The exception handlers, which log and leave the loop: a raising pass returns `Halt`. The R3E scripts set `dash.status` before the gate, which is equivalent to the model because `reset` does not read the status first.
- `pyinstaller/pluginInstaller.py`, which is an installer with no display logic.
- The dashboard loops follow the code as written, including both findings below: the rFactor pass halts where the temperature test raises, and the R3E sector split uses the three separate `if`s. The corrected definitions are proved beside them and are not what the loops run.
- Launcher.CheckOption: a NaN reading is not modelled. `Library.parseFloat` gives a number or nothing, while in Python `float('nan')` fails both halves of `x < min or x > max` and so is accepted and returned.
- Launcher.CheckOptionHolds: holds for the readings the model has; a NaN reading, which the source accepts, would fall outside `[min, max]`.
- Launcher.ValidateFromValid: as for `CheckOptionHolds`, an option read as NaN would be left in place by the source, so the promise covers only non-NaN readings.
- Launcher.ReadSettings: as for `CheckOptionHolds`, the "every validated option passes" part does not cover a setting that reads as NaN.
- Launcher.Json: `JNum` stands for both Python `int` and `float`, so `Library.show` of a number cannot tell `str(0)` (`'0'`) from `str(0.0)` (`'0.0'`), which a `'str'` check or the text form of a value would show.

## Findings

| source | as written | input that shows it | evidently intended | confidence | as-written member | corrected member |
|---|---|---|---|---|---|---|
| pyDashRF1.py:339-340 | the critical temperature test computes `engineWaterTemp - samples['avg_water']` even while the baseline is still `None` | `smm.overheating` true during the first laps, before seven temperature samples exist: `x - None` raises `TypeError` and the dashboard loop ends | a temperature without a baseline is not critical on its own account; the game's overheating flag still blinks the lamp | not executed | DashRf1.HeatAsWrittenRaises | DashRf1.HeatWarningAgrees |
| pyDashR3E.py:263-270 | three separate `if`s, the last with an `else` that sets `compare_sector = 0`, so the `self_previous` and `self_best` choices are always overwritten | `compare_lap` of `sector_split` set to `'self_previous'`, with a positive previous and current sector time: the split shows `--.--` | an `if/elif/elif/else` chain, as the lap comparison at lines 236-243 is written | not executed | DashR3e.SectorCompareAsWrittenLoses | DashR3e.CompareSectorOf |
