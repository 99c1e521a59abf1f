/** The launcher `pyDash.py`: the settings file is merged over the defaults and
    validated option by option, and the display is blanked when a simulator
    exits. */
module Launcher {
  import opened Wrappers
  import opened Text
  import opened Srd9c

  /** A value read from the JSON settings file. Python compares ints and floats by
      value, so numbers are one kind here. */
  datatype Json =
    | JNull
    | JBool(b: bool)
    | JNum(x: real)
    | JStr(s: string)
    | JList(items: seq<Json>)
    | JObj(fields: map<string, Json>)

  /** Library routines the validator relies on and the model does not rebuild:
      `str()` of a number, list or dict, and `float()` of a string (None where
      `float` raises ValueError). */
  datatype Library = Library(show: Json -> string, parseFloat: string -> Option<real>)

  /** Python's `==` on settings values: `True == 1`, `3 == 3.0`, and containers
      compare element by element. */
  function PyEq(a: Json, b: Json): bool
  {
    if (a.JBool? || a.JNum?) && (b.JBool? || b.JNum?) then Numeric(a) == Numeric(b)
    else match (a, b)
      case (JList(xs), JList(ys)) => |xs| == |ys| && forall i :: 0 <= i < |xs| ==> PyEq(xs[i], ys[i])
      case (JObj(m), JObj(n)) => m.Keys == n.Keys && forall k :: k in m ==> PyEq(m[k], n[k])
      case _ => a == b
  }

  function Numeric(j: Json): real
    requires j.JBool? || j.JNum?
  {
    if j.JBool? then (if j.b then 1.0 else 0.0) else j.x
  }

  predicate Ascii(s: string)
  {
    forall i :: 0 <= i < |s| ==> s[i] < 128 as char
  }

  /** `str(option)` in Python 2: None where it raises (a unicode string that is not
      ASCII raises UnicodeEncodeError, a kind of ValueError). */
  function PyStr(lib: Library, j: Json): Option<string>
  {
    match j
    case JNull => Some("None")
    case JBool(b) => Some(if b then "True" else "False")
    case JStr(s) => if Ascii(s) then Some(s) else None
    case _ => Some(lib.show(j))
  }

  const TRUE_WORDS: seq<string> := ["y", "yes", "t", "true", "on", "1"]
  const FALSE_WORDS: seq<string> := ["n", "no", "f", "false", "off", "0"]

  /** `distutils.util.strtobool`: a yes-word is true, a no-word false, whatever the
      case; anything else raises ValueError (None). */
  function StrToBool(s: string): (r: Option<bool>)
    ensures r == Some(true) <==> LowerString(s) in TRUE_WORDS
    ensures r == Some(false) <==> LowerString(s) in FALSE_WORDS
  {
    var v := LowerString(s);
    if v in TRUE_WORDS then Some(true)
    else if v in FALSE_WORDS then Some(false)
    else None
  }

  /** `str()` of a bool reads back as the same bool. */
  lemma StrToBoolReadsBool(b: bool)
    ensures StrToBool(if b then "True" else "False") == Some(b)
  {
    if b {
      assert LowerString("True") == "true";
    } else {
      assert LowerString("False") == "false";
    }
  }

  /** What `check_option` is asked to check: its `val_type` together with the
      `val_range` that goes with it. Every float range in the source is a list of
      two bounds, kept here as the pair. */
  datatype Check =
    | FloatIn(a: real, b: real)
    | BoolFlag
    | OneOf(choices: seq<string>)

  /** `min` and `max` of the two-element list `[a, b]`. */
  function Min2(a: real, b: real): real { if a <= b then a else b }
  function Max2(a: real, b: real): real { if a <= b then b else a }

  /** A value that passes the check: a number between `min(val_range)` and
      `max(val_range)`, a bool, or one of the allowed strings. */
  predicate Holds(v: Json, c: Check)
  {
    match c
    case FloatIn(a, b) => v.JNum? && Min2(a, b) <= v.x <= Max2(a, b)
    case BoolFlag => v.JBool?
    case OneOf(choices) => v.JStr? && v.s in choices
  }

  /** The value the `try` block of `check_option` computes from the option before
      any range test: `float(str(option))`, `bool(strtobool(str(option)))` or
      `str(option)`; None where one of them raises. */
  function Reading(lib: Library, option: Json, c: Check): Option<Json>
  {
    match PyStr(lib, option)
    case None => None
    case Some(s) =>
      match c
      case FloatIn(_, _) => (match lib.parseFloat(s) case Some(x) => Some(JNum(x)) case None => None)
      case BoolFlag => (match StrToBool(s) case Some(b) => Some(JBool(b)) case None => None)
      case OneOf(_) => Some(JStr(s))
  }

  /** `check_option`: the option's reading survives exactly when it passes the
      check; in every other case the default comes back. */
  function CheckOption(lib: Library, option: Json, c: Check, default: Json): (r: Json)
    ensures Reading(lib, option, c).Some? && Holds(Reading(lib, option, c).value, c)
            ==> r == Reading(lib, option, c).value
    ensures !(Reading(lib, option, c).Some? && Holds(Reading(lib, option, c).value, c))
            ==> r == default
  {
    match PyStr(lib, option)
    case None => default
    case Some(s) =>
      match c
      case FloatIn(a, b) =>
        (match lib.parseFloat(s)
         case None => default
         case Some(x) => if x < Min2(a, b) || x > Max2(a, b) then default else JNum(x))
      case BoolFlag =>
        (match StrToBool(s)
         case None => default
         case Some(b) => JBool(b))
      case OneOf(choices) => if s in choices then JStr(s) else default
  }

  /** A valid default makes the result valid. */
  lemma CheckOptionHolds(lib: Library, option: Json, c: Check, default: Json)
    requires Holds(default, c)
    ensures Holds(CheckOption(lib, option, c, default), c)
  {
  }

  /** A value that already passes comes back unchanged, provided the library prints
      and re-reads the number exactly and the allowed strings are ASCII; so
      validating the written-back settings a second time changes nothing. */
  lemma CheckOptionKeepsValid(lib: Library, v: Json, c: Check, default: Json)
    requires Holds(v, c)
    requires v.JNum? ==> lib.parseFloat(lib.show(v)) == Some(v.x)
    requires v.JStr? ==> Ascii(v.s)
    ensures CheckOption(lib, v, c, default) == v
  {
    if v.JBool? {
      StrToBoolReadsBool(v.b);
    }
  }

  /** One line of the validation block: where the option lives and how it is checked. */
  datatype Rule = Rule(path: seq<string>, check: Check)

  /** The lines of the validation block that share a key, with paths relative to it. */
  datatype Section = Section(key: string, rules: seq<Rule>)

  /** The rules of a section with the section's key put in front of each path. */
  function Under(k: string, rules: seq<Rule>): (r: seq<Rule>)
    ensures |r| == |rules|
    ensures forall i :: 0 <= i < |r| ==> r[i] == Rule([k] + rules[i].path, rules[i].check)
  {
    seq(|rules|, i requires 0 <= i < |rules| => Rule([k] + rules[i].path, rules[i].check))
  }

  /** The sections one after the other, as the validation block lists them. */
  function Flat(secs: seq<Section>): seq<Rule>
    decreases |secs|
  {
    if secs == [] then [] else Under(secs[0].key, secs[0].rules) + Flat(secs[1..])
  }

  const COMPARE: seq<string> := ["self_previous", "self_best", "session_best"]
  const ENABLED: Rule := Rule(["enabled"], BoolFlag)

  const SECTOR_SPLIT_RULES: seq<Rule> := [ENABLED, Rule(["compare_lap"], OneOf(COMPARE))]
  const LAP_SPLIT_RULES: seq<Rule> := [ENABLED, Rule(["compare_lap"], OneOf(COMPARE))]
  const INFO_DURATION_RULES: seq<Rule> := [Rule([], FloatIn(1.0, 5.0))]

  const INFO_SECTIONS: seq<Section> := [
    Section("sector_split", SECTOR_SPLIT_RULES),
    Section("lap_split", LAP_SPLIT_RULES),
    Section("position", [ENABLED]),
    Section("remaining", [ENABLED]),
    Section("duration", INFO_DURATION_RULES)
  ]

  const TEXT_BLINK_RULES: seq<Rule> := [ENABLED, Rule(["duration"], FloatIn(0.1, 1.0))]
  const LED_BLINK_RULES: seq<Rule> := [ENABLED, Rule(["duration"], FloatIn(0.1, 1.0))]
  const INFO_TEXT_RULES: seq<Rule> := Flat(INFO_SECTIONS)
  const NEUTRAL_RULES: seq<Rule> := [Rule(["symbol"], OneOf(["0", "n", "-", "_", " "]))]
  const SPEED_RULES: seq<Rule> := [Rule(["units"], OneOf(["mph", "km/h"]))]
  const DRS_PTP_RULES: seq<Rule> := [Rule(["text"], BoolFlag), Rule(["led"], BoolFlag)]
  const FUEL_RULES: seq<Rule> := [ENABLED, Rule(["samples"], FloatIn(1.0, 5.0)),
    Rule(["warning"], FloatIn(2.0, 5.0)), Rule(["critical"], FloatIn(0.5, 2.0))]
  const TEMPERATURE_RULES: seq<Rule> := [ENABLED, Rule(["samples"], FloatIn(1.0, 5.0)),
    Rule(["warning"], FloatIn(2.0, 10.0)), Rule(["critical"], FloatIn(10.0, 20.0))]
  const RPM_RULES: seq<Rule> := [Rule(["range"], FloatIn(0.05, 0.33)), Rule(["shift"], FloatIn(0.85, 1.0))]

  /** The validation block of `read_settings`, section by section in source order. */
  const SECTIONS: seq<Section> := [
    Section("text_blink", TEXT_BLINK_RULES),
    Section("led_blink", LED_BLINK_RULES),
    Section("info_text", INFO_TEXT_RULES),
    Section("neutral", NEUTRAL_RULES),
    Section("speed", SPEED_RULES),
    Section("drs_ptp", DRS_PTP_RULES),
    Section("fuel", FUEL_RULES),
    Section("temperature", TEMPERATURE_RULES),
    Section("rpm", RPM_RULES)
  ]

  const RULES: seq<Rule> := Flat(SECTIONS)

  /** The `_comment` texts of the defaults, one per section. */
  datatype Notes = Notes(
    textBlink: string, ledBlink: string, sectorSplit: string, lapSplit: string,
    position: string, remaining: string, infoText: string, drsPtp: string,
    neutral: string, speed: string, fuel: string, temperature: string, rpm: string)

  const NOTES: Notes := Notes(
    "blink text for pit/overheat/fuel warnings. values 0.1-1.0",
    "blink indicators for DRS/PTP/pit/overheat/fuel warnings. values 0.1-1.0",
    "options are 'self_previous', 'self_best', 'session_best'",
    "options are 'self_previous', 'self_best', 'session_best'",
    "show position in field at the beginning of each lap",
    "show laps/time remaining at the beginning of each lap",
    "session timing info for each sector/lap. values 1.0-5.0",
    "(R3E only) text and green RPM LEDs for DRS/PTP",
    "options are '0', 'n', '-', '_', ' '",
    "options are 'mph', 'km/h'",
    "tune fuel warnings. 'samples' is how many laps to use for the moving average of fuel use "
    + "(values 1.0-5.0). 'warning' is how many laps of fuel left to turn on LED (values 2.0-5.0). "
    + "'critical' is how many laps of fuel left to blink LED (values 0.5-2.0).",
    "tune temperature warnings. 'samples' is how many laps to use for the initial baseline "
    + "(values 1.0-5.0). 'warning' is how many degrees C above baseline to turn on LED "
    + "(values 2.0-10.0). 'critical' is how many degrees C above baseline to blink LED (values 10.0-20.0).",
    "change tach/shift points. 'range' is what fraction of the RPM range is represented by each "
    + "group of 4 LEDs (values 0.05-0.33). 'shift' is what fraction of the RPM range to trigger "
    + "the shift LED (values 0.85-1.0).")

  function InfoTextDefaults(n: Notes): Json
  {
    JObj(map[
      "sector_split" := JObj(map[
        "_comment" := JStr(n.sectorSplit),
        "enabled" := JBool(true),
        "compare_lap" := JStr("session_best")]),
      "lap_split" := JObj(map[
        "_comment" := JStr(n.lapSplit),
        "enabled" := JBool(true),
        "compare_lap" := JStr("self_previous")]),
      "position" := JObj(map[
        "_comment" := JStr(n.position),
        "enabled" := JBool(true)]),
      "remaining" := JObj(map[
        "_comment" := JStr(n.remaining),
        "enabled" := JBool(true)]),
      "_comment" := JStr(n.infoText),
      "duration" := JNum(3.0)])
  }

  /** The `defaults` dictionary of `read_settings`, with the comments `n`. */
  function DefaultFields(n: Notes): map<string, Json>
  {
    map[
      "text_blink" := JObj(map[
        "_comment" := JStr(n.textBlink),
        "enabled" := JBool(true),
        "duration" := JNum(0.5)]),
      "led_blink" := JObj(map[
        "_comment" := JStr(n.ledBlink),
        "enabled" := JBool(true),
        "duration" := JNum(0.2)]),
      "info_text" := InfoTextDefaults(n),
      "drs_ptp" := JObj(map[
        "_comment" := JStr(n.drsPtp),
        "text" := JBool(true),
        "led" := JBool(true)]),
      "neutral" := JObj(map[
        "_comment" := JStr(n.neutral),
        "symbol" := JStr("n")]),
      "speed" := JObj(map[
        "_comment" := JStr(n.speed),
        "units" := JStr("mph")]),
      "fuel" := JObj(map[
        "_comment" := JStr(n.fuel),
        "warning" := JNum(3.0),
        "critical" := JNum(1.0),
        "samples" := JNum(3.0),
        "enabled" := JBool(true)]),
      "temperature" := JObj(map[
        "_comment" := JStr(n.temperature),
        "warning" := JNum(7.0),
        "critical" := JNum(12.0),
        "samples" := JNum(3.0),
        "enabled" := JBool(true)]),
      "rpm" := JObj(map[
        "_comment" := JStr(n.rpm),
        "range" := JNum(0.13),
        "shift" := JNum(0.95)])
    ]
  }

  const DEFAULT_FIELDS: map<string, Json> := DefaultFields(NOTES)
  const DEFAULTS: Json := JObj(DEFAULT_FIELDS)

  /** `settings[a][b]...`: None where Python raises KeyError or TypeError. */
  function Get(j: Json, path: seq<string>): Option<Json>
    decreases |path|
  {
    if path == [] then Some(j)
    else if j.JObj? && path[0] in j.fields then Get(j.fields[path[0]], path[1..])
    else None
  }

  /** `settings[a][b]... = v` along a path that exists. */
  function Set(j: Json, path: seq<string>, v: Json): Json
    decreases |path|
  {
    if path == [] then v
    else if j.JObj? && path[0] in j.fields then
      JObj(j.fields[path[0] := Set(j.fields[path[0]], path[1..], v)])
    else j
  }

  /** Two paths that part ways before either ends. */
  predicate Apart(p: seq<string>, q: seq<string>)
    decreases |p|
  {
    |p| > 0 && |q| > 0 && (p[0] != q[0] || Apart(p[1..], q[1..]))
  }

  lemma {:induction false} GetSet(j: Json, p: seq<string>, v: Json)
    requires Get(j, p).Some?
    ensures Get(Set(j, p, v), p) == Some(v)
    decreases |p|
  {
    if p != [] {
      GetSet(j.fields[p[0]], p[1..], v);
    }
  }

  /** Writing one option leaves every option on a diverging path as it was. */
  lemma {:induction false} GetSetApart(j: Json, p: seq<string>, q: seq<string>, v: Json)
    requires Apart(p, q)
    ensures Get(Set(j, p, v), q) == Get(j, q)
    decreases |p|
  {
    if j.JObj? && p[0] in j.fields && p[0] == q[0] {
      GetSetApart(j.fields[p[0]], p[1..], q[1..], v);
    }
  }

  /** The rule's option exists and passes its check. */
  predicate RuleOk(d: Json, r: Rule)
  {
    Get(d, r.path).Some? && Holds(Get(d, r.path).value, r.check)
  }

  /** Every rule's option exists and passes its check. */
  ghost predicate Valid(s: Json, rules: seq<Rule>)
  {
    forall i :: 0 <= i < |rules| ==> RuleOk(s, rules[i])
  }

  /** No rule's path lies on the way to another's. */
  ghost predicate PairwiseApart(rules: seq<Rule>)
  {
    forall i, j :: 0 <= i < j < |rules| ==> Apart(rules[i].path, rules[j].path)
  }

  /** The section keys are all different. */
  ghost predicate DistinctKeys(secs: seq<Section>)
  {
    forall i, j :: 0 <= i < j < |secs| ==> secs[i].key != secs[j].key
  }

  /** The section's own rules are independent and its default passes them. */
  ghost predicate SectionFits(d: Json, sec: Section)
  {
    PairwiseApart(sec.rules) && d.JObj? && sec.key in d.fields && Valid(d.fields[sec.key], sec.rules)
  }

  lemma ApartHeads(a: string, b: string, p: seq<string>, q: seq<string>)
    ensures a != b ==> Apart([a] + p, [b] + q)
    ensures Apart(p, q) ==> Apart([a] + p, [a] + q)
  {
    assert ([a] + p)[1..] == p && ([a] + q)[1..] == q;
  }

  lemma GetUnder(d: Json, k: string, p: seq<string>)
    requires d.JObj? && k in d.fields
    ensures Get(d, [k] + p) == Get(d.fields[k], p)
  {
    assert ([k] + p)[1..] == p;
  }

  /** Putting one key in front keeps the paths apart and finds the options below it. */
  lemma UnderFits(d: Json, sec: Section)
    requires SectionFits(d, sec)
    ensures PairwiseApart(Under(sec.key, sec.rules))
    ensures Valid(d, Under(sec.key, sec.rules))
  {
    var u := Under(sec.key, sec.rules);
    forall i, j | 0 <= i < j < |u|
      ensures Apart(u[i].path, u[j].path)
    {
      ApartHeads(sec.key, sec.key, sec.rules[i].path, sec.rules[j].path);
    }
    forall i | 0 <= i < |u|
      ensures Get(d, u[i].path).Some? && Holds(Get(d, u[i].path).value, u[i].check)
    {
      GetUnder(d, sec.key, sec.rules[i].path);
    }
  }

  /** Every path of the flattened sections starts with one of their keys. */
  lemma {:induction false} FlatHeads(secs: seq<Section>, j: nat)
    requires j < |Flat(secs)|
    ensures |Flat(secs)[j].path| > 0
    ensures exists m :: 0 <= m < |secs| && Flat(secs)[j].path[0] == secs[m].key
    decreases |secs|
  {
    var u := Under(secs[0].key, secs[0].rules);
    if j < |u| {
      assert Flat(secs)[j] == u[j];
    } else {
      assert Flat(secs)[j] == Flat(secs[1..])[j - |u|];
      FlatHeads(secs[1..], j - |u|);
      var m :| 0 <= m < |secs[1..]| && Flat(secs[1..])[j - |u|].path[0] == secs[1..][m].key;
      assert secs[1..][m] == secs[m + 1];
    }
  }

  /** A section's rules are apart from those of the sections after it, when its key
      is not theirs. */
  lemma CrossApart(secs: seq<Section>, i: nat, j: nat)
    requires |secs| > 0 && DistinctKeys(secs)
    requires i < |secs[0].rules| && j < |Flat(secs[1..])|
    ensures Apart(Under(secs[0].key, secs[0].rules)[i].path, Flat(secs[1..])[j].path)
  {
    var rest := secs[1..];
    var q := Flat(rest)[j].path;
    FlatHeads(rest, j);
    var m :| 0 <= m < |rest| && q[0] == rest[m].key;
    assert rest[m] == secs[m + 1];
    assert q == [q[0]] + q[1..];
    ApartHeads(secs[0].key, q[0], secs[0].rules[i].path, q[1..]);
  }

  /** Independence of a concatenation: each part, and every pair across. */
  lemma ApartConcat(u: seq<Rule>, f: seq<Rule>)
    requires PairwiseApart(u) && PairwiseApart(f)
    requires forall i, j :: 0 <= i < |u| && 0 <= j < |f| ==> Apart(u[i].path, f[j].path)
    ensures PairwiseApart(u + f)
  {
    forall i, j | 0 <= i < j < |u + f|
      ensures Apart((u + f)[i].path, (u + f)[j].path)
    {
      if j < |u| {
        assert (u + f)[i] == u[i] && (u + f)[j] == u[j];
      } else if i < |u| {
        assert (u + f)[i] == u[i] && (u + f)[j] == f[j - |u|];
      } else {
        assert (u + f)[i] == f[i - |u|] && (u + f)[j] == f[j - |u|];
      }
    }
  }

  lemma ValidConcat(d: Json, u: seq<Rule>, f: seq<Rule>)
    requires Valid(d, u) && Valid(d, f)
    ensures Valid(d, u + f)
  {
    forall i | 0 <= i < |u + f|
      ensures Get(d, (u + f)[i].path).Some? && Holds(Get(d, (u + f)[i].path).value, (u + f)[i].check)
    {
      if i < |u| {
        assert (u + f)[i] == u[i];
      } else {
        assert (u + f)[i] == f[i - |u|];
      }
    }
  }

  /** Sections with distinct keys, each fitting its default, flatten to independent
      rules that the defaults pass. */
  lemma {:induction false} FlatFits(d: Json, secs: seq<Section>)
    requires DistinctKeys(secs)
    requires forall m :: 0 <= m < |secs| ==> SectionFits(d, secs[m])
    ensures PairwiseApart(Flat(secs)) && Valid(d, Flat(secs))
    decreases |secs|
  {
    if secs != [] {
      var rest := secs[1..];
      assert DistinctKeys(rest) by {
        forall i, j | 0 <= i < j < |rest|
          ensures rest[i].key != rest[j].key
        {
          assert rest[i] == secs[i + 1] && rest[j] == secs[j + 1];
        }
      }
      forall m | 0 <= m < |rest|
        ensures SectionFits(d, rest[m])
      {
        assert rest[m] == secs[m + 1];
      }
      FlatFits(d, rest);
      UnderFits(d, secs[0]);
      var u, f := Under(secs[0].key, secs[0].rules), Flat(rest);
      forall i, j | 0 <= i < |u| && 0 <= j < |f|
        ensures Apart(u[i].path, f[j].path)
      {
        CrossApart(secs, i, j);
      }
      ApartConcat(u, f);
      ValidConcat(d, u, f);
    }
  }

  /** The validation block from a given rule on: each option is replaced by what
      `check_option` makes of it against the default `d` holds at the same path, in
      order; a missing key or a section that is not a dictionary stops it with an
      exception (None). */
  function ValidateFrom(lib: Library, d: Json, s: Json, rules: seq<Rule>): Option<Json>
    decreases |rules|
  {
    if rules == [] then Some(s)
    else
      var r := rules[0];
      match (Get(s, r.path), Get(d, r.path))
      case (Some(v), Some(dv)) => ValidateFrom(lib, d, Set(s, r.path, CheckOption(lib, v, r.check, dv)), rules[1..])
      case _ => None
  }

  /** Validation with valid defaults and independent paths leaves every option
      valid, the ones checked first included. */
  lemma {:induction false} ValidateFromValid(lib: Library, d: Json, s: Json, rules: seq<Rule>)
    requires PairwiseApart(rules) && Valid(d, rules)
    requires ValidateFrom(lib, d, s, rules).Some?
    ensures Valid(ValidateFrom(lib, d, s, rules).value, rules)
    decreases |rules|
  {
    if rules != [] {
      var r, rest := rules[0], rules[1..];
      var v, dv := Get(s, r.path).value, Get(d, r.path).value;
      var x := CheckOption(lib, v, r.check, dv);
      var s' := Set(s, r.path, x);
      assert PairwiseApart(rest) by {
        forall i, j | 0 <= i < j < |rest|
          ensures Apart(rest[i].path, rest[j].path)
        {
          assert rest[i] == rules[i + 1] && rest[j] == rules[j + 1];
        }
      }
      assert Valid(d, rest) by {
        forall i | 0 <= i < |rest|
          ensures Get(d, rest[i].path).Some? && Holds(Get(d, rest[i].path).value, rest[i].check)
        {
          assert rest[i] == rules[i + 1];
        }
      }
      forall i | 0 <= i < |rest|
        ensures Apart(r.path, rest[i].path)
      {
        assert rest[i] == rules[i + 1];
      }
      ValidateFromValid(lib, d, s', rest);
      ValidateFromKeeps(lib, d, s', rest, r.path);
      GetSet(s, r.path, x);
      CheckOptionHolds(lib, v, r.check, dv);
      var t := ValidateFrom(lib, d, s', rest).value;
      forall i | 0 <= i < |rules|
        ensures Get(t, rules[i].path).Some? && Holds(Get(t, rules[i].path).value, rules[i].check)
      {
        if i > 0 {
          assert rest[i - 1] == rules[i];
        }
      }
    }
  }

  /** Later rules do not touch a path apart from all of theirs. */
  lemma {:induction false} ValidateFromKeeps(lib: Library, d: Json, s: Json, rules: seq<Rule>, p: seq<string>)
    requires forall i :: 0 <= i < |rules| ==> Apart(p, rules[i].path)
    requires ValidateFrom(lib, d, s, rules).Some?
    ensures Get(ValidateFrom(lib, d, s, rules).value, p) == Get(s, p)
    decreases |rules|
  {
    if rules != [] {
      var r, rest := rules[0], rules[1..];
      var x := CheckOption(lib, Get(s, r.path).value, r.check, Get(d, r.path).value);
      ApartSymmetric(p, r.path);
      GetSetApart(s, r.path, p, x);
      forall i | 0 <= i < |rest|
        ensures Apart(p, rest[i].path)
      {
        assert rest[i] == rules[i + 1];
      }
      ValidateFromKeeps(lib, d, Set(s, r.path, x), rest, p);
    }
  }

  lemma {:induction false} ApartSymmetric(p: seq<string>, q: seq<string>)
    requires Apart(p, q)
    ensures Apart(q, p)
    decreases |p|
  {
    if p[0] == q[0] {
      ApartSymmetric(p[1..], q[1..]);
    }
  }

  /** A short list of rules is valid when each of its rules is. */
  lemma ValidSmall(d: Json, rules: seq<Rule>)
    requires |rules| <= 4
    requires |rules| > 0 ==> RuleOk(d, rules[0])
    requires |rules| > 1 ==> RuleOk(d, rules[1])
    requires |rules| > 2 ==> RuleOk(d, rules[2])
    requires |rules| > 3 ==> RuleOk(d, rules[3])
    ensures Valid(d, rules)
  {
  }

  lemma TextBlinkSection(n: Notes)
    ensures SectionFits(JObj(DefaultFields(n)), SECTIONS[0])
  {
    ValidSmall(DefaultFields(n)["text_blink"], TEXT_BLINK_RULES);
  }

  lemma LedBlinkSection(n: Notes)
    ensures SectionFits(JObj(DefaultFields(n)), SECTIONS[1])
  {
    ValidSmall(DefaultFields(n)["led_blink"], LED_BLINK_RULES);
  }

  lemma NeutralSection(n: Notes)
    ensures SectionFits(JObj(DefaultFields(n)), SECTIONS[3])
  {
    ValidSmall(DefaultFields(n)["neutral"], NEUTRAL_RULES);
  }

  lemma SpeedSection(n: Notes)
    ensures SectionFits(JObj(DefaultFields(n)), SECTIONS[4])
  {
    ValidSmall(DefaultFields(n)["speed"], SPEED_RULES);
  }

  lemma DrsPtpSection(n: Notes)
    ensures SectionFits(JObj(DefaultFields(n)), SECTIONS[5])
  {
    ValidSmall(DefaultFields(n)["drs_ptp"], DRS_PTP_RULES);
  }

  lemma FuelSection(n: Notes)
    ensures SectionFits(JObj(DefaultFields(n)), SECTIONS[6])
  {
    assert SECTIONS[6] == Section("fuel", FUEL_RULES);
    ValidSmall(DefaultFields(n)["fuel"], FUEL_RULES);
  }

  lemma TemperatureSection(n: Notes)
    ensures SectionFits(JObj(DefaultFields(n)), SECTIONS[7])
  {
    assert SECTIONS[7] == Section("temperature", TEMPERATURE_RULES);
    ValidSmall(DefaultFields(n)["temperature"], TEMPERATURE_RULES);
  }

  lemma RpmSection(n: Notes)
    ensures SectionFits(JObj(DefaultFields(n)), SECTIONS[8])
  {
    ValidSmall(DefaultFields(n)["rpm"], RPM_RULES);
  }

  lemma InfoSplitsFit(n: Notes)
    ensures SectionFits(InfoTextDefaults(n), INFO_SECTIONS[0])
    ensures SectionFits(InfoTextDefaults(n), INFO_SECTIONS[1])
  {
    var d := InfoTextDefaults(n);
    ValidSmall(d.fields["sector_split"], SECTOR_SPLIT_RULES);
    ValidSmall(d.fields["lap_split"], LAP_SPLIT_RULES);
  }

  lemma InfoRestFit(n: Notes, m: nat)
    requires 2 <= m < |INFO_SECTIONS|
    ensures SectionFits(InfoTextDefaults(n), INFO_SECTIONS[m])
  {
    var d := InfoTextDefaults(n);
    ValidSmall(d.fields[INFO_SECTIONS[m].key], INFO_SECTIONS[m].rules);
  }

  lemma InfoTextSection(n: Notes)
    ensures SectionFits(JObj(DefaultFields(n)), SECTIONS[2])
  {
    var d := InfoTextDefaults(n);
    InfoSplitsFit(n);
    forall m | 2 <= m < |INFO_SECTIONS|
      ensures SectionFits(d, INFO_SECTIONS[m])
    {
      InfoRestFit(n, m);
    }
    assert DistinctKeys(INFO_SECTIONS);
    FlatFits(d, INFO_SECTIONS);
  }

  /** The options of the validation block sit on independent paths, and every
      default passes its own rule, whatever the comments say. */
  lemma DefaultsValidWith(n: Notes)
    ensures PairwiseApart(RULES) && Valid(JObj(DefaultFields(n)), RULES)
  {
    forall m | 0 <= m < |SECTIONS|
      ensures SectionFits(JObj(DefaultFields(n)), SECTIONS[m])
    {
      if m == 0 {
        TextBlinkSection(n);
      } else if m == 1 {
        LedBlinkSection(n);
      } else if m == 2 {
        InfoTextSection(n);
      } else if m == 3 {
        NeutralSection(n);
      } else if m == 4 {
        SpeedSection(n);
      } else if m == 5 {
        DrsPtpSection(n);
      } else if m == 6 {
        FuelSection(n);
      } else if m == 7 {
        TemperatureSection(n);
      } else {
        RpmSection(n);
      }
    }
    assert DistinctKeys(SECTIONS);
    FlatFits(JObj(DefaultFields(n)), SECTIONS);
  }

  lemma DefaultsValid()
    ensures PairwiseApart(RULES) && Valid(DEFAULTS, RULES)
  {
    DefaultsValidWith(NOTES);
  }

  /** `dict(defaults, **loaded)`: a top-level section of the file replaces the default
      section whole; sections the file lacks come from the defaults. */
  function Merge(defaults: map<string, Json>, loaded: map<string, Json>): (m: Json)
    ensures m.JObj? && m.fields.Keys == defaults.Keys + loaded.Keys
    ensures forall k :: k in loaded ==> m.fields[k] == loaded[k]
    ensures forall k :: k in defaults && k !in loaded ==> m.fields[k] == defaults[k]
  {
    JObj(defaults + loaded)
  }

  /** The validation block of `read_settings`: overwrites the options in place, one
      rule after the other, checking each against the default at its path. */
  method Validate(lib: Library, d: Json, rules: seq<Rule>, s0: Json) returns (r: Option<Json>)
    ensures r == ValidateFrom(lib, d, s0, rules)
  {
    var s := s0;
    var i := 0;
    while i < |rules|
      invariant 0 <= i <= |rules|
      invariant ValidateFrom(lib, d, s, rules[i..]) == ValidateFrom(lib, d, s0, rules)
    {
      var rule := rules[i];
      var cur := Get(s, rule.path);
      var dv := Get(d, rule.path);
      assert rules[i..][0] == rule && rules[i..][1..] == rules[i + 1..];
      if cur.None? || dv.None? {
        return None;
      }
      s := Set(s, rule.path, CheckOption(lib, cur.value, rule.check, dv.value));
      i := i + 1;
    }
    assert rules[i..] == [];
    r := Some(s);
  }

  /** `read_settings` without the file I/O: `loaded` is what `json.load` returned, or
      None when it raised ValueError. A file whose top level is not a dictionary makes
      the merge raise TypeError (None). */
  method ReadSettings(lib: Library, loaded: Option<Json>) returns (r: Option<Json>)
    ensures loaded.None? ==> r == Some(DEFAULTS)
    ensures loaded.Some? && !loaded.value.JObj? ==> r.None?
    ensures loaded.Some? && loaded.value.JObj? && PyEq(Merge(DEFAULT_FIELDS, loaded.value.fields), DEFAULTS)
            ==> r == Some(Merge(DEFAULT_FIELDS, loaded.value.fields))
    ensures loaded.Some? && loaded.value.JObj? && !PyEq(Merge(DEFAULT_FIELDS, loaded.value.fields), DEFAULTS)
            ==> r == ValidateFrom(lib, DEFAULTS, Merge(DEFAULT_FIELDS, loaded.value.fields), RULES)
    ensures r.Some? ==> PyEq(r.value, DEFAULTS) || Valid(r.value, RULES)
  {
    DefaultsValid();
    if loaded.None? {
      return Some(DEFAULTS);
    }
    if !loaded.value.JObj? {
      return None;
    }
    var settings := Merge(DEFAULT_FIELDS, loaded.value.fields);
    if PyEq(settings, DEFAULTS) {
      return Some(settings);
    }
    r := Validate(lib, DEFAULTS, RULES, settings);
    if r.Some? {
      ValidateFromValid(lib, DEFAULTS, settings, RULES);
    }
  }

  const BLANK: string := " "
  const BLANKS: string := "    "

  /** The fields the launcher assigns once a simulator has exited. */
  function ClearedOf(p: Panel): Panel
  {
    Panel(BLANKS, BLANKS, BLANK,
          Rpm(DARK, DARK, DARK, p.rpm.useGreen, p.rpm.useRed, p.rpm.useBlue, p.rpm.useStatus, 0.0),
          DARK)
  }

  lemma BlankGlyph()
    ensures Glyph(' ') == 0
  {
  }

  lemma BlankField()
    ensures |DisplayBytes(BLANKS, 4)| == 4 && forall i :: 0 <= i < 4 ==> DisplayBytes(BLANKS, 4)[i] == 0
  {
    BlankGlyph();
    PlainFits(BLANKS);
    UniformText(BLANKS, ' ');
  }

  lemma BlankGear()
    ensures |DisplayBytes(BLANK, 1)| == 1 && DisplayBytes(BLANK, 1)[0] == 0
  {
    BlankGlyph();
    PlainFits(BLANK);
    PlainText(BLANK);
  }

  /** Once the simulator has exited the display shows nothing: every digit and
      every LED is off. */
  lemma ClearedPanel(p: Panel)
    ensures var q := CalcLedsOf(ClearedOf(p));
      && q.left == BLANKS && q.right == BLANKS && q.gear == BLANK
      && LedByte(q.rpm.red, q.rpm.green) == 0 && LedByte(q.status, q.rpm.blue) == 0
  {
    DarkLeds(ClearedOf(p));
    CalcLedsKeeps(ClearedOf(p));
    DarkByte();
  }

  lemma ClearShowsNothing(p: Panel)
    ensures var r := PackOf(CalcLedsOf(ClearedOf(p)));
      && (forall i :: 1 <= i < 9 || i == 11 ==> r[i] == 0)
      && r[9] == 0 && r[10] == 0
  {
    var q := CalcLedsOf(ClearedOf(p));
    ClearedPanel(p);
    BlankBytes(q);
    FieldsReport(q, 0);
  }

  lemma BlankBytes(q: Panel)
    requires q.left == BLANKS && q.right == BLANKS && q.gear == BLANK
    ensures |DisplayBytes(q.left, 4)| == 4 && |DisplayBytes(q.right, 4)| == 4
    ensures forall i :: 0 <= i < 4 ==> DisplayBytes(q.left, 4)[i] == 0 && DisplayBytes(q.right, 4)[i] == 0
    ensures |DisplayBytes(q.gear, 1)| == 1 && DisplayBytes(q.gear, 1)[0] == 0
  {
    BlankField();
    BlankGear();
  }

  /** The assignments, without the report. */
  method Clear(dash: Display)
    modifies dash
    ensures dash.Snapshot() == ClearedOf(old(dash.Snapshot()))
    ensures dash.report == old(dash.report)
  {
    var m := dash.rpm;
    dash.gear := BLANK;
    dash.left := BLANKS;
    dash.right := BLANKS;
    dash.rpm := Rpm(DARK, DARK, DARK, m.useGreen, m.useRed, m.useBlue, m.useStatus, 0.0);
    dash.status := DARK;
  }

  /** Blanks the display after the simulator exits, then sends the report. */
  method ClearDisplay(dash: Display)
    modifies dash
    ensures dash.Snapshot() == CalcLedsOf(ClearedOf(old(dash.Snapshot())))
    ensures dash.report == PackOf(dash.Snapshot())
  {
    Clear(dash);
    dash.Update();
  }
}
