/** The Renovatio SRD-9c display: its 41-byte HID output report and the panel
    state (two 4-digit fields, a gear digit, 12 RPM LEDs and 4 status LEDs) the
    dashboard scripts write before each report is sent. */
module Srd9c {
  import opened Wrappers
  import opened Text

  /** Segment bit of the decimal point (the table's entry for '.'). */
  const DOT: int := 0x80

  /** Number of bytes in one output report. */
  const REPORT_SIZE: nat := 41

  /** The 7-segment pattern of each character the display can draw (`srd9c.lut`).
      Bits 0..6 are the segments, bit 7 the decimal point. */
  function Lut(c: char): Option<int>
  {
    match c
    case '0' => Some(0x3F)
    case '1' => Some(0x06)
    case '2' => Some(0x5B)
    case '3' => Some(0x4F)
    case '4' => Some(0x66)
    case '5' => Some(0x6D)
    case '6' => Some(0x7D)
    case '7' => Some(0x07)
    case '8' => Some(0x7F)
    case '9' => Some(0x6F)
    case 'A' => Some(0x77)
    case 'B' => Some(0x7C)
    case 'C' => Some(0x58)
    case 'D' => Some(0x5E)
    case 'E' => Some(0x79)
    case 'F' => Some(0x71)
    case 'G' => Some(0x3D)
    case 'H' => Some(0x74)
    case 'I' => Some(0x10)
    case 'J' => Some(0x0E)
    case 'L' => Some(0x38)
    case 'N' => Some(0x54)
    case 'O' => Some(0x5C)
    case 'P' => Some(0x73)
    case 'Q' => Some(0x6B)
    case 'R' => Some(0x50)
    case 'S' => Some(0x6D)
    case 'T' => Some(0x78)
    case 'U' => Some(0x1C)
    case 'Y' => Some(0x6E)
    case 'Z' => Some(0x5B)
    case '-' => Some(0x40)
    case '_' => Some(0x08)
    case '=' => Some(0x48)
    case '"' => Some(0x22)
    case '\'' => Some(0x20)
    case '`' => Some(0x02)
    case '.' => Some(0x80)
    case _ => None
  }

  /** The segment byte of one character: looked up after upper-casing; a character
      the table does not know (the space among them) lights nothing. */
  function Glyph(c: char): (b: int)
    ensures c != '.' ==> 0 <= b < DOT
    ensures Lut(Upper(c)).None? ==> b == 0
  {
    match Lut(Upper(c))
    case Some(v) => v
    case None => 0
  }

  /** Lower- and upper-case letters draw the same segments. */
  lemma GlyphIgnoresCase(c: char)
    ensures Glyph(c) == Glyph(Upper(c))
  {
    UpperLetters(c);
  }

  /** `s.replace('.', '')`: the characters that take a digit position. */
  function Visible(s: string): string
  {
    if s == [] then [] else (if s[0] == '.' then [] else [s[0]]) + Visible(s[1..])
  }

  lemma {:induction false} VisibleAppend(a: string, b: string)
    ensures Visible(a + b) == Visible(a) + Visible(b)
  {
    if a == [] {
      assert a + b == b;
    } else {
      assert (a + b)[1..] == a[1..] + b;
      VisibleAppend(a[1..], b);
    }
  }

  lemma VisibleOne(c: char)
    ensures Visible([c]) == if c == '.' then [] else [c]
  {
    assert [c][1..] == [];
  }

  lemma VisibleDropLast(s: string)
    requires s != []
    ensures Visible(s) == Visible(s[..|s| - 1]) + (if s[|s| - 1] == '.' then [] else [s[|s| - 1]])
  {
    var a, c := s[..|s| - 1], s[|s| - 1];
    assert s == a + [c];
    VisibleAppend(a, [c]);
    VisibleOne(c);
  }

  /** The first loop of `string_to_display`: drop characters from the right end
      until at most `l` of them take a digit position. */
  function Truncated(s: string, l: nat): (t: string)
    decreases |s|
  {
    if |Visible(s)| <= l then s else Truncated(s[..|s| - 1], l)
  }

  function Min(a: int, b: int): int { if a <= b then a else b }

  /** Over-long text loses characters from its right end, and dots do not count. */
  lemma {:induction false} TruncatedKeepsLeft(s: string, l: nat)
    ensures var t := Truncated(s, l);
      && |t| <= |s| && t == s[..|t|]
      && Visible(t) == Visible(s)[..Min(|Visible(s)|, l)]
    decreases |s|
  {
    if |Visible(s)| > l {
      var s' := s[..|s| - 1];
      VisibleDropLast(s);
      TruncatedKeepsLeft(s', l);
      var t := Truncated(s', l);
      assert s'[..|t|] == s[..|t|];
    }
  }

  /** The text that is encoded: truncated, then left-padded with spaces to width `l`. */
  function Fitted(s: string, l: nat): string
  {
    var t := Truncated(s, l);
    Repeat(' ', l - |Visible(t)|) + t
  }

  lemma VisibleSpaces(n: int)
    ensures Visible(Repeat(' ', n)) == Repeat(' ', n)
    decreases n
  {
    if n > 0 {
      assert Repeat(' ', n)[1..] == Repeat(' ', n - 1);
      VisibleSpaces(n - 1);
    }
  }

  /** Short text is padded on the left with spaces; the result always spans `l` digits. */
  lemma FittedLayout(s: string, l: nat)
    ensures var m := Min(|Visible(s)|, l);
      Visible(Fitted(s, l)) == Repeat(' ', l - m) + Visible(s)[..m]
    ensures |Visible(Fitted(s, l))| == l
  {
    var t := Truncated(s, l);
    TruncatedKeepsLeft(s, l);
    VisibleAppend(Repeat(' ', l - |Visible(t)|), t);
    VisibleSpaces(l - |Visible(t)|);
  }

  /** Segment bytes of `s`, one per visible character; a '.' emits no byte and adds
      the decimal point to the character before it. */
  function Encode(s: string): seq<int>
  {
    if s == [] then []
    else if s[0] == '.' then Encode(s[1..])
    else [Glyph(s[0]) + (if |s| > 1 && s[1] == '.' then DOT else 0)] + Encode(s[1..])
  }

  lemma {:induction false} EncodeLength(s: string)
    ensures |Encode(s)| == |Visible(s)|
  {
    if s != [] {
      EncodeLength(s[1..]);
    }
  }

  lemma {:induction false} EncodeBytes(s: string)
    ensures forall i :: 0 <= i < |Encode(s)| ==> 0 <= Encode(s)[i] < 256
  {
    if s != [] {
      EncodeBytes(s[1..]);
    }
  }

  /** The character at position `i` (not a dot) becomes byte number "visible characters
      before it", with the decimal point set exactly when a '.' follows it. */
  lemma {:induction false} EncodeAt(s: string, i: nat)
    requires i < |s| && s[i] != '.'
    ensures |Visible(s[..i])| < |Encode(s)|
    ensures Encode(s)[|Visible(s[..i])|]
         == Glyph(s[i]) + (if i + 1 < |s| && s[i + 1] == '.' then DOT else 0)
  {
    if i == 0 {
      assert s[..i] == [];
    } else {
      assert s[..i][1..] == s[1..][..i - 1];
      EncodeAt(s[1..], i - 1);
    }
  }

  /** What `string_to_display(s, l)` returns. */
  function DisplayBytes(s: string, l: nat): seq<int>
  {
    Encode(Fitted(s, l))
  }

  /** Whatever the text, exactly `l` bytes come out. */
  lemma DisplayBytesShape(s: string, l: nat)
    ensures |DisplayBytes(s, l)| == l
    ensures forall i :: 0 <= i < l ==> 0 <= DisplayBytes(s, l)[i] < 256
  {
    FittedLayout(s, l);
    EncodeLength(Fitted(s, l));
    EncodeBytes(Fitted(s, l));
  }

  /** `Truncated` stops at the first string short enough. */
  lemma TruncatedShort(s: string, l: nat)
    requires |Visible(s)| <= l
    ensures Truncated(s, l) == s
  {
  }

  lemma PadStep(k: nat, t: string)
    ensures " " + (Repeat(' ', k) + t) == Repeat(' ', k + 1) + t
    ensures |Visible(" " + (Repeat(' ', k) + t))| == 1 + |Visible(Repeat(' ', k) + t)|
  {
    VisibleAppend(" ", Repeat(' ', k) + t);
    assert " "[1..] == [];
  }

  lemma AppendAssoc(a: seq<int>, b: seq<int>, c: seq<int>)
    ensures (a + b) + c == a + (b + c)
  {
  }

  /** One step of the encoding loop: the byte of the character at `i`, if any. */
  lemma EncodeStep(s: string, i: nat)
    requires i < |s|
    ensures Encode(s[i..]) == (if s[i] == '.' then [] else
      [Glyph(s[i]) + (if i < |s| - 1 && s[i + 1] == '.' then DOT else 0)]) + Encode(s[i + 1..])
  {
    assert s[i..][1..] == s[i + 1..];
  }

  /** First loop of `string_to_display`: drops characters from the right. */
  method TrimRight(s0: string, l: nat) returns (s: string)
    ensures s == Truncated(s0, l)
  {
    s := s0;
    while |Visible(s)| > l
      invariant Truncated(s, l) == Truncated(s0, l)
      decreases |s|
    {
      s := s[..|s| - 1];
    }
    TruncatedShort(s, l);
  }

  /** Second loop of `string_to_display`: pads with spaces on the left. */
  method PadLeft(t: string, l: nat) returns (s: string)
    requires |Visible(t)| <= l
    ensures s == Repeat(' ', l - |Visible(t)|) + t
  {
    s := t;
    ghost var k: nat := 0;
    while |Visible(s)| < l
      invariant s == Repeat(' ', k) + t
      invariant |Visible(s)| == k + |Visible(t)| <= l
      decreases l - |Visible(s)|
    {
      PadStep(k, t);
      s := " " + s;
      k := k + 1;
    }
  }

  /** Third loop of `string_to_display`: one byte per visible character. */
  method EncodeText(s: string) returns (o: seq<int>)
    ensures o == Encode(s)
  {
    o := [];
    var i := 0;
    while i < |s|
      invariant 0 <= i <= |s|
      invariant o + Encode(s[i..]) == Encode(s)
    {
      EncodeStep(s, i);
      if s[i] == '.' {
        assert [] + Encode(s[i + 1..]) == Encode(s[i + 1..]);
        i := i + 1;
        continue;
      }
      var b := Glyph(s[i]);
      if i < |s| - 1 && s[i + 1] == '.' {
        b := b + DOT;
      }
      AppendAssoc(o, [b], Encode(s[i + 1..]));
      o := o + [b];
      i := i + 1;
    }
    assert s[i..] == [];
  }

  /** `string_to_display`: fits `s` to `l` digit positions and encodes it. */
  method StringToDisplay(s: string, l: nat) returns (o: seq<int>)
    ensures o == DisplayBytes(s, l)
    ensures |o| == l
  {
    var t := TrimRight(s, l);
    TruncatedKeepsLeft(s, l);
    var f := PadLeft(t, l);
    o := EncodeText(f);
    DisplayBytesShape(s, l);
  }

  /** A string of LED states, '0' (off) or '1' (on). */
  predicate IsLed(s: string)
  {
    forall i :: 0 <= i < |s| ==> s[i] == '0' || s[i] == '1'
  }

  /** The characters of `s` that are '0' or '1', in order. */
  function Bits(s: string): (r: string)
    ensures IsLed(r) && |r| <= |s|
  {
    if s == [] then [] else (if s[0] == '0' || s[0] == '1' then [s[0]] else []) + Bits(s[1..])
  }

  lemma {:induction false} BitsOfLed(s: string)
    requires IsLed(s)
    ensures Bits(s) == s
  {
    if s != [] {
      BitsOfLed(s[1..]);
    }
  }

  /** `string_to_led`: keeps the '0'/'1' characters, left-pads with '0' to four and
      reverses the first four, so that LED k of a group comes out as bit k. */
  function StringToLed(s: string): (r: string)
    ensures |r| == 4 && IsLed(r)
  {
    var p := RJust(Bits(s), 4, '0');
    seq(4, k requires 0 <= k < 4 => p[3 - k])
  }

  /** On a well-formed 4-LED string the conversion is a plain reversal, so applying
      it twice gives the string back. */
  lemma StringToLedReverses(s: string)
    requires |s| == 4 && IsLed(s)
    ensures StringToLed(s) == [s[3], s[2], s[1], s[0]]
    ensures StringToLed(StringToLed(s)) == s
  {
    BitsOfLed(s);
    BitsOfLed(StringToLed(s));
  }

  /** Characters other than '0' and '1' are dropped before padding. */
  lemma StringToLedDropsNoise(s: string)
    ensures StringToLed(s) == StringToLed(Bits(s))
  {
    BitsOfLed(Bits(s));
  }

  /** A string of up to four LEDs is padded with dark LEDs at its far end, and its
      last character becomes LED 0. */
  lemma StringToLedShort(s: string, j: nat)
    requires IsLed(s) && |s| <= 4 && j < 4
    ensures StringToLed(s)[j] == if j < |s| then s[|s| - 1 - j] else '0'
  {
    BitsOfLed(s);
    RJustAt(s, 4, '0', 3 - j);
  }

  function BitValue(c: char): nat
  {
    if c == '1' then 1 else 0
  }

  /** `int(s, 2)` for a string of '0'/'1' characters. */
  function BinValue(s: string): nat
  {
    if s == [] then 0 else 2 * BinValue(s[..|s| - 1]) + BitValue(s[|s| - 1])
  }

  /** Value of a group of four LEDs when LED k is bit k. */
  function Nibble(s: string): nat
    requires |s| == 4
  {
    BitValue(s[0]) + 2 * BitValue(s[1]) + 4 * BitValue(s[2]) + 8 * BitValue(s[3])
  }

  /** One LED byte of the report: `int(string_to_led(hi) + string_to_led(lo), 2)`. */
  function LedByte(hi: string, lo: string): int
  {
    BinValue(StringToLed(hi) + StringToLed(lo))
  }

  /** Appending a bit shifts the value left by one. */
  lemma BinSnoc(a: string, c: char)
    ensures BinValue(a + [c]) == 2 * BinValue(a) + BitValue(c)
  {
    assert (a + [c])[..|a + [c]| - 1] == a;
  }

  /** Appending four bits shifts the value left by four. */
  lemma BinAppend(a: string, b: string)
    requires |b| == 4
    ensures BinValue(a + b) == 16 * BinValue(a) + BinValue(b)
  {
    var b1, b2, b3 := b[..1], b[..2], b[..3];
    assert b1 == [] + [b[0]] && b2 == b1 + [b[1]] && b3 == b2 + [b[2]] && b == b3 + [b[3]];
    assert a + b1 == a + [b[0]] && a + b2 == (a + b1) + [b[1]];
    assert a + b3 == (a + b2) + [b[2]] && a + b == (a + b3) + [b[3]];
    BinSnoc(a, b[0]);
    BinSnoc(a + b1, b[1]);
    BinSnoc(a + b2, b[2]);
    BinSnoc(a + b3, b[3]);
    BinSnoc([], b[0]);
    BinSnoc(b1, b[1]);
    BinSnoc(b2, b[2]);
    BinSnoc(b3, b[3]);
  }

  lemma BinFour(x: string)
    requires |x| == 4
    ensures BinValue(x) == Nibble([x[3], x[2], x[1], x[0]])
  {
    var x1, x2, x3 := x[..1], x[..2], x[..3];
    assert x1[..0] == [] && x2[..1] == x1 && x3[..2] == x2 && x[..3] == x3;
    assert BinValue(x1) == BitValue(x[0]);
    assert BinValue(x2) == 2 * BitValue(x[0]) + BitValue(x[1]);
    assert BinValue(x3) == 4 * BitValue(x[0]) + 2 * BitValue(x[1]) + BitValue(x[2]);
  }

  lemma PackNibbles(a: string, b: string)
    requires |a| == 4 && |b| == 4
    ensures BinValue(a + b) == 16 * Nibble([a[3], a[2], a[1], a[0]]) + Nibble([b[3], b[2], b[1], b[0]])
  {
    BinAppend(a, b);
    BinFour(a);
    BinFour(b);
  }

  lemma LedByteRange(hi: string, lo: string)
    ensures 0 <= LedByte(hi, lo) < 256
  {
    PackNibbles(StringToLed(hi), StringToLed(lo));
  }

  /** For LED strings in display order, LED k of `lo` is bit k and LED k of `hi`
      is bit k + 4 of the byte. */
  lemma LedByteLayout(hi: string, lo: string)
    requires |hi| == 4 && |lo| == 4 && IsLed(hi) && IsLed(lo)
    ensures LedByte(hi, lo) == 16 * Nibble(hi) + Nibble(lo)
  {
    StringToLedReverses(hi);
    StringToLedReverses(lo);
    PackNibbles(StringToLed(hi), StringToLed(lo));
  }

  /** The RPM bar of `calc_leds` over `n` LEDs: `int(n * |value|)` LEDs lit, the rest
      padded; a negative value swaps the lit and unlit characters. May be longer
      than `n` when |value| > 1. */
  function LedBar(n: nat, value: real): (bar: string)
    ensures |bar| >= n
  {
    var on := if value < 0.0 then '0' else '1';
    var off := if value < 0.0 then '1' else '0';
    LJust(Repeat(on, Lit(n, value)), n, off)
  }

  function Abs(x: real): real { if x < 0.0 then -x else x }

  function Lit(n: nat, value: real): nat
  {
    (n as real * Abs(value)).Floor
  }

  lemma LedBarLit(n: nat, value: real, i: nat)
    requires i < |LedBar(n, value)|
    ensures LedBar(n, value)[i] == (if value < 0.0 then '0' else '1') <==> i < Lit(n, value)
    ensures |LedBar(n, value)| == if Lit(n, value) > n then Lit(n, value) else n
  {
  }

  /** Everything `update` turns into a report. */
  datatype Panel = Panel(left: string, right: string, gear: string, rpm: Rpm, status: string)

  /** The `rpm` dictionary: the three RPM LED strings, which groups the bar uses
      (the status LEDs included), and the bar's value. */
  datatype Rpm = Rpm(
    green: string, red: string, blue: string,
    useGreen: bool, useRed: bool, useBlue: bool, useStatus: bool,
    value: real)

  function B2I(b: bool): nat { if b then 1 else 0 }

  /** Number of enabled 4-LED groups, the status LEDs included when enabled. */
  function Groups(m: Rpm): nat
  {
    B2I(m.useGreen) + B2I(m.useRed) + B2I(m.useBlue) + B2I(m.useStatus)
  }

  /** The dealing half of `calc_leds`: each enabled group in turn, green, red, blue
      and status, takes `bar[:4]` and the bar moves on to `bar[4:]`; a disabled group
      keeps its string. */
  function Deal(p: Panel, bar: string): Panel
  {
    var m := p.rpm;
    var green := if m.useGreen then SliceTo(bar, 4) else m.green;
    var bar1 := if m.useGreen then SliceFrom(bar, 4) else bar;
    var red := if m.useRed then SliceTo(bar1, 4) else m.red;
    var bar2 := if m.useRed then SliceFrom(bar1, 4) else bar1;
    var blue := if m.useBlue then SliceTo(bar2, 4) else m.blue;
    var bar3 := if m.useBlue then SliceFrom(bar2, 4) else bar2;
    var status := if m.useStatus then SliceTo(bar3, 4) else p.status;
    Panel(p.left, p.right, p.gear,
          Rpm(green, red, blue, m.useGreen, m.useRed, m.useBlue, m.useStatus, m.value),
          status)
  }

  /** `calc_leds`: the bar of 4 x (enabled groups) LEDs, dealt out. */
  function CalcLedsOf(p: Panel): Panel
  {
    Deal(p, LedBar(4 * Groups(p.rpm), p.rpm.value))
  }

  /** Only the LED strings of enabled groups change. */
  lemma CalcLedsKeeps(p: Panel)
    ensures var q := CalcLedsOf(p);
      && q.left == p.left && q.right == p.right && q.gear == p.gear && q.rpm.value == p.rpm.value
      && q.rpm.useGreen == p.rpm.useGreen && q.rpm.useRed == p.rpm.useRed
      && q.rpm.useBlue == p.rpm.useBlue && q.rpm.useStatus == p.rpm.useStatus
      && (!p.rpm.useGreen ==> q.rpm.green == p.rpm.green)
      && (!p.rpm.useRed ==> q.rpm.red == p.rpm.red)
      && (!p.rpm.useBlue ==> q.rpm.blue == p.rpm.blue)
      && (!p.rpm.useStatus ==> q.status == p.status)
  {
  }

  /** With enough LEDs in the bar, every enabled group gets its own four of them,
      in the order green, red, blue, status. */
  lemma DealGroups(p: Panel, bar: string, k: nat)
    requires |bar| >= 4 * Groups(p.rpm) && k < 4
    ensures var q := Deal(p, bar);
      var m := p.rpm;
      var g := B2I(m.useGreen);
      var r := g + B2I(m.useRed);
      var b := r + B2I(m.useBlue);
      && (m.useGreen ==> |q.rpm.green| == 4 && q.rpm.green[k] == bar[k])
      && (m.useRed ==> |q.rpm.red| == 4 && q.rpm.red[k] == bar[4 * g + k])
      && (m.useBlue ==> |q.rpm.blue| == 4 && q.rpm.blue[k] == bar[4 * r + k])
      && (m.useStatus ==> |q.status| == 4 && q.status[k] == bar[4 * b + k])
  {
  }

  /** Every enabled group holds exactly its four LEDs of the bar. */
  lemma CalcLedsGroups(p: Panel, k: nat)
    requires k < 4
    ensures var q := CalcLedsOf(p);
      var bar := LedBar(4 * Groups(p.rpm), p.rpm.value);
      var g := B2I(p.rpm.useGreen);
      var r := g + B2I(p.rpm.useRed);
      var b := r + B2I(p.rpm.useBlue);
      && (p.rpm.useGreen ==> |q.rpm.green| == 4 && q.rpm.green[k] == bar[k])
      && (p.rpm.useRed ==> |q.rpm.red| == 4 && q.rpm.red[k] == bar[4 * g + k])
      && (p.rpm.useBlue ==> |q.rpm.blue| == 4 && q.rpm.blue[k] == bar[4 * r + k])
      && (p.rpm.useStatus ==> |q.status| == 4 && q.status[k] == bar[4 * b + k])
  {
    DealGroups(p, LedBar(4 * Groups(p.rpm), p.rpm.value), k);
  }

  /** The report `pack_report` builds from a panel whose LEDs are already dealt out. */
  function PackOf(p: Panel): seq<int>
  {
    [0] + DisplayBytes(p.left, 4) + DisplayBytes(p.right, 4)
    + [LedByte(p.rpm.red, p.rpm.green), LedByte(p.status, p.rpm.blue)]
    + DisplayBytes(p.gear, 1) + Zeros(REPORT_SIZE - 12)
  }

  function Zeros(n: nat): (z: seq<int>)
    ensures |z| == n && forall i :: 0 <= i < n ==> z[i] == 0
  {
    seq(n, _ => 0)
  }

  /** The 41-byte layout: report id 0, left digits, right digits, red/green,
      status/blue, gear, then zero padding; every entry is a byte. */
  lemma ReportLayout(p: Panel)
    ensures var r := PackOf(p);
      && |r| == REPORT_SIZE
      && r[0] == 0
      && |DisplayBytes(p.left, 4)| == |DisplayBytes(p.right, 4)| == 4
      && |DisplayBytes(p.gear, 1)| == 1
      && (forall i :: 0 <= i < 4 ==> r[1 + i] == DisplayBytes(p.left, 4)[i])
      && (forall i :: 0 <= i < 4 ==> r[5 + i] == DisplayBytes(p.right, 4)[i])
      && r[9] == LedByte(p.rpm.red, p.rpm.green)
      && r[10] == LedByte(p.status, p.rpm.blue)
      && r[11] == DisplayBytes(p.gear, 1)[0]
      && (forall i :: 12 <= i < REPORT_SIZE ==> r[i] == 0)
  {
    DisplayBytesShape(p.left, 4);
    DisplayBytesShape(p.right, 4);
    DisplayBytesShape(p.gear, 1);
    Layout(DisplayBytes(p.left, 4), DisplayBytes(p.right, 4),
           LedByte(p.rpm.red, p.rpm.green), LedByte(p.status, p.rpm.blue), DisplayBytes(p.gear, 1));
  }

  lemma Layout(l: seq<int>, rt: seq<int>, x: int, y: int, g: seq<int>)
    requires |l| == 4 && |rt| == 4 && |g| == 1
    ensures var r := [0] + l + rt + [x, y] + g + Zeros(REPORT_SIZE - 12);
      && |r| == REPORT_SIZE && r[0] == 0
      && (forall i :: 0 <= i < 4 ==> r[1 + i] == l[i] && r[5 + i] == rt[i])
      && r[9] == x && r[10] == y && r[11] == g[0]
      && (forall i :: 12 <= i < REPORT_SIZE ==> r[i] == 0)
  {
  }

  method Assemble(l: seq<int>, r: seq<int>, x: int, y: int, g: seq<int>) returns (o: seq<int>)
    requires |l| == 4 && |r| == 4 && |g| == 1
    ensures o == [0] + l + r + [x, y] + g + Zeros(REPORT_SIZE - 12)
  {
    o := [0];
    o := o + l;
    o := o + r;
    o := o + [x];
    o := o + [y];
    o := o + g;
    o := o + Zeros(REPORT_SIZE - |o|);
  }

  /** Every entry of a report is a byte. */
  lemma ReportBytes(p: Panel)
    ensures forall i :: 0 <= i < |PackOf(p)| ==> 0 <= PackOf(p)[i] < 256
  {
    ReportLayout(p);
    DisplayBytesShape(p.left, 4);
    DisplayBytesShape(p.right, 4);
    DisplayBytesShape(p.gear, 1);
    LedByteRange(p.rpm.red, p.rpm.green);
    LedByteRange(p.status, p.rpm.blue);
  }

  /** The texts and LED pattern `reset` writes. */
  const DASH: string := "-"
  const DASHES: string := "----"
  const DARK: string := "0000"

  /** The fields `reset` assigns before it sends a report. */
  function ResetOf(p: Panel): Panel
  {
    Panel(DASHES, DASHES, DASH,
          Rpm(DARK, DARK, DARK, p.rpm.useGreen, p.rpm.useRed, p.rpm.useBlue, p.rpm.useStatus, 0.0),
          DARK)
  }

  /** With the value at zero the bar is all dark. */
  lemma DarkBar(n: nat)
    ensures |LedBar(n, 0.0)| == n
    ensures forall i :: 0 <= i < n ==> LedBar(n, 0.0)[i] == '0'
  {
    assert Lit(n, 0.0) == 0;
    assert Repeat('1', 0) == [];
  }

  lemma DarkGroup(x: string)
    requires |x| == 4 && forall k :: 0 <= k < 4 ==> x[k] == '0'
    ensures x == DARK
  {
  }

  /** Dealing out a bar of unlit LEDs leaves every enabled group dark. */
  lemma DealDark(p: Panel, bar: string)
    requires |bar| >= 4 * Groups(p.rpm) && forall i :: 0 <= i < |bar| ==> bar[i] == '0'
    ensures var q := Deal(p, bar);
      && (p.rpm.useGreen ==> q.rpm.green == DARK)
      && (p.rpm.useRed ==> q.rpm.red == DARK)
      && (p.rpm.useBlue ==> q.rpm.blue == DARK)
      && (p.rpm.useStatus ==> q.status == DARK)
  {
    var q := Deal(p, bar);
    forall k | 0 <= k < 4
      ensures p.rpm.useGreen ==> |q.rpm.green| == 4 && q.rpm.green[k] == '0'
      ensures p.rpm.useRed ==> |q.rpm.red| == 4 && q.rpm.red[k] == '0'
      ensures p.rpm.useBlue ==> |q.rpm.blue| == 4 && q.rpm.blue[k] == '0'
      ensures p.rpm.useStatus ==> |q.status| == 4 && q.status[k] == '0'
    {
      DealGroups(p, bar, k);
    }
    if p.rpm.useGreen { DarkGroup(q.rpm.green); }
    if p.rpm.useRed { DarkGroup(q.rpm.red); }
    if p.rpm.useBlue { DarkGroup(q.rpm.blue); }
    if p.rpm.useStatus { DarkGroup(q.status); }
  }

  /** A panel whose LED strings are all dark and whose value is zero stays dark
      through `calc_leds`. */
  lemma DarkLeds(r: Panel)
    requires r.rpm.green == r.rpm.red == r.rpm.blue == r.status == DARK && r.rpm.value == 0.0
    ensures var q := CalcLedsOf(r);
      q.rpm.green == q.rpm.red == q.rpm.blue == q.status == DARK
  {
    var bar := LedBar(4 * Groups(r.rpm), 0.0);
    DarkBar(4 * Groups(r.rpm));
    DealDark(r, bar);
    CalcLedsKeeps(r);
  }

  /** Text without dots and of the exact width is shown character by character. */
  lemma {:induction false} PlainText(s: string)
    requires forall i :: 0 <= i < |s| ==> s[i] != '.'
    ensures Visible(s) == s
    ensures |Encode(s)| == |s| && forall i :: 0 <= i < |s| ==> Encode(s)[i] == Glyph(s[i])
  {
    if s != [] {
      PlainText(s[1..]);
    }
  }

  lemma PlainFits(s: string)
    requires forall i :: 0 <= i < |s| ==> s[i] != '.'
    ensures Fitted(s, |s|) == s
  {
    PlainText(s);
    TruncatedShort(s, |s|);
    assert Repeat(' ', 0) == [];
  }

  /** A text of one repeated character other than a dot is that character's
      glyph in every digit. */
  lemma UniformText(s: string, c: char)
    requires c != '.' && forall i :: 0 <= i < |s| ==> s[i] == c
    ensures |Encode(s)| == |s| && forall i :: 0 <= i < |s| ==> Encode(s)[i] == Glyph(c)
  {
    PlainText(s);
  }

  lemma DashGlyph()
    ensures Glyph('-') == 0x40
  {
  }

  lemma DashField()
    ensures |DisplayBytes(DASHES, 4)| == 4
    ensures forall i :: 0 <= i < 4 ==> DisplayBytes(DASHES, 4)[i] == 0x40
  {
    DashGlyph();
    PlainFits(DASHES);
    UniformText(DASHES, '-');
  }

  lemma DashGear()
    ensures |DisplayBytes(DASH, 1)| == 1 && DisplayBytes(DASH, 1)[0] == 0x40
  {
    DashGlyph();
    PlainFits(DASH);
    PlainText(DASH);
  }

  lemma DarkByte()
    ensures LedByte(DARK, DARK) == 0
  {
    BitsOfLed(DARK);
    assert StringToLed(DARK) == DARK;
    PackNibbles(DARK, DARK);
  }

  /** A panel whose digits all encode to `b` and whose LEDs are dark. */
  lemma FieldsReport(q: Panel, b: int)
    requires |DisplayBytes(q.left, 4)| == 4 && |DisplayBytes(q.right, 4)| == 4
    requires forall i :: 0 <= i < 4 ==> DisplayBytes(q.left, 4)[i] == b && DisplayBytes(q.right, 4)[i] == b
    requires |DisplayBytes(q.gear, 1)| == 1 && DisplayBytes(q.gear, 1)[0] == b
    requires LedByte(q.rpm.red, q.rpm.green) == 0 && LedByte(q.status, q.rpm.blue) == 0
    ensures var r := PackOf(q);
      && (forall i :: 1 <= i < 9 || i == 11 ==> r[i] == b)
      && r[9] == 0 && r[10] == 0
  {
    ReportLayout(q);
  }

  /** After `reset` every LED is dark and every digit shows '-'. */
  lemma ResetShowsDashes(p: Panel)
    ensures var r := PackOf(CalcLedsOf(ResetOf(p)));
      && (forall i :: 1 <= i < 9 || i == 11 ==> r[i] == 0x40)
      && r[9] == 0 && r[10] == 0
  {
    DarkLeds(ResetOf(p));
    DashField();
    DashGear();
    DarkByte();
    FieldsReport(CalcLedsOf(ResetOf(p)), 0x40);
  }

  /** The SRD-9c: the fields the scripts assign, and the last report sent. */
  class Display {
    var left: string
    var right: string
    var gear: string
    var rpm: Rpm
    var status: string
    /** The last output report handed to the HID transport. */
    var report: seq<int>

    function Snapshot(): Panel
      reads this
    {
      Panel.Panel(left, right, gear, rpm, status)
    }

    /** `calc_leds`. */
    method CalcLeds()
      modifies this
      ensures Snapshot() == CalcLedsOf(old(Snapshot()))
      ensures report == old(report)
    {
      var bar := RpmBar();
      DealOut(bar);
    }

    method RpmBar() returns (bar: string)
      ensures bar == LedBar(4 * Groups(rpm), rpm.value)
    {
      var m := rpm;
      var rpmLeds := (B2I(m.useGreen) + B2I(m.useRed) + B2I(m.useBlue) + B2I(m.useStatus)) * 4;
      bar := LedBar(rpmLeds, m.value);
    }

    method DealOut(bar0: string)
      modifies this
      ensures Snapshot() == Deal(old(Snapshot()), bar0)
      ensures report == old(report)
    {
      var m := rpm;
      var bar := bar0;
      var green, red, blue := m.green, m.red, m.blue;
      if m.useGreen {
        green := SliceTo(bar, 4);
        bar := SliceFrom(bar, 4);
      }
      if m.useRed {
        red := SliceTo(bar, 4);
        bar := SliceFrom(bar, 4);
      }
      if m.useBlue {
        blue := SliceTo(bar, 4);
        bar := SliceFrom(bar, 4);
      }
      rpm := Rpm(green, red, blue, m.useGreen, m.useRed, m.useBlue, m.useStatus, m.value);
      if m.useStatus {
        status := SliceTo(bar, 4);
      }
    }

    /** `pack_report`: deals out the LEDs, then lays out the 41 bytes. */
    method PackReport() returns (o: seq<int>)
      modifies this
      ensures Snapshot() == CalcLedsOf(old(Snapshot()))
      ensures report == old(report)
      ensures o == PackOf(Snapshot())
    {
      CalcLeds();
      o := Pack();
    }

    /** The list `pack_report` builds once the LEDs are dealt out. */
    method Pack() returns (o: seq<int>)
      ensures o == PackOf(Snapshot())
    {
      var p := Snapshot();
      var l := StringToDisplay(p.left, 4);
      var r := StringToDisplay(p.right, 4);
      var g := StringToDisplay(p.gear, 1);
      o := Assemble(l, r, LedByte(p.rpm.red, p.rpm.green), LedByte(p.status, p.rpm.blue), g);
    }

    /** `update`: the report is built and becomes the one the device shows. */
    method Update()
      modifies this
      ensures Snapshot() == CalcLedsOf(old(Snapshot()))
      ensures report == PackOf(Snapshot())
    {
      report := PackReport();
    }

    /** `reset`: blanks the fields, then updates. */
    method Reset()
      modifies this
      ensures Snapshot() == CalcLedsOf(ResetOf(old(Snapshot())))
      ensures report == PackOf(Snapshot())
    {
      Blank();
      Update();
    }

    method Blank()
      modifies this
      ensures Snapshot() == ResetOf(old(Snapshot()))
      ensures report == old(report)
    {
      var m := rpm;
      gear, left, right := DASH, DASHES, DASHES;
      rpm := Rpm(DARK, DARK, DARK, m.useGreen, m.useRed, m.useBlue, m.useStatus, 0.0);
      status := DARK;
    }
  }
}
