/** Python string and number helpers that the dashboard scripts lean on:
    `c * n`, `rjust`, `ljust`, `int()` of a float and `str()` of an int. */
module Text {
  import opened Wrappers

  /** `c * n` in Python: `n` copies of `c`, and the empty string when `n <= 0`. */
  function Repeat(c: char, n: int): (r: string)
    ensures |r| == if n <= 0 then 0 else n
    ensures forall i :: 0 <= i < |r| ==> r[i] == c
  {
    seq(if n <= 0 then 0 else n, _ => c)
  }

  /** `s.rjust(w, c)`: pads on the left up to width `w`, never truncates. */
  function RJust(s: string, w: int, c: char): (r: string)
    ensures |s| >= w ==> r == s
    ensures |s| < w ==> |r| == w && r[w - |s|..] == s
    ensures forall i :: 0 <= i < |r| - |s| ==> r[i] == c
  {
    if |s| >= w then s else Repeat(c, w - |s|) + s
  }

  /** Position `i` of a right-justified string: padding first, then `s`. */
  lemma RJustAt(s: string, w: int, c: char, i: nat)
    requires |s| <= w && i < w
    ensures RJust(s, w, c)[i] == if i < w - |s| then c else s[i - (w - |s|)]
  {
  }

  /** `s.ljust(w, c)`: pads on the right up to width `w`, never truncates. */
  function LJust(s: string, w: int, c: char): (r: string)
    ensures |s| >= w ==> r == s
    ensures |s| < w ==> |r| == w && r[..|s|] == s
    ensures forall i :: |s| <= i < |r| ==> r[i] == c
  {
    if |s| >= w then s else s + Repeat(c, w - |s|)
  }

  /** `s[:n]` in Python: the first `n` characters, or all of `s` when it is shorter. */
  function SliceTo(s: string, n: nat): (r: string)
    ensures |r| == if |s| <= n then |s| else n
    ensures forall i :: 0 <= i < |r| ==> r[i] == s[i]
  {
    if |s| <= n then s else s[..n]
  }

  /** `s[n:]` in Python: what follows the first `n` characters, possibly nothing. */
  function SliceFrom(s: string, n: nat): (r: string)
    ensures |r| == if |s| <= n then 0 else |s| - n
    ensures forall i :: 0 <= i < |r| ==> r[i] == s[n + i]
  {
    if |s| <= n then [] else s[n..]
  }

  /** ASCII upper-casing, as `str.upper()` does for the characters the scripts emit. */
  function Upper(c: char): char
  {
    match c
    case 'a' => 'A'
    case 'b' => 'B'
    case 'c' => 'C'
    case 'd' => 'D'
    case 'e' => 'E'
    case 'f' => 'F'
    case 'g' => 'G'
    case 'h' => 'H'
    case 'i' => 'I'
    case 'j' => 'J'
    case 'k' => 'K'
    case 'l' => 'L'
    case 'm' => 'M'
    case 'n' => 'N'
    case 'o' => 'O'
    case 'p' => 'P'
    case 'q' => 'Q'
    case 'r' => 'R'
    case 's' => 'S'
    case 't' => 'T'
    case 'u' => 'U'
    case 'v' => 'V'
    case 'w' => 'W'
    case 'x' => 'X'
    case 'y' => 'Y'
    case 'z' => 'Z'
    case _ => c
  }

  /** Upper-casing is idempotent, and changes nothing but the lower-case letters. */
  lemma UpperLetters(c: char)
    ensures Upper(Upper(c)) == Upper(c)
    ensures Upper(c) != c ==> 'a' <= c <= 'z'
  {
  }

  /** ASCII lower-casing, as `str.lower()` does on a byte string. */
  function Lower(c: char): char
  {
    match c
    case 'A' => 'a'
    case 'B' => 'b'
    case 'C' => 'c'
    case 'D' => 'd'
    case 'E' => 'e'
    case 'F' => 'f'
    case 'G' => 'g'
    case 'H' => 'h'
    case 'I' => 'i'
    case 'J' => 'j'
    case 'K' => 'k'
    case 'L' => 'l'
    case 'M' => 'm'
    case 'N' => 'n'
    case 'O' => 'o'
    case 'P' => 'p'
    case 'Q' => 'q'
    case 'R' => 'r'
    case 'S' => 's'
    case 'T' => 't'
    case 'U' => 'u'
    case 'V' => 'v'
    case 'W' => 'w'
    case 'X' => 'x'
    case 'Y' => 'y'
    case 'Z' => 'z'
    case _ => c
  }

  /** Lower-casing is idempotent, and changes nothing but the upper-case letters. */
  lemma LowerLetters(c: char)
    ensures Lower(Lower(c)) == Lower(c)
    ensures Lower(c) != c ==> 'A' <= c <= 'Z'
  {
  }

  /** `s.lower()` on a byte string: ASCII letters only. */
  function LowerString(s: string): (r: string)
    ensures |r| == |s| && forall i :: 0 <= i < |s| ==> r[i] == Lower(s[i])
  {
    seq(|s|, i requires 0 <= i < |s| => Lower(s[i]))
  }

  /** Python's `int(x)` for a float: truncation toward zero. */
  function Trunc(x: real): (n: int)
    ensures x >= 0.0 ==> n as real <= x < n as real + 1.0
    ensures x < 0.0 ==> n as real - 1.0 < x <= n as real
  {
    if x >= 0.0 then x.Floor else -((-x).Floor)
  }

  function DigitChar(d: nat): char
    requires d < 10
  {
    ('0' as int + d) as char
  }

  predicate IsDigit(c: char) {
    '0' <= c <= '9'
  }

  predicate AllDigits(s: string) {
    forall i :: 0 <= i < |s| ==> IsDigit(s[i])
  }

  function DigitValue(c: char): nat
    requires IsDigit(c)
  {
    c as int - '0' as int
  }

  /** Decimal digits of a natural number, most significant first, no leading zeros. */
  function NatToString(n: nat): (s: string)
    ensures |s| >= 1 && AllDigits(s)
    ensures |s| > 1 ==> s[0] != '0'
  {
    if n < 10 then [DigitChar(n)] else NatToString(n / 10) + [DigitChar(n % 10)]
  }

  /** `str(n)` for a Python int. */
  function IntToString(n: int): string {
    if n < 0 then "-" + NatToString(-n) else NatToString(n)
  }

  /** Reads back a string of decimal digits. */
  function DigitsValue(s: string): nat
    requires AllDigits(s)
  {
    if s == [] then 0 else 10 * DigitsValue(s[..|s| - 1]) + DigitValue(s[|s| - 1])
  }

  /** The inverse of `IntToString`. */
  function ParseInt(s: string): Option<int>
  {
    if |s| >= 2 && s[0] == '-' && AllDigits(s[1..]) then
      Some(-(DigitsValue(s[1..]) as int))
    else if |s| >= 1 && AllDigits(s) then
      Some(DigitsValue(s) as int)
    else None
  }

  lemma {:induction false} NatToStringRoundTrip(n: nat)
    ensures DigitsValue(NatToString(n)) == n
  {
    if n >= 10 {
      var s, t := NatToString(n), NatToString(n / 10);
      assert s == t + [DigitChar(n % 10)];
      assert s[..|s| - 1] == t;
      NatToStringRoundTrip(n / 10);
    }
  }

  lemma ParseDigits(t: string)
    requires |t| >= 1 && AllDigits(t)
    ensures ParseInt(t) == Some(DigitsValue(t) as int)
    ensures ParseInt("-" + t) == Some(-(DigitsValue(t) as int))
  {
    assert IsDigit(t[0]);
    assert ("-" + t)[1..] == t;
  }

  /** `str()` of an int reads back as the same int. */
  lemma IntToStringRoundTrip(n: int)
    ensures ParseInt(IntToString(n)) == Some(n)
  {
    var m: nat := if n < 0 then -n else n;
    NatToStringRoundTrip(m);
    ParseDigits(NatToString(m));
  }
}
