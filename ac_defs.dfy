/** Constants and unit conversions of the Assetto Corsa shared memory blocks: the
    enumeration tables, as values with their raw codes, and the unit conversions. */
module Ac {
  import opened Wrappers

  /** Simulator state (`acStatus`). */
  datatype Status = Off | Replay | Live | Pause

  function StatusCode(e: Status): int
  {
    match e
    case Off => 0
    case Replay => 1
    case Live => 2
    case Pause => 3
  }

  /** Reads a raw shared-memory value back as a Status; values outside the table
      have no meaning. */
  function StatusOf(n: int): (e: Option<Status>)
    ensures e.Some? <==> 0 <= n <= 3
  {
    if n == 0 then Some(Off) else
    if n == 1 then Some(Replay) else
    if n == 2 then Some(Live) else
    if n == 3 then Some(Pause) else
    None
  }

  lemma StatusRoundTrip(e: Status, n: int)
    ensures StatusOf(StatusCode(e)) == Some(e)
    ensures StatusOf(n) == Some(e) <==> StatusCode(e) == n
  {
  }

  /** Session kind (`acSession`). */
  datatype Session = Unknown | Practice | Qualify | Race | Hotlap | TimeAttack | Drift | Drag

  function SessionCode(e: Session): int
  {
    match e
    case Unknown => -1
    case Practice => 0
    case Qualify => 1
    case Race => 2
    case Hotlap => 3
    case TimeAttack => 4
    case Drift => 5
    case Drag => 6
  }

  /** Reads a raw shared-memory value back as a Session; values outside the table
      have no meaning. */
  function SessionOf(n: int): (e: Option<Session>)
    ensures e.Some? <==> -1 <= n <= 6
  {
    if n == -1 then Some(Unknown) else
    if n == 0 then Some(Practice) else
    if n == 1 then Some(Qualify) else
    if n == 2 then Some(Race) else
    if n == 3 then Some(Hotlap) else
    if n == 4 then Some(TimeAttack) else
    if n == 5 then Some(Drift) else
    if n == 6 then Some(Drag) else
    None
  }

  lemma SessionRoundTrip(e: Session, n: int)
    ensures SessionOf(SessionCode(e)) == Some(e)
    ensures SessionOf(n) == Some(e) <==> SessionCode(e) == n
  {
  }

  /** Flag shown to the driver (`acFlag`). */
  datatype Flag = NoFlag | Blue | Yellow | Black | White | Checkered | Penalty

  function FlagCode(e: Flag): int
  {
    match e
    case NoFlag => 0
    case Blue => 1
    case Yellow => 2
    case Black => 3
    case White => 4
    case Checkered => 5
    case Penalty => 6
  }

  /** Reads a raw shared-memory value back as a Flag; values outside the table
      have no meaning. */
  function FlagOf(n: int): (e: Option<Flag>)
    ensures e.Some? <==> 0 <= n <= 6
  {
    if n == 0 then Some(NoFlag) else
    if n == 1 then Some(Blue) else
    if n == 2 then Some(Yellow) else
    if n == 3 then Some(Black) else
    if n == 4 then Some(White) else
    if n == 5 then Some(Checkered) else
    if n == 6 then Some(Penalty) else
    None
  }

  lemma FlagRoundTrip(e: Flag, n: int)
    ensures FlagOf(FlagCode(e)) == Some(e)
    ensures FlagOf(n) == Some(e) <==> FlagCode(e) == n
  {
  }

  /** `kph_to_mph` as written: it multiplies by 1.60934, the number of kilometres in
      a mile, so the result is larger than its argument for positive speeds. */
  function KphToMph(m: real): real { m * 1.60934 }

  /** `mps_to_kph`. */
  function MpsToKph(m: real): real { m * 3.6 }

  /** `kpa_to_psi`. */
  function KpaToPsi(k: real): real { k * 0.145038 }

  /** `c_to_f`. */
  function CToF(c: real): real { c * 1.8 + 32.0 }

  /** `l_to_g`: litres to US gallons. */
  function LToG(l: real): real { l * 0.264172 }

  /** The scalings are linear: they map zero to zero, preserve order and
      distribute over sums. */
  lemma ScalingsLinear(a: real, b: real)
    ensures KphToMph(0.0) == MpsToKph(0.0) == KpaToPsi(0.0) == LToG(0.0) == 0.0
    ensures KphToMph(a + b) == KphToMph(a) + KphToMph(b)
    ensures MpsToKph(a + b) == MpsToKph(a) + MpsToKph(b)
    ensures KpaToPsi(a + b) == KpaToPsi(a) + KpaToPsi(b)
    ensures LToG(a + b) == LToG(a) + LToG(b)
    ensures a <= b ==> KphToMph(a) <= KphToMph(b) && MpsToKph(a) <= MpsToKph(b)
    ensures a <= b ==> KpaToPsi(a) <= KpaToPsi(b) && LToG(a) <= LToG(b)
  {
  }

  /** What `kph_to_mph` computes: a positive speed grows instead of shrinking. */
  lemma KphToMphGrows(m: real)
    requires m > 0.0
    ensures KphToMph(m) > m
  {
  }

  /** Celsius to Fahrenheit is affine: water freezes at 32 and boils at 212, and
      every degree Celsius is 1.8 degrees Fahrenheit. */
  lemma CToFAffine(a: real, b: real)
    ensures CToF(0.0) == 32.0 && CToF(100.0) == 212.0
    ensures CToF(a) - CToF(b) == 1.8 * (a - b)
    ensures a <= b ==> CToF(a) <= CToF(b)
  {
  }
}
