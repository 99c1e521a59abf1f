/** Constants and unit conversions of the rFactor shared memory block: the
    enumeration tables the dashboard branches on, as values with their raw codes,
    and the linear unit conversions. */
module Rf1 {
  import opened Wrappers

  /** Session phase (`rfGamePhase`). */
  datatype GamePhase = Garage | WarmUp | GridWalk | Formation | Countdown | GreenFlag | FullCourseYellow | SessionStopped | SessionOver

  function GamePhaseCode(e: GamePhase): int
  {
    match e
    case Garage => 0
    case WarmUp => 1
    case GridWalk => 2
    case Formation => 3
    case Countdown => 4
    case GreenFlag => 5
    case FullCourseYellow => 6
    case SessionStopped => 7
    case SessionOver => 8
  }

  /** Reads a raw shared-memory value back as a GamePhase; values outside the table
      have no meaning. */
  function GamePhaseOf(n: int): (e: Option<GamePhase>)
    ensures e.Some? <==> 0 <= n <= 8
  {
    if n == 0 then Some(Garage) else
    if n == 1 then Some(WarmUp) else
    if n == 2 then Some(GridWalk) else
    if n == 3 then Some(Formation) else
    if n == 4 then Some(Countdown) else
    if n == 5 then Some(GreenFlag) else
    if n == 6 then Some(FullCourseYellow) else
    if n == 7 then Some(SessionStopped) else
    if n == 8 then Some(SessionOver) else
    None
  }

  lemma GamePhaseRoundTrip(e: GamePhase, n: int)
    ensures GamePhaseOf(GamePhaseCode(e)) == Some(e)
    ensures GamePhaseOf(n) == Some(e) <==> GamePhaseCode(e) == n
  {
  }

  /** Full-course yellow and pit state (`rfYellowFlagState`). */
  datatype YellowFlagState = FlagInvalid | NoFlag | Pending | PitClosed | PitLeadLap | PitOpen | LastLap | Resume | RaceHalt

  function YellowFlagStateCode(e: YellowFlagState): int
  {
    match e
    case FlagInvalid => -1
    case NoFlag => 0
    case Pending => 1
    case PitClosed => 2
    case PitLeadLap => 3
    case PitOpen => 4
    case LastLap => 5
    case Resume => 6
    case RaceHalt => 7
  }

  /** Reads a raw shared-memory value back as a YellowFlagState; values outside the table
      have no meaning. */
  function YellowFlagStateOf(n: int): (e: Option<YellowFlagState>)
    ensures e.Some? <==> -1 <= n <= 7
  {
    if n == -1 then Some(FlagInvalid) else
    if n == 0 then Some(NoFlag) else
    if n == 1 then Some(Pending) else
    if n == 2 then Some(PitClosed) else
    if n == 3 then Some(PitLeadLap) else
    if n == 4 then Some(PitOpen) else
    if n == 5 then Some(LastLap) else
    if n == 6 then Some(Resume) else
    if n == 7 then Some(RaceHalt) else
    None
  }

  lemma YellowFlagStateRoundTrip(e: YellowFlagState, n: int)
    ensures YellowFlagStateOf(YellowFlagStateCode(e)) == Some(e)
    ensures YellowFlagStateOf(n) == Some(e) <==> YellowFlagStateCode(e) == n
  {
  }

  /** Surface under a wheel (`rfSurfaceType`). */
  datatype SurfaceType = Dry | Wet | Grass | Dirt | Gravel | Kerb

  function SurfaceTypeCode(e: SurfaceType): int
  {
    match e
    case Dry => 0
    case Wet => 1
    case Grass => 2
    case Dirt => 3
    case Gravel => 4
    case Kerb => 5
  }

  /** Reads a raw shared-memory value back as a SurfaceType; values outside the table
      have no meaning. */
  function SurfaceTypeOf(n: int): (e: Option<SurfaceType>)
    ensures e.Some? <==> 0 <= n <= 5
  {
    if n == 0 then Some(Dry) else
    if n == 1 then Some(Wet) else
    if n == 2 then Some(Grass) else
    if n == 3 then Some(Dirt) else
    if n == 4 then Some(Gravel) else
    if n == 5 then Some(Kerb) else
    None
  }

  lemma SurfaceTypeRoundTrip(e: SurfaceType, n: int)
    ensures SurfaceTypeOf(SurfaceTypeCode(e)) == Some(e)
    ensures SurfaceTypeOf(n) == Some(e) <==> SurfaceTypeCode(e) == n
  {
  }

  /** Track sector (`rfSector`): the third sector has code 0. */
  datatype Sector = Sector3 | Sector1 | Sector2

  function SectorCode(e: Sector): int
  {
    match e
    case Sector3 => 0
    case Sector1 => 1
    case Sector2 => 2
  }

  /** Reads a raw shared-memory value back as a Sector; values outside the table
      have no meaning. */
  function SectorOf(n: int): (e: Option<Sector>)
    ensures e.Some? <==> 0 <= n <= 2
  {
    if n == 0 then Some(Sector3) else
    if n == 1 then Some(Sector1) else
    if n == 2 then Some(Sector2) else
    None
  }

  lemma SectorRoundTrip(e: Sector, n: int)
    ensures SectorOf(SectorCode(e)) == Some(e)
    ensures SectorOf(n) == Some(e) <==> SectorCode(e) == n
  {
  }

  /** Finishing state of a vehicle (`rfFinishStatus`). */
  datatype FinishStatus = FinishNone | Finished | Dnf | Dq

  function FinishStatusCode(e: FinishStatus): int
  {
    match e
    case FinishNone => 0
    case Finished => 1
    case Dnf => 2
    case Dq => 3
  }

  /** Reads a raw shared-memory value back as a FinishStatus; values outside the table
      have no meaning. */
  function FinishStatusOf(n: int): (e: Option<FinishStatus>)
    ensures e.Some? <==> 0 <= n <= 3
  {
    if n == 0 then Some(FinishNone) else
    if n == 1 then Some(Finished) else
    if n == 2 then Some(Dnf) else
    if n == 3 then Some(Dq) else
    None
  }

  lemma FinishStatusRoundTrip(e: FinishStatus, n: int)
    ensures FinishStatusOf(FinishStatusCode(e)) == Some(e)
    ensures FinishStatusOf(n) == Some(e) <==> FinishStatusCode(e) == n
  {
  }

  /** Who controls a vehicle (`rfControl`). */
  datatype Control = Nobody | Player | Ai | Remote | Replay

  function ControlCode(e: Control): int
  {
    match e
    case Nobody => -1
    case Player => 0
    case Ai => 1
    case Remote => 2
    case Replay => 3
  }

  /** Reads a raw shared-memory value back as a Control; values outside the table
      have no meaning. */
  function ControlOf(n: int): (e: Option<Control>)
    ensures e.Some? <==> -1 <= n <= 3
  {
    if n == -1 then Some(Nobody) else
    if n == 0 then Some(Player) else
    if n == 1 then Some(Ai) else
    if n == 2 then Some(Remote) else
    if n == 3 then Some(Replay) else
    None
  }

  lemma ControlRoundTrip(e: Control, n: int)
    ensures ControlOf(ControlCode(e)) == Some(e)
    ensures ControlOf(n) == Some(e) <==> ControlCode(e) == n
  {
  }

  /** Position of a wheel in the wheel array (`rfWheelIndex`). */
  datatype WheelIndex = FrontLeft | FrontRight | RearLeft | RearRight

  function WheelIndexCode(e: WheelIndex): int
  {
    match e
    case FrontLeft => 0
    case FrontRight => 1
    case RearLeft => 2
    case RearRight => 3
  }

  /** Reads a raw shared-memory value back as a WheelIndex; values outside the table
      have no meaning. */
  function WheelIndexOf(n: int): (e: Option<WheelIndex>)
    ensures e.Some? <==> 0 <= n <= 3
  {
    if n == 0 then Some(FrontLeft) else
    if n == 1 then Some(FrontRight) else
    if n == 2 then Some(RearLeft) else
    if n == 3 then Some(RearRight) else
    None
  }

  lemma WheelIndexRoundTrip(e: WheelIndex, n: int)
    ensures WheelIndexOf(WheelIndexCode(e)) == Some(e)
    ensures WheelIndexOf(n) == Some(e) <==> WheelIndexCode(e) == n
  {
  }

  /** The sector a car enters next on a lap. */
  function NextSector(s: Sector): Sector
  {
    match s
    case Sector1 => Sector2
    case Sector2 => Sector3
    case Sector3 => Sector1
  }

  /** Going round a lap the raw sector codes run 1, 2, 0 and back to 1, so the code 0
      (not 3) marks the last sector and code 1 is where a new lap starts. */
  lemma LapOrder(s: Sector)
    ensures SectorCode(NextSector(s)) == (SectorCode(s) + 1) % 3
    ensures NextSector(NextSector(NextSector(s))) == s
    ensures SectorCode(s) == 0 <==> NextSector(s) == Sector1
  {
  }

  /** The shared block reports sector 2 times cumulatively (sector 1 included); the
      time spent in sector 2 alone is the difference. */
  function Sector2Alone(sector1: real, sector2Cumulative: real): real
  {
    sector2Cumulative - sector1
  }

  lemma Sector2AloneAdds(sector1: real, sector2Cumulative: real)
    ensures sector1 + Sector2Alone(sector1, sector2Cumulative) == sector2Cumulative
  {
  }

  /** `mps_to_mph`. */
  function MpsToMph(m: real): real { m * 2.23694 }

  /** `mps_to_kph`. */
  function MpsToKph(m: real): real { m * 3.6 }

  /** `kpa_to_psi`. */
  function KpaToPsi(k: real): real { k * 0.145038 }

  /** `c_to_f`. */
  function CToF(c: real): real { c * 1.8 + 32.0 }

  /** `l_to_g`: litres to US gallons. */
  function LToG(l: real): real { l * 0.264172 }

  /** The scalings are linear: they map zero to zero, preserve order and
      distribute over sums. */
  lemma ScalingsLinear(a: real, b: real)
    ensures MpsToMph(0.0) == MpsToKph(0.0) == KpaToPsi(0.0) == LToG(0.0) == 0.0
    ensures MpsToMph(a + b) == MpsToMph(a) + MpsToMph(b)
    ensures MpsToKph(a + b) == MpsToKph(a) + MpsToKph(b)
    ensures KpaToPsi(a + b) == KpaToPsi(a) + KpaToPsi(b)
    ensures LToG(a + b) == LToG(a) + LToG(b)
    ensures a <= b ==> MpsToMph(a) <= MpsToMph(b) && MpsToKph(a) <= MpsToKph(b)
    ensures a <= b ==> KpaToPsi(a) <= KpaToPsi(b) && LToG(a) <= LToG(b)
  {
  }

  /** Celsius to Fahrenheit is affine: water freezes at 32 and boils at 212, and
      every degree Celsius is 1.8 degrees Fahrenheit. */
  lemma CToFAffine(a: real, b: real)
    ensures CToF(0.0) == 32.0 && CToF(100.0) == 212.0
    ensures CToF(a) - CToF(b) == 1.8 * (a - b)
    ensures a <= b ==> CToF(a) <= CToF(b)
  {
  }
}
