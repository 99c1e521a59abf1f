/** Constants and unit conversions of the RaceRoom Racing Experience shared
    memory block: the enumeration tables the dashboard branches on, as values
    with their raw codes, and the linear unit conversions. */
module R3e {
  import opened Wrappers

  /** Session kind (`r3e_session`). */
  datatype Session = SessionUnavailable | Practice | Qualify | Race

  function SessionCode(e: Session): int
  {
    match e
    case SessionUnavailable => -1
    case Practice => 0
    case Qualify => 1
    case Race => 2
  }

  /** Reads a raw shared-memory value back as a Session; values outside the table
      have no meaning. */
  function SessionOf(n: int): (e: Option<Session>)
    ensures e.Some? <==> -1 <= n <= 2
  {
    if n == -1 then Some(SessionUnavailable) else
    if n == 0 then Some(Practice) else
    if n == 1 then Some(Qualify) else
    if n == 2 then Some(Race) else
    None
  }

  lemma SessionRoundTrip(e: Session, n: int)
    ensures SessionOf(SessionCode(e)) == Some(e)
    ensures SessionOf(n) == Some(e) <==> SessionCode(e) == n
  {
  }

  /** Session phase (`r3e_session_phase`); the table has no entry for 1. */
  datatype SessionPhase = PhaseUnavailable | Garage | Gridwalk | Formation | Countdown | Green | Checkered | Terminated

  function SessionPhaseCode(e: SessionPhase): int
  {
    match e
    case PhaseUnavailable => -1
    case Garage => 0
    case Gridwalk => 2
    case Formation => 3
    case Countdown => 4
    case Green => 5
    case Checkered => 6
    case Terminated => 7
  }

  /** Reads a raw shared-memory value back as a SessionPhase; values outside the table
      have no meaning. */
  function SessionPhaseOf(n: int): (e: Option<SessionPhase>)
    ensures e.Some? <==> -1 <= n <= 7 && n != 1
  {
    if n == -1 then Some(PhaseUnavailable) else
    if n == 0 then Some(Garage) else
    if n == 2 then Some(Gridwalk) else
    if n == 3 then Some(Formation) else
    if n == 4 then Some(Countdown) else
    if n == 5 then Some(Green) else
    if n == 6 then Some(Checkered) else
    if n == 7 then Some(Terminated) else
    None
  }

  lemma SessionPhaseRoundTrip(e: SessionPhase, n: int)
    ensures SessionPhaseOf(SessionPhaseCode(e)) == Some(e)
    ensures SessionPhaseOf(n) == Some(e) <==> SessionPhaseCode(e) == n
  {
  }

  /** Who controls a car (`r3e_control`). */
  datatype Control = ControlUnavailable | Player | Ai | Remote | Replay

  function ControlCode(e: Control): int
  {
    match e
    case ControlUnavailable => -1
    case Player => 0
    case Ai => 1
    case Remote => 2
    case Replay => 3
  }

  /** Reads a raw shared-memory value back as a Control; values outside the table
      have no meaning. */
  function ControlOf(n: int): (e: Option<Control>)
    ensures e.Some? <==> -1 <= n <= 3
  {
    if n == -1 then Some(ControlUnavailable) else
    if n == 0 then Some(Player) else
    if n == 1 then Some(Ai) else
    if n == 2 then Some(Remote) else
    if n == 3 then Some(Replay) else
    None
  }

  lemma ControlRoundTrip(e: Control, n: int)
    ensures ControlOf(ControlCode(e)) == Some(e)
    ensures ControlOf(n) == Some(e) <==> ControlCode(e) == n
  {
  }

  /** Pit window state (`r3e_pit_window`). */
  datatype PitWindow = PitUnavailable | PitDisabled | PitClosed | PitOpen | PitStopped | PitCompleted

  function PitWindowCode(e: PitWindow): int
  {
    match e
    case PitUnavailable => -1
    case PitDisabled => 0
    case PitClosed => 1
    case PitOpen => 2
    case PitStopped => 3
    case PitCompleted => 4
  }

  /** Reads a raw shared-memory value back as a PitWindow; values outside the table
      have no meaning. */
  function PitWindowOf(n: int): (e: Option<PitWindow>)
    ensures e.Some? <==> -1 <= n <= 4
  {
    if n == -1 then Some(PitUnavailable) else
    if n == 0 then Some(PitDisabled) else
    if n == 1 then Some(PitClosed) else
    if n == 2 then Some(PitOpen) else
    if n == 3 then Some(PitStopped) else
    if n == 4 then Some(PitCompleted) else
    None
  }

  lemma PitWindowRoundTrip(e: PitWindow, n: int)
    ensures PitWindowOf(PitWindowCode(e)) == Some(e)
    ensures PitWindowOf(n) == Some(e) <==> PitWindowCode(e) == n
  {
  }

  /** Tire compound (`r3e_tire_type`). */
  datatype TireType = TireUnavailable | TireOption | TirePrime

  function TireTypeCode(e: TireType): int
  {
    match e
    case TireUnavailable => -1
    case TireOption => 0
    case TirePrime => 1
  }

  /** Reads a raw shared-memory value back as a TireType; values outside the table
      have no meaning. */
  function TireTypeOf(n: int): (e: Option<TireType>)
    ensures e.Some? <==> -1 <= n <= 1
  {
    if n == -1 then Some(TireUnavailable) else
    if n == 0 then Some(TireOption) else
    if n == 1 then Some(TirePrime) else
    None
  }

  lemma TireTypeRoundTrip(e: TireType, n: int)
    ensures TireTypeOf(TireTypeCode(e)) == Some(e)
    ensures TireTypeOf(n) == Some(e) <==> TireTypeCode(e) == n
  {
  }

  /** Whether a pit stop was served (`r3e_pitstop_status`). */
  datatype PitstopStatus = PitstopUnavailable | Unserved | Served

  function PitstopStatusCode(e: PitstopStatus): int
  {
    match e
    case PitstopUnavailable => -1
    case Unserved => 0
    case Served => 1
  }

  /** Reads a raw shared-memory value back as a PitstopStatus; values outside the table
      have no meaning. */
  function PitstopStatusOf(n: int): (e: Option<PitstopStatus>)
    ensures e.Some? <==> -1 <= n <= 1
  {
    if n == -1 then Some(PitstopUnavailable) else
    if n == 0 then Some(Unserved) else
    if n == 1 then Some(Served) else
    None
  }

  lemma PitstopStatusRoundTrip(e: PitstopStatus, n: int)
    ensures PitstopStatusOf(PitstopStatusCode(e)) == Some(e)
    ensures PitstopStatusOf(n) == Some(e) <==> PitstopStatusCode(e) == n
  {
  }

  /** Finishing state of a driver (`r3e_finish_status`). */
  datatype FinishStatus = FinishUnavailable | FinishNone | Finished | Dnf | Dnq | Dns | Dq

  function FinishStatusCode(e: FinishStatus): int
  {
    match e
    case FinishUnavailable => -1
    case FinishNone => 0
    case Finished => 1
    case Dnf => 2
    case Dnq => 3
    case Dns => 4
    case Dq => 5
  }

  /** Reads a raw shared-memory value back as a FinishStatus; values outside the table
      have no meaning. */
  function FinishStatusOf(n: int): (e: Option<FinishStatus>)
    ensures e.Some? <==> -1 <= n <= 5
  {
    if n == -1 then Some(FinishUnavailable) else
    if n == 0 then Some(FinishNone) else
    if n == 1 then Some(Finished) else
    if n == 2 then Some(Dnf) else
    if n == 3 then Some(Dnq) else
    if n == 4 then Some(Dns) else
    if n == 5 then Some(Dq) else
    None
  }

  lemma FinishStatusRoundTrip(e: FinishStatus, n: int)
    ensures FinishStatusOf(FinishStatusCode(e)) == Some(e)
    ensures FinishStatusOf(n) == Some(e) <==> FinishStatusCode(e) == n
  {
  }

  /** `rps_to_rpm`: engine speed from radians per second to revolutions per minute. */
  function RpsToRpm(r: real): real { r * 9.549296596 }

  /** `mps_to_mph`. */
  function MpsToMph(m: real): real { m * 2.23694 }

  /** `mps_to_kph`. */
  function MpsToKph(m: real): real { m * 3.6 }

  /** `kpa_to_psi`. */
  function KpaToPsi(k: real): real { k * 0.145038 }

  /** `c_to_f`. */
  function CToF(c: real): real { c * 1.8 + 32.0 }

  /** `l_to_g`: litres to US gallons. */
  function LToG(l: real): real { l * 0.264172 }

  /** The scalings are linear: they map zero to zero, preserve order and
      distribute over sums. */
  lemma ScalingsLinear(a: real, b: real)
    ensures RpsToRpm(0.0) == MpsToMph(0.0) == MpsToKph(0.0) == KpaToPsi(0.0) == LToG(0.0) == 0.0
    ensures RpsToRpm(a + b) == RpsToRpm(a) + RpsToRpm(b)
    ensures MpsToMph(a + b) == MpsToMph(a) + MpsToMph(b)
    ensures MpsToKph(a + b) == MpsToKph(a) + MpsToKph(b)
    ensures KpaToPsi(a + b) == KpaToPsi(a) + KpaToPsi(b)
    ensures LToG(a + b) == LToG(a) + LToG(b)
    ensures a <= b ==> RpsToRpm(a) <= RpsToRpm(b) && MpsToMph(a) <= MpsToMph(b)
    ensures a <= b ==> MpsToKph(a) <= MpsToKph(b) && KpaToPsi(a) <= KpaToPsi(b) && LToG(a) <= LToG(b)
  {
  }

  /** Celsius to Fahrenheit is affine: water freezes at 32 and boils at 212, and
      every degree Celsius is 1.8 degrees Fahrenheit. */
  lemma CToFAffine(a: real, b: real)
    ensures CToF(0.0) == 32.0 && CToF(100.0) == 212.0
    ensures CToF(a) - CToF(b) == 1.8 * (a - b)
    ensures a <= b ==> CToF(a) <= CToF(b)
  {
  }

  // ---------------------------------------------------------------------------
  // The shared-memory block, reduced to what the dashboard loops read

  /** A `c_float * 3` array of the block: one time per sector. */
  type Sectors = s: seq<real> | |s| == 3 witness [0.0, 0.0, 0.0]

  /** The `push_to_pass` record. */
  datatype PushToPass = PushToPass(
    available: int, engaged: int, amountLeft: int,
    engagedTimeLeft: real, waitTimeLeft: real)

  /** One entry of `all_drivers_data_1`, reduced to its slot, its sector and its
      sector times (sector 2 times are cumulative: they include sector 1). */
  datatype DriverData = DriverData(
    slotId: int, trackSector: int,
    sectorCurrent: Sectors, sectorPrevious: Sectors, sectorBest: Sectors)

  /** The `r3e_shared` block. */
  datatype Shared = Shared(
    engineRps: real, maxEngineRps: real, gear: int, carSpeed: real,
    lapTimeCurrentSelf: real, lapTimePreviousSelf: real,
    lapTimeBestSelf: real, lapTimeBestLeader: real,
    position: int, numCars: int, completedLaps: int, numberOfLaps: int,
    sessionTimeRemaining: real,
    slotId: int, drivers: seq<DriverData>, sessionBestSectors: Sectors,
    fuelUseActive: int, fuelLeft: real, fuelCapacity: real, engineWaterTemp: real,
    pitWindowStatus: int, pitLimiter: int, drsEngaged: int, ptp: PushToPass)
}
