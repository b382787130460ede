/**
 * The enumerations of ivao_tracker/model/constants.py, with Python's `Enum(value)` lookup as a
 * partial parse function, plus the airport-fix provenance and the airport field map that
 * service/airport.py and service/ivao.py import but the shown constants file does not declare.
 */
module Constants {
  import opened Wrappers

  // ---------------------------------------------------------------------------------------------
  // Flight phases
  // ---------------------------------------------------------------------------------------------

  datatype State = Boarding | Departing | InitialClimb | EnRoute | Approach | Landed | OnBlocks

  /** The string value of each member, as the feed reports it. */
  function StateValue(s: State): string
  {
    match s
    case Boarding => "Boarding"
    case Departing => "Departing"
    case InitialClimb => "Initial Climb"
    case EnRoute => "En Route"
    case Approach => "Approach"
    case Landed => "Landed"
    case OnBlocks => "On Blocks"
  }

  /** `State(v)`: the member whose value is `v`; None where Python raises ValueError. */
  function ParseState(v: string): (r: Option<State>)
    ensures r.Some? ==> StateValue(r.value) == v
    ensures r.None? <==> forall s: State :: StateValue(s) != v
  {
    if v == "Boarding" then Some(Boarding)
    else if v == "Departing" then Some(Departing)
    else if v == "Initial Climb" then Some(InitialClimb)
    else if v == "En Route" then Some(EnRoute)
    else if v == "Approach" then Some(Approach)
    else if v == "Landed" then Some(Landed)
    else if v == "On Blocks" then Some(OnBlocks)
    else None
  }

  /** The members in declaration order, which is also the order of a flight. */
  const Phases: seq<State> := [Boarding, Departing, InitialClimb, EnRoute, Approach, Landed, OnBlocks]

  /** Position of a phase in the flight order. */
  function PhaseIndex(s: State): (i: nat)
    ensures i < |Phases| && Phases[i] == s
  {
    match s
    case Boarding => 0
    case Departing => 1
    case InitialClimb => 2
    case EnRoute => 3
    case Approach => 4
    case Landed => 5
    case OnBlocks => 6
  }

  // ---------------------------------------------------------------------------------------------
  // Transponder modes and wake turbulence categories
  // ---------------------------------------------------------------------------------------------

  datatype TransponderMode = N | S | Y

  function TransponderModeValue(m: TransponderMode): string
  {
    match m
    case N => "N"
    case S => "S"
    case Y => "Y"
  }

  /** `TransponderMode(v)`: accepts exactly "N", "S" and "Y". */
  function ParseTransponderMode(v: string): (r: Option<TransponderMode>)
    ensures r.Some? <==> v == "N" || v == "S" || v == "Y"
    ensures r.Some? ==> TransponderModeValue(r.value) == v
  {
    if v == "N" then Some(N)
    else if v == "S" then Some(S)
    else if v == "Y" then Some(Y)
    else None
  }

  datatype WakeTurbulence = H | J | L | M

  function WakeTurbulenceValue(w: WakeTurbulence): string
  {
    match w
    case H => "H"
    case J => "J"
    case L => "L"
    case M => "M"
  }

  /** `WakeTurbulence(v)`: accepts exactly "H", "J", "L" and "M". */
  function ParseWakeTurbulence(v: string): (r: Option<WakeTurbulence>)
    ensures r.Some? <==> v == "H" || v == "J" || v == "L" || v == "M"
    ensures r.Some? ==> WakeTurbulenceValue(r.value) == v
  {
    if v == "H" then Some(H)
    else if v == "J" then Some(J)
    else if v == "L" then Some(L)
    else if v == "M" then Some(M)
    else None
  }

  // ---------------------------------------------------------------------------------------------
  // Names used by the services but declared outside the shown constants file
  // ---------------------------------------------------------------------------------------------

  /** How an airport's canonical code was obtained: one member per resolver tier that may rewrite it. */
  datatype FixOrigin = GpsCode | LocalCode | CustomMapping | Keywords | Dummy

  /**
   * The pairs of `airport_field_map`: a flight plan's raw airport identifier and the field that
   * receives the resolved airport. The order is the dictionary's iteration order, which decides the
   * order in which the resolver is called.
   */
  datatype AirportField = Departure | Arrival | Alternative | Alternative2

  const AirportFieldMap: seq<AirportField> := [Departure, Arrival, Alternative, Alternative2]
}
