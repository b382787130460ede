/**
 * The records the core works on: the decoded feed (model/json.py) and the stored entities
 * (model/sql.py, plus the Airport table, which is not among the shown schema files and is
 * reconstructed from the columns service/airport.py reads and writes).
 * Datetimes are integer microseconds; float coordinates and geometry text are not modelled.
 */
module Records {
  import opened Wrappers
  import opened Constants

  /** A datetime, in microseconds. */
  type Time = int

  /** `timedelta(minutes=1)` in microseconds. */
  const OneMinute: int := 60_000_000

  // ---------------------------------------------------------------------------------------------
  // Decoded feed (whazzup snapshot)
  // ---------------------------------------------------------------------------------------------

  datatype JsonAircraft = JsonAircraft(
    icaoCode: string,
    model: string,
    wakeTurbulence: string,
    isMilitary: Option<bool>,
    description: string)

  datatype JsonFlightPlan = JsonFlightPlan(
    id: int,
    revision: int,
    aircraftId: Option<string>,
    aircraftNumber: int,
    departureId: Option<string>,
    arrivalId: Option<string>,
    alternativeId: Option<string>,
    alternative2Id: Option<string>,
    route: string,
    remarks: string,
    speed: string,
    level: string,
    flightRules: string,
    eet: int,
    endurance: int,
    departureTime: int,
    actualDepartureTime: Option<int>,
    peopleOnBoard: int,
    createdAt: Time,
    aircraft: Option<JsonAircraft>,
    aircraftEquipments: string,
    aircraftTransponderTypes: string)

  datatype JsonLastTrack = JsonLastTrack(
    altitude: int,
    groundSpeed: int,
    heading: int,
    onGround: bool,
    state: string,
    timestamp: Time,
    transponder: int,
    transponderMode: string)

  datatype JsonPilotSession = JsonPilotSession(simulatorId: Option<string>, textureId: Option<int>)

  datatype JsonPilot = JsonPilot(
    id: int,
    userId: int,
    callsign: string,
    serverId: string,
    softwareTypeId: string,
    softwareVersion: string,
    rating: int,
    createdAt: Time,
    lastTrack: Option<JsonLastTrack>,
    pilotSession: JsonPilotSession,
    flightPlan: Option<JsonFlightPlan>)

  datatype ConnectionStats = ConnectionStats(
    total: int,
    supervisor: int,
    atc: int,
    observer: int,
    pilot: int,
    worldTour: int,
    followMe: int)

  /** The part of the snapshot the core reads: its time, the counters and the pilots. */
  datatype JsonSnapshot = JsonSnapshot(updatedAt: Time, connections: ConnectionStats, pilots: seq<JsonPilot>)

  // ---------------------------------------------------------------------------------------------
  // Stored entities
  // ---------------------------------------------------------------------------------------------

  datatype Aircraft = Aircraft(
    icaoCode: string,
    model: string,
    wakeTurbulence: WakeTurbulence,
    isMilitary: Option<bool>,
    description: string)

  /**
   * A flight plan. The four `…Id` fields are the raw identifiers from the feed; the four
   * `…Airport` fields hold the canonical code (the foreign key) of the airport each was resolved to.
   */
  datatype FlightPlan = FlightPlan(
    id: int,
    pilotSessionId: int,
    revision: int,
    aircraftId: Option<string>,
    aircraftNumber: int,
    departureId: Option<string>,
    arrivalId: Option<string>,
    alternativeId: Option<string>,
    alternative2Id: Option<string>,
    route: string,
    remarks: string,
    speed: string,
    level: string,
    flightRules: string,
    eet: int,
    endurance: int,
    departureTime: int,
    actualDepartureTime: Option<int>,
    peopleOnBoard: int,
    createdAt: Time,
    aircraft: Option<Aircraft>,
    aircraftEquipments: string,
    aircraftTransponderTypes: string,
    departureAirport: Option<string>,
    arrivalAirport: Option<string>,
    alternativeAirport: Option<string>,
    alternative2Airport: Option<string>)

  datatype PilotTrack = PilotTrack(
    altitude: int,
    groundSpeed: int,
    heading: int,
    onGround: bool,
    state: State,
    timestamp: Time,
    transponder: int,
    transponderMode: TransponderMode)

  datatype PilotSession = PilotSession(
    id: int,
    isActive: bool,
    userId: int,
    callsign: string,
    serverId: string,
    softwareTypeId: string,
    softwareVersion: string,
    rating: int,
    createdAt: Time,
    simulatorId: Option<string>,
    textureId: Option<int>,
    taxiTime: Option<Time>,
    takeoffTime: Option<Time>,
    approachTime: Option<Time>,
    landingTime: Option<Time>,
    onBlocksTime: Option<Time>,
    disconnectTime: Option<Time>,
    flightplans: seq<FlightPlan>,
    tracks: seq<PilotTrack>)

  /** A stored snapshot; `pilotSessions` lists the ids of the sessions linked to it, in link order. */
  datatype Snapshot = Snapshot(
    updatedAt: Time,
    total: int,
    supervisor: int,
    atc: int,
    observer: int,
    pilot: int,
    worldTour: int,
    followMe: int,
    pilotSessions: seq<int>)

  /** The descriptive airport columns that the resolver never reads. */
  datatype AirportInfo = AirportInfo(
    kind: Option<string>,
    name: Option<string>,
    elevationFt: Option<int>,
    continent: Option<string>,
    countryName: Option<string>,
    isoCountry: Option<string>,
    regionName: Option<string>,
    isoRegion: Option<string>,
    localRegion: Option<string>,
    municipality: Option<string>,
    scheduledService: Option<bool>,
    homeLink: Option<string>,
    wikipediaLink: Option<string>,
    score: Option<int>)

  const NoInfo: AirportInfo :=
    AirportInfo(None, None, None, None, None, None, None, None, None, None, None, None, None, None)

  /** An airport row; `code` is the primary key, `rowId` the reference data's own numeric id. */
  datatype Airport = Airport(
    rowId: Option<int>,
    code: string,
    ident: string,
    gpsCode: Option<string>,
    icaoCode: Option<string>,
    iataCode: Option<string>,
    localCode: Option<string>,
    keywords: Option<string>,
    lastUpdated: Option<Time>,
    info: AirportInfo,
    isFixed: bool,
    fixOrigin: Option<FixOrigin>,
    isUsed: bool)

  /** One row of the airport reference CSV, after parsing. */
  datatype AirportRow = AirportRow(
    id: int,
    ident: string,
    gpsCode: Option<string>,
    icaoCode: Option<string>,
    iataCode: Option<string>,
    localCode: Option<string>,
    keywords: Option<string>,
    lastUpdated: Option<Time>,
    info: AirportInfo)

  // ---------------------------------------------------------------------------------------------
  // Access to a flight plan's airport fields through the field map
  // ---------------------------------------------------------------------------------------------

  function AirportIdOf(fp: FlightPlan, f: AirportField): Option<string>
  {
    match f
    case Departure => fp.departureId
    case Arrival => fp.arrivalId
    case Alternative => fp.alternativeId
    case Alternative2 => fp.alternative2Id
  }

  function ResolvedAirportOf(fp: FlightPlan, f: AirportField): Option<string>
  {
    match f
    case Departure => fp.departureAirport
    case Arrival => fp.arrivalAirport
    case Alternative => fp.alternativeAirport
    case Alternative2 => fp.alternative2Airport
  }

  /** `setattr(fp, airport_field, airport)`: records the resolved airport's code in field `f`. */
  function WithResolvedAirport(fp: FlightPlan, f: AirportField, code: string): (r: FlightPlan)
    ensures ResolvedAirportOf(r, f) == Some(code)
    ensures forall g :: g != f ==> ResolvedAirportOf(r, g) == ResolvedAirportOf(fp, g)
    ensures forall g :: AirportIdOf(r, g) == AirportIdOf(fp, g)
    ensures WithoutAirports(r) == WithoutAirports(fp)
  {
    match f
    case Departure => fp.(departureAirport := Some(code))
    case Arrival => fp.(arrivalAirport := Some(code))
    case Alternative => fp.(alternativeAirport := Some(code))
    case Alternative2 => fp.(alternative2Airport := Some(code))
  }

  /** A plan with its resolved airport fields cleared: what resolution may not change. */
  function WithoutAirports(fp: FlightPlan): FlightPlan
  {
    fp.(departureAirport := None, arrivalAirport := None, alternativeAirport := None, alternative2Airport := None)
  }
}
