/**
 * Feed-to-record conversion (ivao_tracker/util/model.py): pure constructors that copy the decoded
 * feed records into stored records, coercing enum strings. Python raises ValueError for an unknown
 * enum string; here that is a `Failure` naming the rejected value.
 */
module Conversion {
  import opened Wrappers
  import opened Constants
  import opened Records

  datatype ConversionError =
    | UnknownState(value: string)
    | UnknownTransponderMode(value: string)
    | UnknownWakeTurbulence(value: string)

  // ---------------------------------------------------------------------------------------------
  // Inverses: the feed record each stored record was made from (used to state what is copied)
  // ---------------------------------------------------------------------------------------------

  function StatsOf(s: Snapshot): ConnectionStats
  {
    ConnectionStats(s.total, s.supervisor, s.atc, s.observer, s.pilot, s.worldTour, s.followMe)
  }

  function AircraftToJson(a: Aircraft): JsonAircraft
  {
    JsonAircraft(a.icaoCode, a.model, WakeTurbulenceValue(a.wakeTurbulence), a.isMilitary, a.description)
  }

  function TrackToJson(t: PilotTrack): JsonLastTrack
  {
    JsonLastTrack(t.altitude, t.groundSpeed, t.heading, t.onGround, StateValue(t.state), t.timestamp,
                  t.transponder, TransponderModeValue(t.transponderMode))
  }

  /** The feed plan a stored plan was copied from, given the feed's own aircraft record. */
  function FlightPlanToJson(fp: FlightPlan, aircraft: Option<JsonAircraft>): JsonFlightPlan
  {
    JsonFlightPlan(fp.id, fp.revision, fp.aircraftId, fp.aircraftNumber,
                   fp.departureId, fp.arrivalId, fp.alternativeId, fp.alternative2Id,
                   fp.route, fp.remarks, fp.speed, fp.level, fp.flightRules, fp.eet, fp.endurance,
                   fp.departureTime, fp.actualDepartureTime, fp.peopleOnBoard, fp.createdAt,
                   aircraft, fp.aircraftEquipments, fp.aircraftTransponderTypes)
  }

  // ---------------------------------------------------------------------------------------------
  // Constructors
  // ---------------------------------------------------------------------------------------------

  /** `json2sqlSnapshot`: the snapshot's time and counters, with no linked sessions yet. */
  function ToSnapshot(js: JsonSnapshot): (s: Snapshot)
    ensures s.updatedAt == js.updatedAt
    ensures StatsOf(s) == js.connections
    ensures s.pilotSessions == []
  {
    var c := js.connections;
    Snapshot(js.updatedAt, c.total, c.supervisor, c.atc, c.observer, c.pilot, c.worldTour, c.followMe, [])
  }

  /** `createAircraft`: copies the feed aircraft, coercing the wake turbulence category. */
  function ToAircraft(ja: JsonAircraft): (r: Result<Aircraft, ConversionError>)
    ensures r.Success? <==> ParseWakeTurbulence(ja.wakeTurbulence).Some?
    ensures r.Success? ==> AircraftToJson(r.value) == ja
    ensures r.Failure? ==> r.error == UnknownWakeTurbulence(ja.wakeTurbulence)
  {
    match ParseWakeTurbulence(ja.wakeTurbulence)
    case None => Failure(UnknownWakeTurbulence(ja.wakeTurbulence))
    case Some(w) => Success(Aircraft(ja.icaoCode, ja.model, w, ja.isMilitary, ja.description))
  }

  /** The `PilotTrack(...)` built from `lastTrack`: state first, then transponder mode, are coerced. */
  function ToTrack(jt: JsonLastTrack): (r: Result<PilotTrack, ConversionError>)
    ensures r.Success? <==> ParseState(jt.state).Some? && ParseTransponderMode(jt.transponderMode).Some?
    ensures r.Success? ==> TrackToJson(r.value) == jt
    ensures ParseState(jt.state).None? ==> r == Failure(UnknownState(jt.state))
    ensures ParseState(jt.state).Some? && ParseTransponderMode(jt.transponderMode).None? ==>
              r == Failure(UnknownTransponderMode(jt.transponderMode))
  {
    match ParseState(jt.state)
    case None => Failure(UnknownState(jt.state))
    case Some(st) =>
      match ParseTransponderMode(jt.transponderMode)
      case None => Failure(UnknownTransponderMode(jt.transponderMode))
      case Some(m) =>
        Success(PilotTrack(jt.altitude, jt.groundSpeed, jt.heading, jt.onGround, st, jt.timestamp, jt.transponder, m))
  }

  /**
   * `createFlightplan`: the plan carries the feed plan's id, the owning session's id and the four
   * airport identifiers unresolved.
   */
  function ToFlightPlan(pilotSessionId: int, fp: JsonFlightPlan, aircraft: Option<Aircraft>): (r: FlightPlan)
    ensures r.id == fp.id && r.pilotSessionId == pilotSessionId && r.aircraft == aircraft
    ensures FlightPlanToJson(r, fp.aircraft) == fp
    ensures forall f :: ResolvedAirportOf(r, f) == None
  {
    FlightPlan(fp.id, pilotSessionId, fp.revision, fp.aircraftId, fp.aircraftNumber,
               fp.departureId, fp.arrivalId, fp.alternativeId, fp.alternative2Id,
               fp.route, fp.remarks, fp.speed, fp.level, fp.flightRules, fp.eet, fp.endurance,
               fp.departureTime, fp.actualDepartureTime, fp.peopleOnBoard, fp.createdAt,
               aircraft, fp.aircraftEquipments, fp.aircraftTransponderTypes,
               None, None, None, None)
  }

  /** Every enum string of the pilot record names a member. */
  predicate PilotWellFormed(jp: JsonPilot)
  {
    && (jp.flightPlan.Some? && jp.flightPlan.value.aircraft.Some? ==>
          ParseWakeTurbulence(jp.flightPlan.value.aircraft.value.wakeTurbulence).Some?)
    && (jp.lastTrack.Some? ==>
          ParseState(jp.lastTrack.value.state).Some? && ParseTransponderMode(jp.lastTrack.value.transponderMode).Some?)
  }

  /** The session-level fields copied from the pilot record. */
  predicate CopiesPilot(s: PilotSession, jp: JsonPilot)
  {
    && s.id == jp.id && s.userId == jp.userId && s.callsign == jp.callsign && s.serverId == jp.serverId
    && s.softwareTypeId == jp.softwareTypeId && s.softwareVersion == jp.softwareVersion
    && s.rating == jp.rating && s.createdAt == jp.createdAt
    && s.simulatorId == jp.pilotSession.simulatorId && s.textureId == jp.pilotSession.textureId
  }

  /**
   * `json2sqlPilotSession`: an active session with the pilot's id, no milestones, at most one flight
   * plan (exactly when the pilot has one) and at most one track (exactly when `lastTrack` is present).
   * The plan is converted before the track, so its error is the one reported.
   */
  function ToPilotSession(jp: JsonPilot): (r: Result<PilotSession, ConversionError>)
    ensures r.Success? <==> PilotWellFormed(jp)
    ensures r.Success? ==>
      var s := r.value;
      && CopiesPilot(s, jp) && s.isActive
      && s.taxiTime == s.takeoffTime == s.approachTime == s.landingTime == s.onBlocksTime == s.disconnectTime == None
      && |s.flightplans| == (if jp.flightPlan.Some? then 1 else 0)
      && |s.tracks| == (if jp.lastTrack.Some? then 1 else 0)
      && (jp.flightPlan.Some? ==>
            && s.flightplans[0].pilotSessionId == jp.id
            && FlightPlanToJson(s.flightplans[0], jp.flightPlan.value.aircraft) == jp.flightPlan.value
            && (s.flightplans[0].aircraft.Some? <==> jp.flightPlan.value.aircraft.Some?)
            && (s.flightplans[0].aircraft.Some? ==>
                  AircraftToJson(s.flightplans[0].aircraft.value) == jp.flightPlan.value.aircraft.value)
            && forall f :: ResolvedAirportOf(s.flightplans[0], f) == None)
      && (jp.lastTrack.Some? ==> TrackToJson(s.tracks[0]) == jp.lastTrack.value)
    ensures jp.flightPlan.Some? && jp.flightPlan.value.aircraft.Some? &&
            ParseWakeTurbulence(jp.flightPlan.value.aircraft.value.wakeTurbulence).None? ==>
              r == Failure(UnknownWakeTurbulence(jp.flightPlan.value.aircraft.value.wakeTurbulence))
  {
    var plans: Result<seq<FlightPlan>, ConversionError> :=
      match jp.flightPlan
      case None => Success([])
      case Some(fp) =>
        match fp.aircraft
        case None => Success([ToFlightPlan(jp.id, fp, None)])
        case Some(ja) =>
          match ToAircraft(ja)
          case Failure(e) => Failure(e)
          case Success(a) => Success([ToFlightPlan(jp.id, fp, Some(a))]);
    var tracks: Result<seq<PilotTrack>, ConversionError> :=
      match jp.lastTrack
      case None => Success([])
      case Some(lt) =>
        match ToTrack(lt)
        case Failure(e) => Failure(e)
        case Success(t) => Success([t]);
    if plans.Failure? then Failure(plans.error)
    else if tracks.Failure? then Failure(tracks.error)
    else
      Success(PilotSession(jp.id, true, jp.userId, jp.callsign, jp.serverId, jp.softwareTypeId,
                           jp.softwareVersion, jp.rating, jp.createdAt,
                           jp.pilotSession.simulatorId, jp.pilotSession.textureId,
                           None, None, None, None, None, None, plans.value, tracks.value))
  }
}
