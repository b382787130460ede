/**
 * The snapshot reconciliation engine (ivao_tracker/service/ivao.py): the pure rules it applies to one
 * session and one flight plan, and the class `Tracker` that runs a pass over a snapshot.
 */
module Ivao {
  import opened Wrappers
  import opened Constants
  import opened Records
  import opened Conversion
  import opened Airports

  // ---------------------------------------------------------------------------------------------
  // Flight-phase milestones
  // ---------------------------------------------------------------------------------------------

  datatype Milestone = Taxi | Takeoff | ApproachStart | Landing | OnBlocksReached

  function MilestoneTime(s: PilotSession, m: Milestone): Option<Time>
  {
    match m
    case Taxi => s.taxiTime
    case Takeoff => s.takeoffTime
    case ApproachStart => s.approachTime
    case Landing => s.landingTime
    case OnBlocksReached => s.onBlocksTime
  }

  /** The transition table: the milestone a (previous phase, new phase) pair records, if any. */
  function MilestoneOf(previous: State, next: State): Option<Milestone>
  {
    match (previous, next)
    case (Boarding, Departing) => Some(Taxi)
    case (Departing, InitialClimb) => Some(Takeoff)
    case (EnRoute, Approach) => Some(ApproachStart)
    case (Approach, Landed) => Some(Landing)
    case (Landed, OnBlocks) => Some(OnBlocksReached)
    case _ => None
  }

  /** Only the taxi and takeoff times are guarded by "is None"; the others are overwritten. */
  predicate WriteOnce(m: Milestone)
  {
    m == Taxi || m == Takeoff
  }

  /** The time recorded for a milestone: the track's timestamp, backdated one minute for takeoff. */
  function MilestoneStamp(m: Milestone, t: PilotTrack): Time
  {
    if m == Takeoff then t.timestamp - OneMinute else t.timestamp
  }

  /** The phase of the last stored track, if there is one. */
  function LastState(tracks: seq<PilotTrack>): Option<State>
  {
    if |tracks| == 0 then None else Some(tracks[|tracks| - 1].state)
  }

  /** Appending `t` to `s` records milestone `m`. */
  predicate Fires(s: PilotSession, t: PilotTrack, m: Milestone)
  {
    && LastState(s.tracks).Some?
    && MilestoneOf(LastState(s.tracks).value, t.state) == Some(m)
    && (WriteOnce(m) ==> MilestoneTime(s, m).None?)
  }

  /**
   * The track step of `mergePilotSession`: append the new track, then run the elif chain on the
   * previous and the new phase. Stated against the transition table: each milestone takes the
   * stamp exactly when the table names it (and, for a write-once one, it is unset); every other
   * field is unchanged.
   */
  function ApplyTrack(s: PilotSession, t: PilotTrack): (r: PilotSession)
    ensures r.tracks == s.tracks + [t]
    ensures forall m :: MilestoneTime(r, m) == if Fires(s, t, m) then Some(MilestoneStamp(m, t)) else MilestoneTime(s, m)
    ensures r.(tracks := s.tracks, taxiTime := s.taxiTime, takeoffTime := s.takeoffTime,
               approachTime := s.approachTime, landingTime := s.landingTime, onBlocksTime := s.onBlocksTime) == s
  {
    var last := LastState(s.tracks);
    var appended := s.(tracks := s.tracks + [t]);
    if last.Some? && last.value != t.state then
      if last.value == Boarding && t.state == Departing && s.taxiTime.None? then
        appended.(taxiTime := Some(t.timestamp))
      else if last.value == Departing && t.state == InitialClimb && s.takeoffTime.None? then
        appended.(takeoffTime := Some(t.timestamp - OneMinute))
      else if last.value == EnRoute && t.state == Approach then
        appended.(approachTime := Some(t.timestamp))
      else if last.value == Approach && t.state == Landed then
        appended.(landingTime := Some(t.timestamp))
      else if last.value == Landed && t.state == OnBlocks then
        appended.(onBlocksTime := Some(t.timestamp))
      else
        appended
    else
      appended
  }

  // ---------------------------------------------------------------------------------------------
  // Aircraft sharing
  // ---------------------------------------------------------------------------------------------

  /** `icaoCode` is the Aircraft primary key: the cache holds each code at most once. */
  predicate AircraftUnique(cache: seq<Aircraft>)
  {
    forall i, j | 0 <= i < j < |cache| :: cache[i].icaoCode != cache[j].icaoCode
  }

  /** The first cached aircraft with the given code. */
  function FirstAircraft(cache: seq<Aircraft>, code: string): (r: Option<nat>)
    ensures r.Some? ==> r.value < |cache| && cache[r.value].icaoCode == code
    ensures r.Some? ==> forall j :: 0 <= j < r.value ==> cache[j].icaoCode != code
    ensures r.None? <==> forall j :: 0 <= j < |cache| ==> cache[j].icaoCode != code
  {
    if |cache| == 0 then None
    else if cache[0].icaoCode == code then Some(0)
    else match FirstAircraft(cache[1..], code)
      case None => None
      case Some(k) => Some(k + 1)
  }

  /** The plan has an aircraft with a non-empty code, the condition for sharing. */
  predicate Shareable(fp: FlightPlan)
  {
    fp.aircraft.Some? && fp.aircraft.value.icaoCode != ""
  }

  /**
   * The aircraft step: a plan whose aircraft has a code gets the cached aircraft with that code,
   * or its own aircraft is added to the cache. The cache only grows, keeps its codes unique, and
   * afterwards holds the plan's aircraft.
   */
  function ShareSpec(fp: FlightPlan, cache: seq<Aircraft>): (r: (FlightPlan, seq<Aircraft>))
    ensures !Shareable(fp) ==> r == (fp, cache)
    ensures r.0.(aircraft := fp.aircraft) == fp
    ensures r.0.aircraft.Some? <==> fp.aircraft.Some?
    ensures fp.aircraft.Some? ==> r.0.aircraft.value.icaoCode == fp.aircraft.value.icaoCode
    ensures r.1 == cache || (r.1 == cache + [fp.aircraft.value] && Shareable(fp))
    ensures Shareable(fp) ==> r.0.aircraft.value in r.1
    ensures AircraftUnique(cache) ==> AircraftUnique(r.1)
  {
    if !Shareable(fp) then (fp, cache)
    else match FirstAircraft(cache, fp.aircraft.value.icaoCode)
      case Some(i) => (fp.(aircraft := Some(cache[i])), cache)
      case None => (fp, cache + [fp.aircraft.value])
  }

  // ---------------------------------------------------------------------------------------------
  // Airport resolution of a flight plan's four fields
  // ---------------------------------------------------------------------------------------------

  /** One entry of the field map: resolve a truthy identifier and record the airport's code. */
  function ResolveField(cfg: Config, s: ResolverState, fp: FlightPlan, f: AirportField, now: Time)
    : (ResolverState, FlightPlan)
  {
    var id := AirportIdOf(fp, f);
    if Truthy(id) then
      var r := ResolveSpec(cfg, s, id.value, now);
      (r.0, WithResolvedAirport(fp, f, r.1.code))
    else (s, fp)
  }

  /** The loop over `airport_field_map`, entry by entry. */
  function ResolveFields(cfg: Config, s: ResolverState, fp: FlightPlan, fields: seq<AirportField>, now: Time)
    : (ResolverState, FlightPlan)
    decreases |fields|
  {
    if |fields| == 0 then (s, fp)
    else
      var r := ResolveField(cfg, s, fp, fields[0], now);
      ResolveFields(cfg, r.0, r.1, fields[1..], now)
  }

  // ---------------------------------------------------------------------------------------------
  // Flight plans of a created or merged session
  // ---------------------------------------------------------------------------------------------

  /** The shared state a plan's handling changes: the airport resolver and the aircraft cache. */
  datatype World = World(resolver: ResolverState, cache: seq<Aircraft>)

  predicate WorldValid(w: World)
  {
    StateValid(w.resolver) && AircraftUnique(w.cache)
  }

  /** Share the aircraft, then resolve the airports. */
  function PreparePlan(cfg: Config, w: World, fp: FlightPlan, now: Time): (World, FlightPlan)
  {
    var shared := ShareSpec(fp, w.cache);
    var resolved := ResolveFields(cfg, w.resolver, shared.0, AirportFieldMap, now);
    (World(resolved.0, shared.1), resolved.1)
  }

  /** `create_pilot_session` handles a plan only when it has an aircraft. */
  function PrepareCreatedPlan(cfg: Config, w: World, fp: FlightPlan, now: Time): (World, FlightPlan)
  {
    if fp.aircraft.Some? then PreparePlan(cfg, w, fp, now) else (w, fp)
  }

  /** The plans of a new session, each handled in turn. */
  function CreatedPlans(cfg: Config, w: World, plans: seq<FlightPlan>, now: Time): (World, seq<FlightPlan>)
    decreases |plans|
  {
    if |plans| == 0 then (w, [])
    else
      var first := PrepareCreatedPlan(cfg, w, plans[0], now);
      var rest := CreatedPlans(cfg, first.0, plans[1..], now);
      (rest.0, [first.1] + rest.1)
  }

  function PlanIds(plans: seq<FlightPlan>): set<int>
  {
    set p | p in plans :: p.id
  }

  /**
   * The plans `mergePilotSession` appends to a session holding `existing`: each incoming plan whose
   * id no plan of the session has yet (including plans appended earlier in the same merge), handled
   * like a new plan; the others are ignored.
   */
  function AddedPlans(cfg: Config, w: World, existing: seq<FlightPlan>, incoming: seq<FlightPlan>, now: Time)
    : (World, seq<FlightPlan>)
    decreases |incoming|
  {
    if |incoming| == 0 then (w, [])
    else if incoming[0].id in PlanIds(existing) then AddedPlans(cfg, w, existing, incoming[1..], now)
    else
      var first := PreparePlan(cfg, w, incoming[0], now);
      var rest := AddedPlans(cfg, first.0, existing + [first.1], incoming[1..], now);
      (rest.0, [first.1] + rest.1)
  }

  // ---------------------------------------------------------------------------------------------
  // Session-level rules
  // ---------------------------------------------------------------------------------------------

  /**
   * `b` is a later version of the session `a`: the same pilot connection, plans and tracks only
   * appended, and the write-once milestones kept once set.
   */
  predicate Extends(a: PilotSession, b: PilotSession)
  {
    && b.id == a.id && b.userId == a.userId && b.callsign == a.callsign && b.serverId == a.serverId
    && b.softwareTypeId == a.softwareTypeId && b.softwareVersion == a.softwareVersion
    && b.rating == a.rating && b.createdAt == a.createdAt && b.simulatorId == a.simulatorId
    && a.flightplans <= b.flightplans
    && a.tracks <= b.tracks
    && (a.taxiTime.Some? ==> b.taxiTime == a.taxiTime)
    && (a.takeoffTime.Some? ==> b.takeoffTime == a.takeoffTime)
  }

  /**
   * `mergePilotSession` on the stored session `s`, given the plans it appends: plans appended, the
   * first reported track applied, the texture taken from the report.
   */
  function MergedSession(s: PilotSession, raw: PilotSession, added: seq<FlightPlan>): (r: PilotSession)
    ensures Extends(s, r)
    ensures r.flightplans == s.flightplans + added
    ensures r.tracks == s.tracks + (if |raw.tracks| > 0 then [raw.tracks[0]] else [])
    ensures r.isActive == s.isActive && r.disconnectTime == s.disconnectTime && r.textureId == raw.textureId
    ensures forall m :: MilestoneTime(r, m) ==
              if |raw.tracks| > 0 && Fires(s, raw.tracks[0], m) then Some(MilestoneStamp(m, raw.tracks[0]))
              else MilestoneTime(s, m)
    ensures |raw.tracks| > 0 ==>
              r.(textureId := s.textureId) == ApplyTrack(s.(flightplans := s.flightplans + added), raw.tracks[0])
    ensures |raw.tracks| == 0 ==> r == s.(flightplans := s.flightplans + added, textureId := raw.textureId)
  {
    var withPlans := s.(flightplans := s.flightplans + added);
    var withTrack := if |raw.tracks| > 0 then ApplyTrack(withPlans, raw.tracks[0]) else withPlans;
    withTrack.(textureId := raw.textureId)
  }

  /** `mergePilotSession` on the stored session `s`: the plans it appends are handled in the world `w`. */
  function MergeSpec(cfg: Config, w: World, s: PilotSession, raw: PilotSession, now: Time): (World, PilotSession)
  {
    var added := AddedPlans(cfg, w, s.flightplans, raw.flightplans, now);
    (added.0, MergedSession(s, raw, added.1))
  }

  /** `create_pilot_session`: the converted session with its plans handled in the world `w`. */
  function CreateSpec(cfg: Config, w: World, raw: PilotSession, now: Time): (World, PilotSession)
  {
    var plans := CreatedPlans(cfg, w, raw.flightplans, now);
    (plans.0, raw.(flightplans := plans.1))
  }

  /**
   * The state of a pass between two pilots: the shared world, the store, the previously active
   * sessions not yet reported, and the sessions this pass created.
   */
  datatype Pass = Pass(world: World, sessions: map<int, PilotSession>, lastActive: set<int>, created: set<int>)

  /**
   * One iteration of the pilot loop on the converted session `raw`: merge into a previously active
   * session, else revive and merge a stored one this pass did not create, else create one.
   */
  function ReportSpec(cfg: Config, p: Pass, raw: PilotSession, now: Time): Pass
  {
    var id := raw.id;
    if id in p.lastActive && id in p.sessions then
      var r := MergeSpec(cfg, p.world, p.sessions[id], raw, now);
      Pass(r.0, p.sessions[id := r.1], p.lastActive - {id}, p.created)
    else if id in p.sessions && id !in p.created then
      var r := MergeSpec(cfg, p.world, p.sessions[id].(isActive := true), raw, now);
      Pass(r.0, p.sessions[id := r.1], p.lastActive, p.created)
    else
      var r := CreateSpec(cfg, p.world, raw, now);
      Pass(r.0, p.sessions[id := r.1], p.lastActive, p.created + {id})
  }

  /** The pilot loop over `pilots`, stopping at the first record that does not convert. */
  function PassSpec(cfg: Config, p: Pass, pilots: seq<JsonPilot>, now: Time): Pass
    decreases |pilots|
  {
    if |pilots| == 0 then p
    else match ToPilotSession(pilots[0])
      case Failure(_) => p
      case Success(raw) => PassSpec(cfg, ReportSpec(cfg, p, raw, now), pilots[1..], now)
  }

  /** A pass from the stored sessions: the closing list starts as the active sessions, nothing created. */
  function PassFrom(cfg: Config, w: World, sessions: map<int, PilotSession>, pilots: seq<JsonPilot>, now: Time): Pass
  {
    PassSpec(cfg, Pass(w, sessions, ActiveIds(sessions), {}), pilots, now)
  }

  /** A previously active session that the snapshot does not report. */
  function Closed(s: PilotSession, at: Time): PilotSession
  {
    s.(isActive := false, disconnectTime := Some(at))
  }

  /** Every stored session is filed under its own id. */
  predicate SessionsKeyed(sessions: map<int, PilotSession>)
  {
    forall k :: k in sessions ==> sessions[k].id == k
  }

  /** `select(PilotSession).where(PilotSession.isActive)`, as ids. */
  function ActiveIds(sessions: map<int, PilotSession>): set<int>
  {
    set k | k in sessions && sessions[k].isActive
  }

  /** The ids of the reported pilots, in report order. */
  function PilotIds(pilots: seq<JsonPilot>): seq<int>
  {
    seq(|pilots|, i requires 0 <= i < |pilots| => pilots[i].id)
  }

  function ReportedIds(pilots: seq<JsonPilot>): set<int>
  {
    set p | p in pilots :: p.id
  }

  /** The session holds only what its pilot record gave it: no milestone and no disconnect time. */
  predicate Fresh(s: PilotSession)
  {
    && s.isActive
    && s.taxiTime.None? && s.takeoffTime.None? && s.approachTime.None?
    && s.landingTime.None? && s.onBlocksTime.None? && s.disconnectTime.None?
  }

  /**
   * Some id that the store does not hold is reported twice: the second report creates a second new
   * session with the same primary key, which the store refuses at commit.
   */
  predicate NewIdRepeated(pilots: seq<JsonPilot>, stored: set<int>)
  {
    exists i, j :: 0 <= i < j < |pilots| && pilots[i].id == pilots[j].id && pilots[i].id !in stored
  }

  /**
   * The sessions `m` during a pass over the store `saved`, once the pilots with ids `ids` are
   * handled: those are stored and active, stored sessions only grew, the others are as they were,
   * `lastActive` holds the previously active sessions not yet reported and `created` the sessions
   * this pass created.
   */
  predicate PassState(m: map<int, PilotSession>, saved: map<int, PilotSession>, ids: set<int>,
                      lastActive: set<int>, created: set<int>)
  {
    && m.Keys == saved.Keys + ids
    && created == ids - saved.Keys
    && lastActive == ActiveIds(saved) - ids
    && (forall i :: i in saved ==> Extends(saved[i], m[i]))
    && (forall i :: i in saved && i !in ids ==> m[i] == saved[i])
    && (forall i :: i in ids ==> m[i].isActive)
  }

  /** A non-empty set of ids has an element (the next one the closing loop visits). */
  lemma NonEmptyIds(ids: set<int>)
    requires ids != {}
    ensures exists i :: i in ids
  {
    if forall i :: i !in ids {
      assert false;
    }
  }

  lemma ExtendsTransitive(a: PilotSession, b: PilotSession, c: PilotSession)
    requires Extends(a, b) && Extends(b, c)
    ensures Extends(a, c)
  {
    assert a.flightplans <= c.flightplans by {
      assert c.flightplans[..|a.flightplans|] == b.flightplans[..|a.flightplans|];
    }
    assert a.tracks <= c.tracks by {
      assert c.tracks[..|a.tracks|] == b.tracks[..|a.tracks|];
    }
  }

  /** A previously active session is reported: it leaves the closing list. */
  lemma PassMatched(m: map<int, PilotSession>, saved: map<int, PilotSession>, ids: set<int>,
                    lastActive: set<int>, created: set<int>, id: int, s: PilotSession)
    requires PassState(m, saved, ids, lastActive, created)
    requires id in lastActive && Extends(m[id], s) && s.isActive
    ensures PassState(m[id := s], saved, ids + {id}, lastActive - {id}, created)
  {
    ExtendsTransitive(saved[id], m[id], s);
  }

  /** A stored session that is not on the closing list and was not created by this pass is reported. */
  lemma PassRevived(m: map<int, PilotSession>, saved: map<int, PilotSession>, ids: set<int>,
                    lastActive: set<int>, created: set<int>, id: int, s: PilotSession)
    requires PassState(m, saved, ids, lastActive, created)
    requires id in m && id !in created && id !in lastActive && Extends(m[id], s) && s.isActive
    ensures PassState(m[id := s], saved, ids + {id}, lastActive, created)
  {
    ExtendsTransitive(saved[id], m[id], s);
  }

  /** An id the store did not hold is reported: its session is (re)created. */
  lemma PassCreated(m: map<int, PilotSession>, saved: map<int, PilotSession>, ids: set<int>,
                    lastActive: set<int>, created: set<int>, id: int, s: PilotSession)
    requires PassState(m, saved, ids, lastActive, created)
    requires !(id in m && id !in created) && s.isActive
    ensures id !in saved && id !in lastActive
    ensures PassState(m[id := s], saved, ids + {id}, lastActive, created + {id})
  {
  }

  /** Each session created for one of the pilots `ps` carries that pilot's data. */
  predicate CreatedFromPilots(m: map<int, PilotSession>, saved: map<int, PilotSession>, ps: seq<JsonPilot>)
  {
    forall j :: 0 <= j < |ps| && ps[j].id !in saved ==>
      ps[j].id in m && CopiesPilot(m[ps[j].id], ps[j]) && Fresh(m[ps[j].id])
  }

  lemma CreatedStep(m: map<int, PilotSession>, m': map<int, PilotSession>, saved: map<int, PilotSession>,
                    ps: seq<JsonPilot>, p: JsonPilot)
    requires CreatedFromPilots(m, saved, ps)
    requires m.Keys <= m'.Keys && forall i :: i in m && i != p.id ==> m'[i] == m[i]
    requires p.id !in saved ==> p.id in m' && CopiesPilot(m'[p.id], p) && Fresh(m'[p.id])
    requires !(p.id !in saved && p.id in ReportedIds(ps))
    ensures CreatedFromPilots(m', saved, ps + [p])
  {
    var ps' := ps + [p];
    forall j | 0 <= j < |ps'| && ps'[j].id !in saved
      ensures ps'[j].id in m' && CopiesPilot(m'[ps'[j].id], ps'[j]) && Fresh(m'[ps'[j].id])
    {
      if j < |ps| {
        assert ps'[j] == ps[j] && ps[j] in ps;
      }
    }
  }

  /** The closing loop's effect: the sessions in `ids` closed at `at`, the others unchanged. */
  function CloseAll(m: map<int, PilotSession>, ids: set<int>, at: Time): map<int, PilotSession>
  {
    map i | i in m :: if i in ids then Closed(m[i], at) else m[i]
  }

  /**
   * What a committed pass does to the sessions: every reported pilot has an active session; a
   * previously active session that was not reported is closed at the snapshot time; no session is
   * removed and every stored one only grew; a session created for a pilot carries that pilot's data.
   */
  predicate Reconciled(before: map<int, PilotSession>, after: map<int, PilotSession>, pilots: seq<JsonPilot>, at: Time)
  {
    && after.Keys == before.Keys + ReportedIds(pilots)
    && (forall i :: i in before ==> Extends(before[i], after[i]))
    && (forall i :: i in ReportedIds(pilots) ==> after[i].isActive)
    && (forall i :: i in before && i !in ReportedIds(pilots) ==>
          after[i] == if before[i].isActive then Closed(before[i], at) else before[i])
    && (forall j :: 0 <= j < |pilots| && pilots[j].id !in before ==>
          CopiesPilot(after[pilots[j].id], pilots[j]) && Fresh(after[pilots[j].id]))
  }

  /** Closing the sessions left in `lastActive` completes the pass. */
  lemma CloseCompletesPass(m: map<int, PilotSession>, saved: map<int, PilotSession>, pilots: seq<JsonPilot>,
                           lastActive: set<int>, created: set<int>, at: Time)
    requires PassState(m, saved, ReportedIds(pilots), lastActive, created)
    requires forall j :: 0 <= j < |pilots| && pilots[j].id !in saved ==>
               CopiesPilot(m[pilots[j].id], pilots[j]) && Fresh(m[pilots[j].id])
    ensures Reconciled(saved, CloseAll(m, lastActive, at), pilots, at)
  {
    var m' := CloseAll(m, lastActive, at);
    forall i | i in saved
      ensures Extends(saved[i], m'[i])
    {
      if i in lastActive {
        assert m[i] == saved[i];
      }
    }
    forall j | 0 <= j < |pilots| && pilots[j].id !in saved
      ensures CopiesPilot(m'[pilots[j].id], pilots[j]) && Fresh(m'[pilots[j].id])
    {
      assert pilots[j].id !in lastActive;
    }
  }

  // ---------------------------------------------------------------------------------------------
  // The engine
  // ---------------------------------------------------------------------------------------------

  datatype ImportOutcome =
    /** `updatedAt` equals the watermark: nothing was read or written. */
    | NoUpdate
    /** The pass was committed and the watermark advanced. */
    | Imported
    /** The commit failed (a store error, or a duplicate new session): the pass was rolled back. */
    | RolledBack
    /** A pilot record did not convert; nothing was committed. */
    | Aborted(error: ConversionError)

  class Tracker {
    /** The airport resolver, with its table and its memo. */
    const airportService: AirportService
    /** The global `last_snapshot` watermark. */
    var lastSnapshot: Time
    /** The PilotSession table, by id. */
    var sessions: map<int, PilotSession>
    /** The Aircraft table, which each pass loads as its aircraft list. */
    var aircraft: seq<Aircraft>
    /** The Snapshot table. */
    var snapshots: seq<Snapshot>
    /** How many passes called `ensure_db_partitions` before writing. */
    var partitionsEnsured: nat

    ghost predicate Valid()
      reads this, airportService
    {
      SessionsKeyed(sessions) && AircraftUnique(aircraft) && airportService.Valid()
    }

    function WorldOf(): World
      reads this`aircraft, airportService
    {
      World(airportService.State(), aircraft)
    }

    /** The module's state at import: the watermark is the start time. */
    constructor (airportService: AirportService, startedAt: Time,
                 sessions: map<int, PilotSession>, aircraft: seq<Aircraft>)
      requires airportService.Valid() && SessionsKeyed(sessions) && AircraftUnique(aircraft)
      ensures Valid()
      ensures this.airportService == airportService && lastSnapshot == startedAt
      ensures this.sessions == sessions && this.aircraft == aircraft && snapshots == [] && partitionsEnsured == 0
    {
      this.airportService := airportService;
      lastSnapshot := startedAt;
      this.sessions := sessions;
      this.aircraft := aircraft;
      snapshots := [];
      partitionsEnsured := 0;
    }

    /** `next((a for a in aircrafts if a.icaoCode == code), None)`. */
    method FindAircraft(code: string) returns (i: Option<nat>)
      ensures i.Some? ==> i.value < |aircraft| && aircraft[i.value].icaoCode == code
      ensures i.Some? ==> forall j :: 0 <= j < i.value ==> aircraft[j].icaoCode != code
      ensures i.None? <==> forall j :: 0 <= j < |aircraft| ==> aircraft[j].icaoCode != code
    {
      var k := 0;
      while k < |aircraft|
        invariant k <= |aircraft|
        invariant forall j :: 0 <= j < k ==> aircraft[j].icaoCode != code
      {
        if aircraft[k].icaoCode == code {
          return Some(k);
        }
        k := k + 1;
      }
      return None;
    }

    /** The aircraft step shared by `create_pilot_session` and `mergePilotSession`. */
    method ShareAircraft(fp: FlightPlan) returns (r: FlightPlan)
      modifies this`aircraft
      ensures (r, aircraft) == ShareSpec(fp, old(aircraft))
    {
      r := fp;
      if fp.aircraft.Some? && fp.aircraft.value.icaoCode != "" {
        var i := FindAircraft(fp.aircraft.value.icaoCode);
        assert i == FirstAircraft(aircraft, fp.aircraft.value.icaoCode);
        if i.Some? {
          r := fp.(aircraft := Some(aircraft[i.value]));
        } else {
          aircraft := aircraft + [fp.aircraft.value];
        }
      }
    }

    /** The loop over `airport_field_map`: resolve each truthy identifier and record the airport. */
    method ResolveAirports(fp: FlightPlan, now: Time) returns (r: FlightPlan)
      requires airportService.Valid()
      modifies airportService
      ensures airportService.Valid()
      ensures (airportService.State(), r)
              == ResolveFields(airportService.config, old(airportService.State()), fp, AirportFieldMap, now)
    {
      r := fp;
      var k := 0;
      while k < |AirportFieldMap|
        invariant k <= |AirportFieldMap|
        invariant airportService.Valid()
        invariant ResolveFields(airportService.config, old(airportService.State()), fp, AirportFieldMap, now)
                  == ResolveFields(airportService.config, airportService.State(), r, AirportFieldMap[k..], now)
      {
        var f := AirportFieldMap[k];
        assert AirportFieldMap[k..][1..] == AirportFieldMap[k + 1..];
        var id := AirportIdOf(r, f);
        if Truthy(id) {
          var a := airportService.Resolve(id.value, now);
          r := WithResolvedAirport(r, f, a.code);
        }
        k := k + 1;
      }
    }

    /** Share, then resolve: the handling of a plan that is new to its session. */
    method PreparePlanM(fp: FlightPlan, now: Time) returns (r: FlightPlan)
      requires AircraftUnique(aircraft) && airportService.Valid()
      modifies this`aircraft, airportService
      ensures AircraftUnique(aircraft) && airportService.Valid()
      ensures (WorldOf(), r) == PreparePlan(airportService.config, old(WorldOf()), fp, now)
    {
      r := ShareAircraft(fp);
      r := ResolveAirports(r, now);
    }

    /** `create_pilot_session`: the new session is the converted one, with its plans handled. */
    method CreatePilotSession(raw: PilotSession, now: Time) returns (s: PilotSession)
      requires AircraftUnique(aircraft) && airportService.Valid()
      modifies this`aircraft, airportService
      ensures AircraftUnique(aircraft) && airportService.Valid()
      ensures (WorldOf(), s.flightplans) == CreatedPlans(airportService.config, old(WorldOf()), raw.flightplans, now)
      ensures s == raw.(flightplans := s.flightplans)
    {
      var plans: seq<FlightPlan> := [];
      var k := 0;
      assert raw.flightplans[0..] == raw.flightplans;
      assert plans + CreatedPlans(airportService.config, WorldOf(), raw.flightplans, now).1
             == CreatedPlans(airportService.config, WorldOf(), raw.flightplans, now).1;
      while k < |raw.flightplans|
        invariant k <= |raw.flightplans|
        invariant AircraftUnique(aircraft) && airportService.Valid()
        invariant var rest := CreatedPlans(airportService.config, WorldOf(), raw.flightplans[k..], now);
                  CreatedPlans(airportService.config, old(WorldOf()), raw.flightplans, now) == (rest.0, plans + rest.1)
      {
        ghost var before := WorldOf();
        var fp := raw.flightplans[k];
        assert raw.flightplans[k..][0] == fp && raw.flightplans[k..][1..] == raw.flightplans[k + 1..];
        if fp.aircraft.Some? {
          fp := PreparePlanM(fp, now);
        }
        assert (WorldOf(), fp) == PrepareCreatedPlan(airportService.config, before, raw.flightplans[k], now);
        ghost var rest := CreatedPlans(airportService.config, WorldOf(), raw.flightplans[k + 1..], now);
        assert CreatedPlans(airportService.config, before, raw.flightplans[k..], now) == (rest.0, [fp] + rest.1);
        assert plans + ([fp] + rest.1) == (plans + [fp]) + rest.1;
        plans := plans + [fp];
        k := k + 1;
      }
      assert raw.flightplans[k..] == [] && plans + [] == plans;
      s := raw.(flightplans := plans);
    }

    /** `mergePilotSession` into the stored session `id`; `added` are the plans it appended. */
    method MergePilotSession(id: int, raw: PilotSession, now: Time) returns (added: seq<FlightPlan>)
      requires Valid() && id in sessions
      modifies this`sessions, this`aircraft, airportService
      ensures Valid()
      ensures (WorldOf(), added)
              == AddedPlans(airportService.config, old(WorldOf()), old(sessions)[id].flightplans, raw.flightplans, now)
      ensures sessions == old(sessions)[id := MergedSession(old(sessions)[id], raw, added)]
    {
      var s := sessions[id];
      var plans := s.flightplans;
      added := [];
      var k := 0;
      assert raw.flightplans[0..] == raw.flightplans;
      assert added + AddedPlans(airportService.config, WorldOf(), plans, raw.flightplans, now).1
             == AddedPlans(airportService.config, WorldOf(), plans, raw.flightplans, now).1;
      while k < |raw.flightplans|
        invariant k <= |raw.flightplans|
        invariant AircraftUnique(aircraft) && airportService.Valid()
        invariant sessions == old(sessions)
        invariant plans == s.flightplans + added
        invariant var rest := AddedPlans(airportService.config, WorldOf(), plans, raw.flightplans[k..], now);
                  AddedPlans(airportService.config, old(WorldOf()), s.flightplans, raw.flightplans, now)
                  == (rest.0, added + rest.1)
      {
        ghost var before := WorldOf();
        var fp := raw.flightplans[k];
        assert raw.flightplans[k..][0] == fp && raw.flightplans[k..][1..] == raw.flightplans[k + 1..];
        if fp.id !in PlanIds(plans) {
          fp := PreparePlanM(fp, now);
          ghost var rest := AddedPlans(airportService.config, WorldOf(), plans + [fp], raw.flightplans[k + 1..], now);
          assert AddedPlans(airportService.config, before, plans, raw.flightplans[k..], now) == (rest.0, [fp] + rest.1);
          assert added + ([fp] + rest.1) == (added + [fp]) + rest.1;
          plans := plans + [fp];
          added := added + [fp];
        }
        k := k + 1;
      }
      assert raw.flightplans[k..] == [] && added + [] == added;
      sessions := sessions[id := MergedSession(s, raw, added)];
    }
  
    /** The store during a pass (see `PassState`), with the tracker's invariant. */
    ghost predicate InPass(saved: map<int, PilotSession>, ids: set<int>, lastActive: set<int>, created: set<int>)
      reads this, airportService
    {
      Valid() && PassState(sessions, saved, ids, lastActive, created)
    }

    /** A previously active session is reported: merge into it and take it off the closing list. */
    method ReportMatched(jp: JsonPilot, raw: PilotSession, now: Time, ghost saved: map<int, PilotSession>,
                         ghost ids: set<int>, lastActive: set<int>, created: set<int>)
      requires ToPilotSession(jp) == Success(raw)
      requires InPass(saved, ids, lastActive, created) && jp.id in lastActive
      modifies this`sessions, this`aircraft, airportService
      ensures InPass(saved, ids + {jp.id}, lastActive - {jp.id}, created)
      ensures jp.id in saved
      ensures var r := MergeSpec(airportService.config, old(WorldOf()), old(sessions)[jp.id], raw, now);
              WorldOf() == r.0 && sessions == old(sessions)[jp.id := r.1]
    {
      ghost var before := sessions;
      var _ := MergePilotSession(jp.id, raw, now);
      PassMatched(before, saved, ids, lastActive, created, jp.id, sessions[jp.id]);
    }

    /**
     * A stored session that is not on the closing list and was not created by this pass is reported:
     * an inactive stored session, or one already reported earlier in the same snapshot. Set it
     * active and merge.
     */
    method ReportRevived(jp: JsonPilot, raw: PilotSession, now: Time, ghost saved: map<int, PilotSession>,
                         ghost ids: set<int>, lastActive: set<int>, created: set<int>)
      requires ToPilotSession(jp) == Success(raw)
      requires InPass(saved, ids, lastActive, created)
      requires jp.id !in lastActive && jp.id in sessions && jp.id !in created
      modifies this`sessions, this`aircraft, airportService
      ensures InPass(saved, ids + {jp.id}, lastActive, created)
      ensures jp.id in saved
      ensures var r := MergeSpec(airportService.config, old(WorldOf()), old(sessions)[jp.id].(isActive := true), raw, now);
              WorldOf() == r.0 && sessions == old(sessions)[jp.id := r.1]
    {
      ghost var before := sessions;
      sessions := sessions[jp.id := sessions[jp.id].(isActive := true)];
      var _ := MergePilotSession(jp.id, raw, now);
      ExtendsTransitive(before[jp.id], before[jp.id].(isActive := true), sessions[jp.id]);
      PassRevived(before, saved, ids, lastActive, created, jp.id, sessions[jp.id]);
    }

    /** No stored session can take the report: create one. */
    method ReportCreated(jp: JsonPilot, raw: PilotSession, now: Time, ghost saved: map<int, PilotSession>,
                         ghost ids: set<int>, lastActive: set<int>, created: set<int>)
      requires ToPilotSession(jp) == Success(raw)
      requires InPass(saved, ids, lastActive, created)
      requires jp.id !in lastActive && !(jp.id in sessions && jp.id !in created)
      modifies this`sessions, this`aircraft, airportService
      ensures InPass(saved, ids + {jp.id}, lastActive, created + {jp.id})
      ensures jp.id !in saved
      ensures var r := CreateSpec(airportService.config, old(WorldOf()), raw, now);
              WorldOf() == r.0 && sessions == old(sessions)[jp.id := r.1]
      ensures CopiesPilot(sessions[jp.id], jp) && Fresh(sessions[jp.id])
    {
      ghost var before := sessions;
      var newSession := CreatePilotSession(raw, now);
      PassCreated(before, saved, ids, lastActive, created, jp.id, newSession);
      sessions := sessions[jp.id := newSession];
    }

    /**
     * The body of the pilot loop: match a previously active session, else revive a stored one that
     * this pass did not create, else create one. `repeated` says a new id was created twice.
     */
    method ReportPilot(jp: JsonPilot, raw: PilotSession, now: Time, ghost saved: map<int, PilotSession>,
                       ghost ids: set<int>, lastActive: set<int>, created: set<int>)
      returns (lastActive': set<int>, created': set<int>, repeated: bool)
      requires ToPilotSession(jp) == Success(raw)
      requires InPass(saved, ids, lastActive, created)
      modifies this`sessions, this`aircraft, airportService
      ensures InPass(saved, ids + {jp.id}, lastActive', created')
      ensures repeated <==> jp.id !in saved && jp.id in ids
      ensures Pass(WorldOf(), sessions, lastActive', created')
              == ReportSpec(airportService.config, Pass(old(WorldOf()), old(sessions), lastActive, created), raw, now)
      ensures forall i :: i in old(sessions) && i != jp.id ==> sessions[i] == old(sessions)[i]
      ensures jp.id !in saved ==> CopiesPilot(sessions[jp.id], jp) && Fresh(sessions[jp.id])
    {
      lastActive' := lastActive;
      created' := created;
      repeated := false;
      if jp.id in lastActive {
        ReportMatched(jp, raw, now, saved, ids, lastActive, created);
        lastActive' := lastActive - {jp.id};
      } else if jp.id in sessions && jp.id !in created {
        ReportRevived(jp, raw, now, saved, ids, lastActive, created);
      } else {
        repeated := jp.id in created;
        ReportCreated(jp, raw, now, saved, ids, lastActive, created);
        created' := created + {jp.id};
      }
    }

    /** The closing loop: every session in `ids` becomes inactive, disconnected at `at`. */
    method CloseSessions(ids: set<int>, at: Time)
      requires Valid() && ids <= sessions.Keys
      modifies this`sessions
      ensures Valid()
      ensures sessions == CloseAll(old(sessions), ids, at)
    {
      var closing := ids;
      while closing != {}
        invariant closing <= ids
        invariant Valid()
        invariant sessions.Keys == old(sessions).Keys
        invariant forall i :: i in sessions ==>
                    sessions[i] == if i in ids - closing then Closed(old(sessions)[i], at) else old(sessions)[i]
        decreases closing
      {
        NonEmptyIds(closing);
        var i :| i in closing;
        sessions := sessions[i := Closed(sessions[i], at)];
        closing := closing - {i};
      }
      assert ids - closing == ids;
      assert forall i :: i in sessions ==> sessions[i] == CloseAll(old(sessions), ids, at)[i];
      assert sessions == CloseAll(old(sessions), ids, at);
    }

    /** The loop invariant of a pass: the first `k` pilots of `js` are handled. */
    ghost predicate PassProgress(js: JsonSnapshot, k: nat, saved: map<int, PilotSession>, lastActive: set<int>,
                                 created: set<int>, conflict: bool, reported: seq<int>)
      reads this, airportService
    {
      && k <= |js.pilots|
      && (forall j :: 0 <= j < k ==> PilotWellFormed(js.pilots[j]))
      && InPass(saved, ReportedIds(js.pilots[..k]), lastActive, created)
      && reported == PilotIds(js.pilots[..k])
      && (conflict <==> NewIdRepeated(js.pilots[..k], saved.Keys))
      && (!conflict ==> CreatedFromPilots(sessions, saved, js.pilots[..k]))
    }

    /** One iteration of the pilot loop, for a pilot record that converts. */
    method HandlePilot(js: JsonSnapshot, k: nat, raw: PilotSession, now: Time, ghost saved: map<int, PilotSession>,
                       lastActive: set<int>, created: set<int>, conflict: bool, reported: seq<int>)
      returns (lastActive': set<int>, created': set<int>, conflict': bool, reported': seq<int>)
      requires k < |js.pilots| && ToPilotSession(js.pilots[k]) == Success(raw)
      requires PassProgress(js, k, saved, lastActive, created, conflict, reported)
      modifies this`sessions, this`aircraft, airportService
      ensures PassProgress(js, k + 1, saved, lastActive', created', conflict', reported')
      ensures Pass(WorldOf(), sessions, lastActive', created')
              == ReportSpec(airportService.config, Pass(old(WorldOf()), old(sessions), lastActive, created), raw, now)
    {
      var jp := js.pilots[k];
      ReportStep(js.pilots, k, saved.Keys);
      ghost var before := sessions;
      var repeated;
      lastActive', created', repeated :=
        ReportPilot(jp, raw, now, saved, ReportedIds(js.pilots[..k]), lastActive, created);
      conflict' := conflict || repeated;
      reported' := reported + [jp.id];
      if !conflict' {
        CreatedStep(before, sessions, saved, js.pilots[..k], jp);
      }
    }

    /**
     * The pilot loop of a pass: handle every reported pilot in order, stopping at the first record
     * that does not convert.
     */
    method ReportAll(js: JsonSnapshot, now: Time)
      returns (failure: Option<ConversionError>, lastActive: set<int>, created: set<int>, conflict: bool, reported: seq<int>)
      requires Valid()
      modifies this`sessions, this`aircraft, airportService
      ensures Valid()
      ensures failure.None? <==> forall p :: p in js.pilots ==> PilotWellFormed(p)
      ensures failure.Some? ==>
                exists j :: 0 <= j < |js.pilots| && ToPilotSession(js.pilots[j]) == Failure(failure.value)
                            && forall i :: 0 <= i < j ==> PilotWellFormed(js.pilots[i])
      ensures failure.None? ==> PassProgress(js, |js.pilots|, old(sessions), lastActive, created, conflict, reported)
      ensures PassFrom(airportService.config, old(WorldOf()), old(sessions), js.pilots, now)
              == Pass(WorldOf(), sessions, lastActive, created)
    {
      lastActive := ActiveIds(sessions);
      created := {};
      conflict := false;
      reported := [];
      var k := 0;
      assert js.pilots[..0] == [] && js.pilots[0..] == js.pilots;
      while k < |js.pilots|
        invariant PassProgress(js, k, old(sessions), lastActive, created, conflict, reported)
        invariant PassFrom(airportService.config, old(WorldOf()), old(sessions), js.pilots, now)
                  == PassSpec(airportService.config, Pass(WorldOf(), sessions, lastActive, created), js.pilots[k..], now)
        decreases |js.pilots| - k
      {
        var converted := ToPilotSession(js.pilots[k]);
        if converted.Failure? {
          assert js.pilots[k..][0] == js.pilots[k];
          return Some(converted.error), lastActive, created, conflict, reported;
        }
        assert js.pilots[k..][0] == js.pilots[k] && js.pilots[k..][1..] == js.pilots[k + 1..];
        lastActive, created, conflict, reported :=
          HandlePilot(js, k, converted.value, now, old(sessions), lastActive, created, conflict, reported);
        k := k + 1;
      }
      assert js.pilots[..k] == js.pilots && js.pilots[k..] == [];
      failure := None;
    }

    /**
     * The body of the `try` in `import_ivao_snapshot`: handle every reported pilot in order, then
     * close the previously active sessions that were not reported. Stops at the first pilot record
     * that does not convert. `conflict` says a new id was created twice; `reported` are the ids
     * linked to the snapshot.
     */
    method RunPass(js: JsonSnapshot, now: Time)
      returns (failure: Option<ConversionError>, conflict: bool, reported: seq<int>)
      requires Valid()
      modifies this`sessions, this`aircraft, airportService
      ensures Valid()
      ensures failure.None? <==> forall p :: p in js.pilots ==> PilotWellFormed(p)
      ensures failure.Some? ==>
                exists j :: 0 <= j < |js.pilots| && ToPilotSession(js.pilots[j]) == Failure(failure.value)
                            && forall i :: 0 <= i < j ==> PilotWellFormed(js.pilots[i])
      ensures failure.None? ==> reported == PilotIds(js.pilots)
      ensures failure.None? ==> (conflict <==> NewIdRepeated(js.pilots, old(sessions).Keys))
      ensures failure.None? && !conflict ==> Reconciled(old(sessions), sessions, js.pilots, js.updatedAt)
      ensures WorldOf().resolver.known
              == PassFrom(airportService.config, old(WorldOf()), old(sessions), js.pilots, now).world.resolver.known
      ensures failure.None? ==>
                var p := PassFrom(airportService.config, old(WorldOf()), old(sessions), js.pilots, now);
                WorldOf() == p.world && sessions == CloseAll(p.sessions, p.lastActive, js.updatedAt)
    {
      var lastActive, created;
      failure, lastActive, created, conflict, reported := ReportAll(js, now);
      if failure.Some? {
        return;
      }
      assert js.pilots[..|js.pilots|] == js.pilots;
      // Close every previously active session the snapshot did not report.
      if !conflict {
        CloseCompletesPass(sessions, old(sessions), js.pilots, lastActive, created, js.updatedAt);
      }
      CloseSessions(lastActive, js.updatedAt);
    }

    /** `session.rollback()`: the store returns to the saved tables; the resolver's memo is kept. */
    method Rollback(savedSessions: map<int, PilotSession>, savedAircraft: seq<Aircraft>, savedAirports: seq<Airport>)
      requires Valid() && SessionsKeyed(savedSessions) && AircraftUnique(savedAircraft) && CodesUnique(savedAirports)
      modifies this`sessions, this`aircraft, airportService
      ensures Valid()
      ensures sessions == savedSessions && aircraft == savedAircraft
      ensures airportService.airports == savedAirports && airportService.known == old(airportService.known)
    {
      sessions := savedSessions;
      aircraft := savedAircraft;
      airportService.RestoreAirports(savedAirports);
    }

    /**
     * `import_ivao_snapshot` on an already decoded snapshot. `now` is the clock reading stamped on
     * placeholder airports; `commitOk` says whether the store accepts the commit. Whatever does not
     * commit leaves the store and the watermark as they were.
     */
    method ImportSnapshot(js: JsonSnapshot, now: Time, commitOk: bool) returns (outcome: ImportOutcome)
      requires Valid()
      modifies this, airportService
      ensures Valid()
      ensures outcome.NoUpdate? <==> js.updatedAt == old(lastSnapshot)
      ensures outcome.Aborted? <==>
                js.updatedAt != old(lastSnapshot) && exists p :: p in js.pilots && !PilotWellFormed(p)
      ensures outcome.Aborted? ==>
                exists j :: 0 <= j < |js.pilots| && ToPilotSession(js.pilots[j]) == Failure(outcome.error)
                            && forall i :: 0 <= i < j ==> PilotWellFormed(js.pilots[i])
      ensures outcome.Imported? <==>
                && js.updatedAt != old(lastSnapshot) && (forall p :: p in js.pilots ==> PilotWellFormed(p))
                && commitOk && !NewIdRepeated(js.pilots, old(sessions).Keys)
      ensures outcome.NoUpdate? ==>
                partitionsEnsured == old(partitionsEnsured) && airportService.known == old(airportService.known)
      ensures !outcome.NoUpdate? ==> partitionsEnsured == old(partitionsEnsured) + 1
      ensures !outcome.Imported? ==>
                && lastSnapshot == old(lastSnapshot) && sessions == old(sessions) && aircraft == old(aircraft)
                && snapshots == old(snapshots) && airportService.airports == old(airportService.airports)
      ensures outcome.Imported? ==>
                && lastSnapshot == js.updatedAt
                && snapshots == old(snapshots) + [ToSnapshot(js).(pilotSessions := PilotIds(js.pilots))]
                && Reconciled(old(sessions), sessions, js.pilots, js.updatedAt)
      ensures outcome.Imported? ==>
                var p := PassFrom(airportService.config, old(WorldOf()), old(sessions), js.pilots, now);
                && sessions == CloseAll(p.sessions, p.lastActive, js.updatedAt)
                && aircraft == p.world.cache && airportService.airports == p.world.resolver.airports
      ensures !outcome.NoUpdate? ==>
                airportService.known
                == PassFrom(airportService.config, old(WorldOf()), old(sessions), js.pilots, now).world.resolver.known
    {
      if js.updatedAt == lastSnapshot {
        return NoUpdate;
      }
      partitionsEnsured := partitionsEnsured + 1;
      var savedSessions := sessions;
      var savedAircraft := aircraft;
      var savedAirports := airportService.airports;
      var snap := ToSnapshot(js);
      var failure, conflict, reported := RunPass(js, now);
      if failure.Some? || conflict || !commitOk {
        Rollback(savedSessions, savedAircraft, savedAirports);
        if failure.Some? {
          return Aborted(failure.value);
        }
        return RolledBack;
      }
      snap := snap.(pilotSessions := reported);
      snapshots := snapshots + [snap];
      lastSnapshot := js.updatedAt;
      return Imported;
    }
  }

  /** How the reported ids, their order and the repeated-new-id condition grow with one more pilot. */
  lemma ReportStep(pilots: seq<JsonPilot>, k: nat, stored: set<int>)
    requires k < |pilots|
    ensures pilots[..k + 1] == pilots[..k] + [pilots[k]]
    ensures ReportedIds(pilots[..k + 1]) == ReportedIds(pilots[..k]) + {pilots[k].id}
    ensures PilotIds(pilots[..k + 1]) == PilotIds(pilots[..k]) + [pilots[k].id]
    ensures NewIdRepeated(pilots[..k + 1], stored) <==>
              NewIdRepeated(pilots[..k], stored) || (pilots[k].id !in stored && pilots[k].id in ReportedIds(pilots[..k]))
  {
    var before := pilots[..k];
    var after := pilots[..k + 1];
    assert after == before + [pilots[k]];
    if pilots[k].id !in stored && pilots[k].id in ReportedIds(before) {
      var p :| p in before && p.id == pilots[k].id;
      var i :| 0 <= i < k && before[i] == p;
      assert after[i].id == after[k].id;
    }
    if NewIdRepeated(after, stored) {
      var i, j :| 0 <= i < j < |after| && after[i].id == after[j].id && after[i].id !in stored;
      if j < k {
        assert before[i].id == before[j].id;
      } else {
        assert before[i] in before;
      }
    }
  }
}
