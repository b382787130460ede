/** Properties of the snapshot reconciliation rules. */
module IvaoProperties {
  import opened Wrappers
  import opened Constants
  import opened ConstantsProperties
  import opened Records
  import opened Conversion
  import opened Airports
  import opened Ivao

  // ---------------------------------------------------------------------------------------------
  // Milestones
  // ---------------------------------------------------------------------------------------------

  /**
   * The table records a milestone exactly for a step to the next phase in flight order, except
   * the step from the initial climb to en route.
   */
  lemma MilestonesFollowPhaseOrder(previous: State, next: State)
    ensures MilestoneOf(previous, next).Some? <==>
              PhaseIndex(next) == PhaseIndex(previous) + 1 && previous != InitialClimb
  {
  }

  /** A track changes at most one milestone: the one the table names for the phase step. */
  lemma AtMostOneMilestone(s: PilotSession, t: PilotTrack)
    ensures forall m :: MilestoneTime(ApplyTrack(s, t), m) != MilestoneTime(s, m) ==>
              LastState(s.tracks).Some? && MilestoneOf(LastState(s.tracks).value, t.state) == Some(m)
  {
  }

  /** The first track of a session, and a track that skips or repeats a phase, record nothing. */
  lemma NonAdjacentStepRecordsNothing(s: PilotSession, t: PilotTrack)
    requires LastState(s.tracks).None? || PhaseIndex(t.state) != PhaseIndex(LastState(s.tracks).value) + 1
    ensures forall m :: MilestoneTime(ApplyTrack(s, t), m) == MilestoneTime(s, m)
  {
    if LastState(s.tracks).Some? {
      MilestonesFollowPhaseOrder(LastState(s.tracks).value, t.state);
    }
  }

  /** The approach time is not guarded: a second approach overwrites the first one's time. */
  lemma ApproachTimeOverwritten(s: PilotSession, t: PilotTrack)
    requires LastState(s.tracks) == Some(EnRoute) && t.state == Approach
    ensures ApplyTrack(s, t).approachTime == Some(t.timestamp)
  {
    assert Fires(s, t, ApproachStart);
  }

  /** The takeoff time is stamped one minute before the first initial-climb track. */
  lemma TakeoffBackdated(s: PilotSession, t: PilotTrack)
    requires LastState(s.tracks) == Some(Departing) && t.state == InitialClimb && s.takeoffTime.None?
    ensures ApplyTrack(s, t).takeoffTime == Some(t.timestamp - OneMinute)
  {
    assert Fires(s, t, Takeoff);
  }

  /** The tracks of successive snapshots applied in order. */
  function ApplyTracks(s: PilotSession, ts: seq<PilotTrack>): PilotSession
    decreases |ts|
  {
    if |ts| == 0 then s else ApplyTracks(ApplyTrack(s, ts[0]), ts[1..])
  }

  /**
   * Over any run of tracks the session only grows: the tracks are appended in order and a taxi or
   * takeoff time, once recorded, is never replaced.
   */
  lemma {:induction false} ApplyTracksExtends(s: PilotSession, ts: seq<PilotTrack>)
    ensures ApplyTracks(s, ts).tracks == s.tracks + ts
    ensures Extends(s, ApplyTracks(s, ts))
    decreases |ts|
  {
    if |ts| > 0 {
      var s1 := ApplyTrack(s, ts[0]);
      ApplyTracksExtends(s1, ts[1..]);
      assert Extends(s, s1) by {
        assert MilestoneTime(s1, Taxi) == if Fires(s, ts[0], Taxi) then Some(MilestoneStamp(Taxi, ts[0])) else MilestoneTime(s, Taxi);
        assert MilestoneTime(s1, Takeoff) == if Fires(s, ts[0], Takeoff) then Some(MilestoneStamp(Takeoff, ts[0])) else MilestoneTime(s, Takeoff);
      }
      ExtendsTransitive(s, s1, ApplyTracks(s1, ts[1..]));
      assert s.tracks + [ts[0]] + ts[1..] == s.tracks + ts;
    } else {
      assert s.tracks + ts == s.tracks;
    }
  }

  // ---------------------------------------------------------------------------------------------
  // Plans
  // ---------------------------------------------------------------------------------------------

  lemma AllFieldsMapped(g: AirportField)
    ensures g in AirportFieldMap
  {
  }

  /**
   * The resolution loop resolves every field with a truthy identifier, leaves the other fields
   * alone, changes nothing else in the plan and keeps the resolver state valid.
   */
  lemma {:induction false} ResolveFieldsEffects(cfg: Config, s: ResolverState, fp: FlightPlan,
                                                fields: seq<AirportField>, now: Time)
    requires StateValid(s)
    ensures var (s', r) := ResolveFields(cfg, s, fp, fields, now);
      && StateValid(s')
      && WithoutAirports(r) == WithoutAirports(fp)
      && (forall g :: AirportIdOf(r, g) == AirportIdOf(fp, g))
      && (forall g :: g in fields && Truthy(AirportIdOf(fp, g)) ==> ResolvedAirportOf(r, g).Some?)
      && (forall g :: !(g in fields && Truthy(AirportIdOf(fp, g))) ==> ResolvedAirportOf(r, g) == ResolvedAirportOf(fp, g))
    decreases |fields|
  {
    if |fields| > 0 {
      var f := fields[0];
      var (s1, fp1) := ResolveField(cfg, s, fp, f, now);
      if Truthy(AirportIdOf(fp, f)) {
        ResolvePreservesValid(cfg, s, AirportIdOf(fp, f).value, now);
      }
      ResolveFieldsEffects(cfg, s1, fp1, fields[1..], now);
      assert forall g :: g in fields <==> g == f || g in fields[1..];
    }
  }

  /** What handling a plan does to it: the aircraft possibly shared, the airports resolved. */
  predicate Prepared(fp: FlightPlan, r: FlightPlan)
  {
    && WithoutAirports(r).(aircraft := fp.aircraft) == WithoutAirports(fp)
    && (r.aircraft.Some? <==> fp.aircraft.Some?)
    && (fp.aircraft.Some? ==> r.aircraft.value.icaoCode == fp.aircraft.value.icaoCode)
    && (forall g :: Truthy(AirportIdOf(fp, g)) ==> ResolvedAirportOf(r, g).Some?)
    && (forall g :: !Truthy(AirportIdOf(fp, g)) ==> ResolvedAirportOf(r, g) == ResolvedAirportOf(fp, g))
  }

  /** Handling a plan keeps the world valid, only adds to the aircraft cache, and prepares the plan. */
  lemma PreparePlanEffects(cfg: Config, w: World, fp: FlightPlan, now: Time)
    requires WorldValid(w)
    ensures var (w', r) := PreparePlan(cfg, w, fp, now);
      WorldValid(w') && w.cache <= w'.cache && Prepared(fp, r) && r.id == fp.id
  {
    var shared := ShareSpec(fp, w.cache);
    ResolveFieldsEffects(cfg, w.resolver, shared.0, AirportFieldMap, now);
    var r := PreparePlan(cfg, w, fp, now).1;
    assert forall g :: AirportIdOf(shared.0, g) == AirportIdOf(fp, g);
    assert forall g :: ResolvedAirportOf(shared.0, g) == ResolvedAirportOf(fp, g);
    forall g
      ensures g in AirportFieldMap
    {
      AllFieldsMapped(g);
    }
    assert WithoutAirports(r).id == r.id;
  }

  /** A plan of a new session: with an aircraft it is prepared, without one it is kept as reported. */
  predicate CreatedPlan(fp: FlightPlan, r: FlightPlan)
  {
    && r.id == fp.id
    && (fp.aircraft.Some? ==> Prepared(fp, r))
    && (fp.aircraft.None? ==> r == fp)
  }

  /** The plans of a new session, position by position. */
  predicate AllCreated(plans: seq<FlightPlan>, r: seq<FlightPlan>)
  {
    |r| == |plans| && forall i :: 0 <= i < |plans| ==> CreatedPlan(plans[i], r[i])
  }

  lemma AllCreatedCons(plans: seq<FlightPlan>, y: FlightPlan, r: seq<FlightPlan>)
    requires |plans| > 0 && CreatedPlan(plans[0], y) && AllCreated(plans[1..], r)
    ensures AllCreated(plans, [y] + r)
  {
    forall i | 1 <= i < |plans|
      ensures CreatedPlan(plans[i], ([y] + r)[i])
    {
      assert plans[i] == plans[1..][i - 1] && ([y] + r)[i] == r[i - 1];
    }
  }

  /**
   * A new session's plans keep their order and ids; a plan with an aircraft is prepared, and a plan
   * without one is kept as reported, its airports left unresolved.
   */
  lemma {:induction false} CreatedPlansEffects(cfg: Config, w: World, plans: seq<FlightPlan>, now: Time)
    requires WorldValid(w)
    ensures var (w', r) := CreatedPlans(cfg, w, plans, now);
      WorldValid(w') && w.cache <= w'.cache && AllCreated(plans, r)
    decreases |plans|
  {
    if |plans| > 0 {
      var first := PrepareCreatedPlan(cfg, w, plans[0], now);
      if plans[0].aircraft.Some? {
        PreparePlanEffects(cfg, w, plans[0], now);
      }
      CreatedPlansEffects(cfg, first.0, plans[1..], now);
      AllCreatedCons(plans, first.1, CreatedPlans(cfg, first.0, plans[1..], now).1);
    }
  }

  function PlanIdsDistinct(plans: seq<FlightPlan>): bool
  {
    forall i, j :: 0 <= i < j < |plans| ==> plans[i].id != plans[j].id
  }

  lemma PlanIdsAppend(a: seq<FlightPlan>, b: seq<FlightPlan>)
    ensures PlanIds(a + b) == PlanIds(a) + PlanIds(b)
  {
    forall x | x in PlanIds(a + b)
      ensures x in PlanIds(a) + PlanIds(b)
    {
      var p :| p in a + b && p.id == x;
    }
    forall x | x in PlanIds(a) + PlanIds(b)
      ensures x in PlanIds(a + b)
    {
      if x in PlanIds(a) {
        var p :| p in a && p.id == x;
        assert p in a + b;
      } else {
        var p :| p in b && p.id == x;
        assert p in a + b;
      }
    }
  }

  lemma PlanIdsCons(plans: seq<FlightPlan>)
    requires |plans| > 0
    ensures PlanIds(plans) == {plans[0].id} + PlanIds(plans[1..])
  {
    assert plans == [plans[0]] + plans[1..];
    PlanIdsAppend([plans[0]], plans[1..]);
  }

  /** `p` is the prepared form of a reported plan with its id. */
  predicate FromIncoming(incoming: seq<FlightPlan>, p: FlightPlan)
  {
    exists k :: 0 <= k < |incoming| && incoming[k].id == p.id && Prepared(incoming[k], p)
  }

  /**
   * The plans `r` a merge appends to `existing`: each has an id the session did not hold, no two
   * share an id, together with the session's plans they cover every reported plan id, and each is
   * the prepared form of a reported plan.
   */
  predicate AddedFacts(existing: seq<FlightPlan>, incoming: seq<FlightPlan>, r: seq<FlightPlan>)
  {
    && PlanIds(existing + r) == PlanIds(existing) + PlanIds(incoming)
    && (forall p :: p in r ==> p.id !in PlanIds(existing))
    && PlanIdsDistinct(r)
    && (forall p :: p in r ==> FromIncoming(incoming, p))
  }

  lemma FromTail(incoming: seq<FlightPlan>, p: FlightPlan)
    requires |incoming| > 0 && FromIncoming(incoming[1..], p)
    ensures FromIncoming(incoming, p)
  {
    var k :| 0 <= k < |incoming[1..]| && incoming[1..][k].id == p.id && Prepared(incoming[1..][k], p);
    assert incoming[k + 1] == incoming[1..][k];
  }

  /** A reported plan whose id the session holds is skipped. */
  lemma AddedSkip(existing: seq<FlightPlan>, incoming: seq<FlightPlan>, r: seq<FlightPlan>)
    requires |incoming| > 0 && incoming[0].id in PlanIds(existing)
    requires AddedFacts(existing, incoming[1..], r)
    ensures AddedFacts(existing, incoming, r)
  {
    PlanIdsCons(incoming);
    forall p | p in r
      ensures FromIncoming(incoming, p)
    {
      FromTail(incoming, p);
    }
  }

  /** The ids after appending a plan with a new id. */
  lemma AddedStepIds(existing: seq<FlightPlan>, incoming: seq<FlightPlan>, first: FlightPlan, rest: seq<FlightPlan>)
    requires |incoming| > 0 && first.id == incoming[0].id
    requires PlanIds(existing + [first] + rest) == PlanIds(existing + [first]) + PlanIds(incoming[1..])
    ensures PlanIds(existing + ([first] + rest)) == PlanIds(existing) + PlanIds(incoming)
  {
    PlanIdsCons(incoming);
    PlanIdsAppend(existing, [first]);
    assert PlanIds([first]) == {first.id};
    assert existing + ([first] + rest) == existing + [first] + rest;
  }

  /** A plan with a new id followed by plans with ids new to it keeps the appended ids distinct. */
  lemma AddedStepDistinct(existing: seq<FlightPlan>, first: FlightPlan, rest: seq<FlightPlan>)
    requires PlanIdsDistinct(rest)
    requires forall p :: p in rest ==> p.id !in PlanIds(existing + [first])
    ensures PlanIdsDistinct([first] + rest)
  {
    var r := [first] + rest;
    assert first in existing + [first];
    forall i, j | 0 <= i < j < |r|
      ensures r[i].id != r[j].id
    {
      if i == 0 {
        assert r[j] == rest[j - 1] && rest[j - 1] in rest;
      } else {
        assert r[i] == rest[i - 1] && r[j] == rest[j - 1];
      }
    }
  }

  /** A reported plan with a new id is prepared and appended. */
  lemma AddedStep(existing: seq<FlightPlan>, incoming: seq<FlightPlan>, first: FlightPlan, rest: seq<FlightPlan>)
    requires |incoming| > 0 && incoming[0].id !in PlanIds(existing)
    requires first.id == incoming[0].id && Prepared(incoming[0], first)
    requires AddedFacts(existing + [first], incoming[1..], rest)
    ensures AddedFacts(existing, incoming, [first] + rest)
  {
    var r := [first] + rest;
    AddedStepIds(existing, incoming, first, rest);
    AddedStepDistinct(existing, first, rest);
    PlanIdsAppend(existing, [first]);
    forall p | p in r
      ensures p.id !in PlanIds(existing) && FromIncoming(incoming, p)
    {
      if p == first {
        assert incoming[0].id == p.id && Prepared(incoming[0], p);
      } else {
        assert p in rest;
        FromTail(incoming, p);
      }
    }
  }

  /** The plans a merge appends, and the world it leaves valid. */
  lemma {:induction false} AddedPlansEffects(cfg: Config, w: World, existing: seq<FlightPlan>,
                                             incoming: seq<FlightPlan>, now: Time)
    requires WorldValid(w)
    ensures var (w', r) := AddedPlans(cfg, w, existing, incoming, now);
      WorldValid(w') && w.cache <= w'.cache && AddedFacts(existing, incoming, r)
    decreases |incoming|
  {
    if |incoming| == 0 {
      assert existing + [] == existing;
    } else if incoming[0].id in PlanIds(existing) {
      AddedPlansEffects(cfg, w, existing, incoming[1..], now);
      AddedSkip(existing, incoming, AddedPlans(cfg, w, existing, incoming[1..], now).1);
    } else {
      var first := PreparePlan(cfg, w, incoming[0], now);
      PreparePlanEffects(cfg, w, incoming[0], now);
      AddedPlansEffects(cfg, first.0, existing + [first.1], incoming[1..], now);
      AddedStep(existing, incoming, first.1, AddedPlans(cfg, first.0, existing + [first.1], incoming[1..], now).1);
    }
  }

  /** A session's plan ids stay distinct across merges. */
  lemma MergeKeepsPlanIdsDistinct(cfg: Config, w: World, existing: seq<FlightPlan>,
                                  incoming: seq<FlightPlan>, now: Time)
    requires WorldValid(w) && PlanIdsDistinct(existing)
    ensures PlanIdsDistinct(existing + AddedPlans(cfg, w, existing, incoming, now).1)
  {
    AddedPlansEffects(cfg, w, existing, incoming, now);
    var r := AddedPlans(cfg, w, existing, incoming, now).1;
    var all := existing + r;
    forall i, j | 0 <= i < j < |all|
      ensures all[i].id != all[j].id
    {
      if j >= |existing| {
        assert all[j] == r[j - |existing|] && all[j] in r;
        if i < |existing| {
          assert all[i] in existing;
        } else {
          assert all[i] == r[i - |existing|];
        }
      }
    }
  }

  /** Reporting only plans the session already holds appends nothing and touches nothing. */
  lemma {:induction false} MergeOfKnownPlansAddsNothing(cfg: Config, w: World, existing: seq<FlightPlan>,
                                                        incoming: seq<FlightPlan>, now: Time)
    requires PlanIds(incoming) <= PlanIds(existing)
    ensures AddedPlans(cfg, w, existing, incoming, now) == (w, [])
    decreases |incoming|
  {
    if |incoming| > 0 {
      PlanIdsCons(incoming);
      MergeOfKnownPlansAddsNothing(cfg, w, existing, incoming[1..], now);
    }
  }

  /** Merging the same report again appends no plan. */
  lemma RemergeAddsNothing(cfg: Config, w: World, existing: seq<FlightPlan>, incoming: seq<FlightPlan>,
                           now1: Time, now2: Time)
    requires WorldValid(w)
    ensures var (w', added) := AddedPlans(cfg, w, existing, incoming, now1);
      AddedPlans(cfg, w', existing + added, incoming, now2) == (w', [])
  {
    AddedPlansEffects(cfg, w, existing, incoming, now1);
    var (w', added) := AddedPlans(cfg, w, existing, incoming, now1);
    MergeOfKnownPlansAddsNothing(cfg, w', existing + added, incoming, now2);
  }

  // ---------------------------------------------------------------------------------------------
  // A committed pass
  // ---------------------------------------------------------------------------------------------

  /**
   * After a committed pass exactly the reported pilots have active sessions, and every session the
   * pass closed is disconnected at the snapshot time.
   */
  lemma ReconciledActiveSessions(before: map<int, PilotSession>, after: map<int, PilotSession>,
                                 pilots: seq<JsonPilot>, at: Time)
    requires Reconciled(before, after, pilots, at)
    ensures ActiveIds(after) == ReportedIds(pilots)
    ensures forall i :: i in ActiveIds(before) && i !in ReportedIds(pilots) ==> after[i].disconnectTime == Some(at)
  {
    forall i | i in after && i !in ReportedIds(pilots)
      ensures !after[i].isActive
    {
      assert i in before;
    }
  }

  /** A committed pass never removes a session and keeps a stored session's plans and tracks. */
  lemma ReconciledKeepsHistory(before: map<int, PilotSession>, after: map<int, PilotSession>,
                               pilots: seq<JsonPilot>, at: Time)
    requires Reconciled(before, after, pilots, at)
    ensures before.Keys <= after.Keys
    ensures forall i :: i in before ==>
              before[i].flightplans <= after[i].flightplans && before[i].tracks <= after[i].tracks
  {
  }

  /** A snapshot reporting one pilot whose record converts runs one iteration of the pilot loop. */
  lemma SinglePilotPass(cfg: Config, w: World, m: map<int, PilotSession>, jp: JsonPilot, now: Time)
    requires PilotWellFormed(jp)
    ensures PassFrom(cfg, w, m, [jp], now) == ReportSpec(cfg, Pass(w, m, ActiveIds(m), {}), ToPilotSession(jp).value, now)
  {
    var p0 := Pass(w, m, ActiveIds(m), {});
    assert [jp][0] == jp && [jp][1..] == [];
    assert PassSpec(cfg, p0, [jp], now) == PassSpec(cfg, ReportSpec(cfg, p0, ToPilotSession(jp).value, now), [], now);
  }

  /**
   * The end-to-end taxi scenario: a stored active session whose last track is boarding, reported by
   * the next snapshot with a departing track, gets that track's timestamp as its taxi time.
   */
  lemma SecondSnapshotStampsTaxi(cfg: Config, w: World, m: map<int, PilotSession>, jp: JsonPilot, now: Time, at: Time)
    requires jp.id in m && m[jp.id].isActive
    requires LastState(m[jp.id].tracks) == Some(Boarding) && m[jp.id].taxiTime.None?
    requires PilotWellFormed(jp) && jp.lastTrack.Some? && ParseState(jp.lastTrack.value.state) == Some(Departing)
    ensures var p := PassFrom(cfg, w, m, [jp], now);
      && jp.id in p.sessions && jp.id !in p.lastActive
      && CloseAll(p.sessions, p.lastActive, at)[jp.id].taxiTime == Some(jp.lastTrack.value.timestamp)
  {
    var raw := ToPilotSession(jp).value;
    var t := raw.tracks[0];
    ParseStateValue(t.state);
    assert t.state == Departing && t.timestamp == jp.lastTrack.value.timestamp;
    assert jp.id in ActiveIds(m);
    SinglePilotPass(cfg, w, m, jp, now);
    assert Fires(m[jp.id], t, Taxi);
    var merged := MergeSpec(cfg, w, m[jp.id], raw, now).1;
    assert MilestoneTime(merged, Taxi) == Some(MilestoneStamp(Taxi, t));
  }
}
