# ivao_tracker in Dafny

A model of the core of ivao_tracker. The tracker polls the IVAO network's "whazzup" snapshot and keeps a history of pilot sessions in a database. The model has four parts:

- **The snapshot reconciliation engine** (`ivao_tracker/service/ivao.py`) is the class `Ivao.Tracker`. Its fields are:
  - the `last_snapshot` watermark;
  - the PilotSession table, as a map from session id to record;
  - the Aircraft table;
  - the Snapshot table;
  - the airport resolver it calls into.

  `ImportSnapshot` runs one import:
  - it skips a snapshot that carries the watermark's time;
  - it converts and handles each reported pilot in order. Each pilot matches a previously active session, revives a stored one, or gets a new one;
  - merging appends new flight plans by plan id and the first reported track;
  - it fires at most one flight-phase milestone;
  - it shares aircraft by ICAO code and resolves the plan's airport fields;
  - it closes every previously active session that was not reported;
  - it commits all of this, or on failure restores the store and keeps the watermark.

  The pure rules it applies are functions in module `Ivao`:
  - `ApplyTrack` (the milestone transition table);
  - `ShareSpec` (aircraft sharing);
  - `ResolveFields` (the airport field loop);
  - `CreatedPlans` and `AddedPlans` (plan handling on create and on merge);
  - `MergedSession`, `MergeSpec` and `CreateSpec` (one session merged or created);
  - `ReportSpec` and `PassSpec` (one iteration of the pilot loop, and the whole loop);
  - `CloseAll`;
  - `Reconciled` (what a committed pass leaves behind).

  Each method of the class is proved equal to the corresponding function: the merge, create and report methods to `MergeSpec`, `CreateSpec` and `ReportSpec`, and a committed `ImportSnapshot` leaves exactly the store of `PassFrom` followed by `CloseAll`. On every outcome except "no update", the resolver's memo is the one `PassFrom` leaves. `PassFrom` stops before the first pilot that does not convert, so an aborted or rolled-back import keeps what the pass memoized up to that point. The methods also keep the invariant behind `Reconciled`. Module `IvaoProperties` proves the properties of those functions.
- **The airport identity resolver** (`ivao_tracker/service/airport.py`) is the class `Airports.AirportService`. It holds:
  - the Airport table, as a sequence in the order the store returns rows;
  - the `known_airports` memo;
  - the configuration (`correct_airport_codes`, `airport_fix_map`).

  `Resolve` tries the tiers in order:
  1. the primary key `code`;
  2. `gps_code`;
  3. `local_code`;
  4. the fix map;
  5. a whole keyword token among the rows whose keywords contain the identifier;
  6. otherwise a placeholder ("dummy") airport.

  On tiers 2-5 it rewrites the row's code only when the code is not known to be correct and the row is neither used nor already fixed. It is proved equal to the pure `ResolveSpec`. `Lookup` answers which tier hits, and its contract states tier precedence as if-and-only-if conditions. The airport reference sync (`SyncAirports`) splits the CSV rows into inserts and updates and keeps every row's code. The module `AirportProperties` holds the lemmas about these.
- **Feed-to-record conversion** (`ivao_tracker/util/model.py`) is module `Conversion`. It has pure constructors that return a `Result`, which fails on an unknown enum string. Module `ConversionProperties` proves round trips.
- **The enumerations** (`ivao_tracker/model/constants.py`) are module `Constants`, with partial parse functions. Module `ConstantsProperties` proves exact membership and round trips.

Modelling conventions:
- Datetimes are integer microseconds. The 1 µs tolerance of the watermark test is therefore equality, and "one minute" is 60 000 000.
- A resolved airport is recorded in a plan by its code, which is the Airport table's primary key.
- Names the source imports but which are not part of this model are inferred from their uses:
  - `FixOrigin`;
  - `airport_fix_map` and `correct_airport_codes` (the `Config` record);
  - `airport_field_map`, taken as departure, arrival, alternative, alternative 2;
  - the `Airport` table's columns.
- `ivao.py` imports `json_to_sql_snapshot`, but `util/model.py` defines `json2sqlSnapshot`; both are `Conversion.ToSnapshot`.

The model follows the code where the code's behaviour is easy to overlook:
- Only the taxi and takeoff times are write-once. The approach, landing and on-blocks times are overwritten on every matching phase step.
- The takeoff time is backdated by one minute.
- `create_pilot_session` resolves a plan's airports only when the plan has an aircraft. `mergePilotSession` always resolves them.
- A revived session keeps its old `disconnectTime`.
- When keyword candidates exist but none has the identifier as a token, the last candidate is returned, marked used and memoized.
- The same new pilot id reported twice in one snapshot makes the commit fail. `session.get` does not see the session created earlier in the pass, so a second session with the same key is added.

## Model

| member | source | states |
|---|---|---|
| Constants.ParseState | ivao_tracker/model/constants.py:4-11 | parsing succeeds exactly on a member's value and yields that member |
| Constants.PhaseIndex | ivao_tracker/model/constants.py:4-11 | each phase has a position in the flight order |
| Constants.ParseTransponderMode | ivao_tracker/model/constants.py:14-17 | parsing accepts exactly "N", "S", "Y", each yielding the member with that value |
| Constants.ParseWakeTurbulence | ivao_tracker/model/constants.py:20-24 | parsing accepts exactly "H", "J", "L", "M", each yielding the member with that value |
| ConstantsProperties.PhasesEnumerateState | ivao_tracker/model/constants.py:4-11 | State has exactly seven members with pairwise distinct values |
| ConstantsProperties.ParseStateValue | ivao_tracker/model/constants.py:4-11 | value-then-parse is the identity on State |
| ConstantsProperties.ParseTransponderModeValue | ivao_tracker/model/constants.py:14-17 | value-then-parse is the identity on TransponderMode |
| ConstantsProperties.ParseWakeTurbulenceValue | ivao_tracker/model/constants.py:20-24 | value-then-parse is the identity on WakeTurbulence |
| Conversion.ToSnapshot | ivao_tracker/util/model.py:17-31 | the snapshot keeps `updatedAt` and the seven counters and has no linked sessions |
| Conversion.ToAircraft | ivao_tracker/util/model.py:81-91 | succeeds iff the wake category parses; the aircraft maps back to the feed record; otherwise fails naming the string |
| Conversion.ToTrack | ivao_tracker/util/model.py:45-59 | succeeds iff state and transponder mode parse; the track maps back to the feed record; the state error comes first |
| Conversion.ToFlightPlan | ivao_tracker/util/model.py:94-121 | carries the plan id, the owning session id and the given aircraft; maps back to the feed plan; no airport resolved |
| Conversion.ToPilotSession | ivao_tracker/util/model.py:34-78 | succeeds iff every enum string parses; the session has the pilot's fields, is active, has no milestone, one plan iff the pilot has one, one track iff `lastTrack` is present; the plan's aircraft is present iff the feed's is; a wake error is reported |
| ConversionProperties.AircraftRoundTrip | ivao_tracker/util/model.py:81-91 | converting an aircraft's feed form gives the aircraft back |
| ConversionProperties.TrackRoundTrip | ivao_tracker/util/model.py:45-59 | converting a track's feed form gives the track back |
| Airports.TokenFrom | ivao_tracker/service/airport.py:373-375 | the scan from a position finds a token iff one starts at or after it |
| Airports.AirportIdIsInKeywords | ivao_tracker/service/airport.py:373-375 | true iff the id occurs preceded by start, whitespace, ',' or ';' and followed by whitespace, ',', ';' or end |
| Airports.FirstWith | ivao_tracker/service/airport.py:206-209 | the first row whose column equals the value; none iff no row has it |
| Airports.CandidatesFrom | ivao_tracker/service/airport.py:312-316 | the rows from a position whose keywords contain the id, in table order, all of them |
| Airports.KeywordCandidates | ivao_tracker/service/airport.py:312-316 | the LIKE result: exactly the rows whose keywords contain the id, in table order |
| Airports.FirstTokenCandidate | ivao_tracker/service/airport.py:318-320 | the first candidate whose keywords hold the id as a token; none iff no candidate does |
| Airports.FirstTokenCandidateAt | ivao_tracker/service/airport.py:318-320 | a token candidate preceded only by non-token candidates is the one found |
| Airports.TokenImpliesLike | ivao_tracker/service/airport.py:314-320 | a token match is also a LIKE match |
| Airports.FirstTokenRow | ivao_tracker/service/airport.py:318-348 | no row before the first token candidate has a token |
| Airports.NoTokenRow | ivao_tracker/service/airport.py:318-348 | when no candidate has a token, no row of the table has one |
| Airports.LastCandidateRow | ivao_tracker/service/airport.py:318 | no row after the last candidate matches LIKE |
| Airports.Lookup | ivao_tracker/service/airport.py:203-360 | tier precedence as if-and-only-if conditions (code, gps_code, local_code, fix map, token, last LIKE candidate, nothing) and the facts about the row each tier returns |
| Airports.KeywordTier | ivao_tracker/service/airport.py:311-348 | the keyword tier: first token row, else the last LIKE candidate, else nothing |
| Airports.ScanCandidates | ivao_tracker/service/airport.py:318-348 | the candidate loop returns the first candidate holding the id as a token, else the last candidate, else nothing |
| Airports.FixCode | ivao_tracker/service/airport.py:212-237 | a guarded row gets the id as code, is marked fixed with the origin, and keeps every other field; an unguarded one is unchanged; the result is protected |
| Airports.DummyAirport | ivao_tracker/service/airport.py:351-359 | a placeholder with code and ident the id, fixed, origin DUMMY |
| Airports.ReplaceKeepsCodesUnique | ivao_tracker/service/airport.py:225 | rewriting a code to one no row has keeps the primary key unique |
| Airports.AppendKeepsCodesUnique | ivao_tracker/service/airport.py:351-360 | adding a row with a code no row has keeps the primary key unique |
| Airports.ResolvePreservesValid | ivao_tracker/service/airport.py:195-370 | a resolution keeps codes unique and the memo made of used airports |
| Airports.ApplyHitPreservesValid | ivao_tracker/service/airport.py:203-370 | acting on a sound lookup answer keeps codes unique and the memo made of used airports |
| Airports.MaxLastUpdated | ivao_tracker/service/airport.py:41-43 | the maximum `last_updated` of the table, none iff every row lacks one |
| Airports.NewRows | ivao_tracker/service/airport.py:49 | never more rows than the CSV; which rows, how often and in what order are stated by `NewRowsCount` and `NewRowsAppend` |
| Airports.UpdatedRows | ivao_tracker/service/airport.py:52-58 | never more rows than the CSV; which rows, how often and in what order are stated by `UpdatedRowsCount` and `UpdatedRowsAppend` |
| Airports.NewAirport | ivao_tracker/service/airport.py:114-139 | an inserted airport's code and ident are the CSV ident and it carries the reference id |
| Airports.UpdatedAirport | ivao_tracker/service/airport.py:164-189 | an update takes ident, gps_code, icao_code, iata_code, local_code, keywords, last_updated and the other columns from the CSV row, and keeps code, reference id and the resolver flags |
| Airports.FirstWithRowId | ivao_tracker/service/airport.py:151-153 | the first row with the reference id; none iff no row has it |
| Airports.CreateNewAirports | ivao_tracker/service/airport.py:105-144 | one new airport per CSV row, in order |
| Airports.AirportService.constructor | ivao_tracker/service/airport.py:28 | the resolver starts with an empty memo |
| Airports.AirportService.RewriteRow | ivao_tracker/service/airport.py:224-227 | the row becomes its guarded fix and nothing else changes |
| Airports.AirportService.FindRow | ivao_tracker/service/airport.py:203-348 | the tier search finds the `Lookup` hit |
| Airports.AirportService.FindByKeywords | ivao_tracker/service/airport.py:311-348 | the keyword query and its loop give the keyword tier's answer on the LIKE candidates |
| Airports.AirportService.MarkUsed | ivao_tracker/service/airport.py:367-370 | the row is marked used and memoized under the id |
| Airports.AirportService.ApplyHitM | ivao_tracker/service/airport.py:203-368 | acting on a tier's hit (mark used, rewrite the code, or add a placeholder) leaves the state and airport of `ApplyHit` |
| Airports.AirportService.Resolve | ivao_tracker/service/airport.py:195-370 | the state and the airport are those of `ResolveSpec`; the resolver stays valid |
| Airports.AirportService.RestoreAirports | ivao_tracker/service/ivao.py:128-130 | a rollback restores the table and leaves the memo as it is |
| Airports.AirportService.UpdateAirports | ivao_tracker/service/airport.py:147-192 | the rows are updated in order; it fails iff a reference id is missing, naming one no row has; codes and reference ids kept |
| Airports.AirportService.ApplySync | ivao_tracker/service/airport.py:62-69 | update, add and commit on given row lists: the same three outcomes and new table as `SyncAirports` |
| Airports.AirportService.SyncAirports | ivao_tracker/service/airport.py:31-69 | fails with a missing airport iff updating the newer stored rows fails, with a duplicate code iff the updated table plus the new airports repeats a code, and otherwise leaves the updated table followed by the new airports in CSV order; a failure changes nothing; no stored code changes |
| AirportProperties.TokenBetweenSeparators | ivao_tracker/service/airport.py:373-375 | an id between two separators is found, whatever surrounds them |
| AirportProperties.WholeKeywordsIsToken | ivao_tracker/service/airport.py:373-375 | keywords equal to the id hold it as a token |
| AirportProperties.TokenExamples | ivao_tracker/service/airport.py:373-375 | "EDDF" is in "Frankfurt, EDDF" and "EDDF;Rhein-Main"; "EDD" and "DDF" are not in "EDDF" |
| AirportProperties.ApplyHitRowEffects | ivao_tracker/service/airport.py:203-368 | acting on a hit changes at most the hit row; a code changes only under the guard, to the id, fixed; the table grows by one exactly when nothing matched |
| AirportProperties.ResolveRowEffects | ivao_tracker/service/airport.py:203-368 | only the found row changes; a code changes only under the guard, to the id, fixed; the table grows by one exactly when nothing matched |
| AirportProperties.ResolveResultProtected | ivao_tracker/service/airport.py:212-238 | every airport handed out is protected from a later rewrite |
| AirportProperties.ApplyHitMemo | ivao_tracker/service/airport.py:199-368 | after a hit the id is memoized iff the hit is tier 1, the keyword fallback or a placeholder; then the row is used and holds the memoized airport, else the memo is unchanged |
| AirportProperties.ResolveMemoizes | ivao_tracker/service/airport.py:199-200 | a memo hit returns the memoized airport and changes nothing; otherwise the id is memoized iff the hit is tier 1, the keyword fallback or a placeholder |
| AirportProperties.UnresolvableCreatesDummy | ivao_tracker/service/airport.py:351-368 | an unresolvable id adds a used placeholder stamped with the clock and memoizes it |
| AirportProperties.CodeRowHit | ivao_tracker/service/airport.py:203-209 | with unique codes, a row whose code is the id is the tier-1 hit |
| AirportProperties.FixedRowResolvesAgain | ivao_tracker/service/airport.py:203-209 | an id whose row already carries it as code resolves to that code without adding a row |
| AirportProperties.UnmemoizedIgnoresClock | ivao_tracker/service/airport.py:211-348 | a hit on tiers 2-5 that is not memoized does not depend on the clock |
| AirportProperties.UnfixedHitKeepsState | ivao_tracker/service/airport.py:211-238 | a tier 2-5 hit on a row the guard protects changes nothing and hands out the row |
| AirportProperties.TwiceAfterNoChange | ivao_tracker/service/airport.py:211-348 | after a hit that changed nothing, resolving the id again gives the same answer |
| AirportProperties.TwiceAfterFix | ivao_tracker/service/airport.py:212-237 | after a guarded rewrite, resolving the id again hits tier 1 and gives the same code |
| AirportProperties.TwiceAfterUnmemoized | ivao_tracker/service/airport.py:211-348 | after an unmemoized hit, resolving the id again gives the same code and adds no row |
| AirportProperties.ResolveTwiceSameCode | ivao_tracker/service/airport.py:195-370 | resolving the same id again gives the same code and no second placeholder |
| AirportProperties.SyncSplit | ivao_tracker/service/airport.py:46-58 | every CSV row is an insert iff its ident is new; a stored ident is an update iff it is newer than the maximum; no row is both |
| AirportProperties.NewRowsCons | ivao_tracker/service/airport.py:49 | the insert filter on a row followed by others keeps the row iff its ident is new |
| AirportProperties.NewRowsAppend | ivao_tracker/service/airport.py:49 | the insert filter keeps CSV order: it distributes over concatenation |
| AirportProperties.UpdatedRowsCons | ivao_tracker/service/airport.py:52-58 | the update filter on a row followed by others keeps the row iff it is stored and newer |
| AirportProperties.UpdatedRowsAppend | ivao_tracker/service/airport.py:52-58 | the update filter keeps CSV order: it distributes over concatenation |
| AirportProperties.NewRowsCount | ivao_tracker/service/airport.py:49 | each row with a new ident occurs among the inserts exactly as often as in the CSV, and no other row does |
| AirportProperties.UpdatedRowsCount | ivao_tracker/service/airport.py:52-58 | each stored, newer row occurs among the updates exactly as often as in the CSV, and no other row does |
| AirportProperties.UpdateAllKeepsResolverColumns | ivao_tracker/service/airport.py:164-189 | a sync update keeps each row's code, reference id and resolver flags |
| AirportProperties.UpdateAllFailsIffMissing | ivao_tracker/service/airport.py:151-166 | the update fails exactly when some row's reference id is not stored |
| Records.WithResolvedAirport | ivao_tracker/service/ivao.py:158-164 | setting one airport field changes only that field |
| Ivao.ApplyTrack | ivao_tracker/service/ivao.py:208-244 | the track is appended; each milestone takes its stamp exactly when the transition table names it and, if write-once, it is unset; nothing else changes |
| Ivao.FirstAircraft | ivao_tracker/service/ivao.py:145-152 | the first cached aircraft with the code; none iff no cached one has it |
| Ivao.ShareSpec | ivao_tracker/service/ivao.py:142-156 | a plan with a coded aircraft gets the cached one or adds its own; the cache only grows, stays unique and holds the plan's aircraft |
| Ivao.MergedSession | ivao_tracker/service/ivao.py:172-248 | the merge extends the session: plans appended; each milestone stamped exactly when the first reported track fires it, as `ApplyTrack` does; texture from the report; activity and disconnect time unchanged |
| Ivao.ExtendsTransitive | ivao_tracker/service/ivao.py:172-248 | a session extended twice is extended |
| Ivao.PassMatched | ivao_tracker/service/ivao.py:74-111 | a matched session leaves the closing list |
| Ivao.PassRevived | ivao_tracker/service/ivao.py:83-95 | a revived session was never on the closing list |
| Ivao.PassCreated | ivao_tracker/service/ivao.py:96-100 | a created session's id was not stored |
| Ivao.CreatedStep | ivao_tracker/service/ivao.py:96-100 | created sessions keep their pilot's data while the pass goes on |
| Ivao.CloseCompletesPass | ivao_tracker/service/ivao.py:113-117 | closing the remaining list completes a reconciled pass |
| Ivao.ReportStep | ivao_tracker/service/ivao.py:72-111 | how the reported ids and the repeated-new-id condition grow by one pilot |
| Ivao.Tracker.constructor | ivao_tracker/service/ivao.py:22 | the watermark starts at the start time |
| Ivao.Tracker.FindAircraft | ivao_tracker/service/ivao.py:145-152 | the first cached aircraft with the code; none iff no cached one has it |
| Ivao.Tracker.ShareAircraft | ivao_tracker/service/ivao.py:142-156 | plan and cache become those of `ShareSpec` |
| Ivao.Tracker.ResolveAirports | ivao_tracker/service/ivao.py:158-164 | the resolver and the plan become those of `ResolveFields` |
| Ivao.Tracker.PreparePlanM | ivao_tracker/service/ivao.py:180-200 | share then resolve, as `PreparePlan` |
| Ivao.Tracker.CreatePilotSession | ivao_tracker/service/ivao.py:136-169 | the new session is the converted one with its plans as `CreatedPlans` |
| Ivao.Tracker.MergePilotSession | ivao_tracker/service/ivao.py:172-248 | the appended plans are those of `AddedPlans`; only the merged session changes, to `MergedSession` |
| Ivao.Tracker.ReportPilot | ivao_tracker/service/ivao.py:72-111 | world, store, closing list and created ids become those of `ReportSpec`; the pass invariant is kept; flags a repeated new id |
| Ivao.Tracker.ReportMatched | ivao_tracker/service/ivao.py:74-111 | a previously active session is merged as `MergeSpec` says, with the world it leaves, and leaves the closing list; no other session changes |
| Ivao.Tracker.ReportRevived | ivao_tracker/service/ivao.py:83-109 | a stored session off the closing list and not created in this pass (inactive, or reported earlier in this snapshot) is set active and merged as `MergeSpec` says; no other session changes |
| Ivao.Tracker.ReportCreated | ivao_tracker/service/ivao.py:96-100 | the new session and world are those of `CreateSpec` (plans handled, track and pilot data as converted), under an id that was not stored; no other session changes |
| Ivao.Tracker.CloseSessions | ivao_tracker/service/ivao.py:113-117 | every listed session is inactive with the snapshot time as disconnect time; others unchanged |
| Ivao.Tracker.HandlePilot | ivao_tracker/service/ivao.py:72-111 | one pilot keeps the pass invariant and takes the state one `ReportSpec` step further |
| Ivao.Tracker.ReportAll | ivao_tracker/service/ivao.py:72-111 | fails at the first pilot that does not convert; on every outcome the world, store, closing list and created ids are those of `PassFrom`, which stops before that pilot; without a failure the pass invariant holds for all pilots |
| Ivao.Tracker.RunPass | ivao_tracker/service/ivao.py:58-117 | fails at the first pilot that does not convert; on every outcome the resolver's memo is the one `PassFrom` leaves; otherwise reports the pilot ids in order, leaves the world of `PassFrom` and its store closed by `CloseAll`, and, without a repeated new id, reconciles the store |
| Ivao.Tracker.Rollback | ivao_tracker/service/ivao.py:128-130 | the store returns to the saved sessions, aircraft and airports; the memo is kept |
| Ivao.Tracker.ImportSnapshot | ivao_tracker/service/ivao.py:38-133 | no update iff the watermark matches; aborted iff a pilot does not convert; imported iff all convert, the commit succeeds and no new id repeats; partitions ensured before writing; a failed import leaves store and watermark; a successful one advances the watermark, links the sessions to the snapshot and reconciles the store; an import leaves exactly the store, aircraft and airport table of `PassFrom` with the closing loop; an imported, rolled-back or aborted import leaves the resolver's memo of `PassFrom`, which the rollback does not undo |
| IvaoProperties.MilestonesFollowPhaseOrder | ivao_tracker/service/ivao.py:220-244 | a milestone is recorded exactly for a step to the next phase, except initial climb to en route |
| IvaoProperties.AtMostOneMilestone | ivao_tracker/service/ivao.py:219-244 | a track changes at most the one milestone the table names |
| IvaoProperties.NonAdjacentStepRecordsNothing | ivao_tracker/service/ivao.py:208-244 | a first track, a repeated phase or a skipped phase records nothing |
| IvaoProperties.ApproachTimeOverwritten | ivao_tracker/service/ivao.py:236-238 | en route to approach sets the approach time even when one is set |
| IvaoProperties.TakeoffBackdated | ivao_tracker/service/ivao.py:227-235 | the first departing to initial climb step stamps takeoff one minute early |
| IvaoProperties.ApplyTracksExtends | ivao_tracker/service/ivao.py:208-244 | over any run of tracks, tracks are appended in order and taxi and takeoff times never change once set |
| IvaoProperties.AllFieldsMapped | ivao_tracker/service/ivao.py:158 | the field map covers all four airport fields |
| IvaoProperties.ResolveFieldsEffects | ivao_tracker/service/ivao.py:158-164 | every truthy field is resolved, the others are left alone, nothing else in the plan changes, the resolver stays valid |
| IvaoProperties.PreparePlanEffects | ivao_tracker/service/ivao.py:180-200 | handling a plan keeps the aircraft code and the plan's other data, resolves its truthy fields, and keeps the cache unique and the resolver valid |
| IvaoProperties.AllCreatedCons | ivao_tracker/service/ivao.py:142 | the plan loop's result extends position by position |
| IvaoProperties.CreatedPlansEffects | ivao_tracker/service/ivao.py:141-164 | a new session's plans keep order and ids; a plan with an aircraft is handled, one without is kept as reported |
| IvaoProperties.PlanIdsAppend | ivao_tracker/service/ivao.py:177-179 | the ids of joined plan lists are the union |
| IvaoProperties.PlanIdsCons | ivao_tracker/service/ivao.py:177-179 | the ids of a plan list are its head's id and its tail's ids |
| IvaoProperties.FromTail | ivao_tracker/service/ivao.py:175 | a plan taken from the later reported plans was reported |
| IvaoProperties.AddedSkip | ivao_tracker/service/ivao.py:177-179 | a plan whose id the session holds is skipped |
| IvaoProperties.AddedStepIds | ivao_tracker/service/ivao.py:177-203 | appending a plan with a reported id keeps old and reported ids covered |
| IvaoProperties.AddedStepDistinct | ivao_tracker/service/ivao.py:177-203 | a plan whose id is new to the session and the plans after it keeps the appended ids distinct |
| IvaoProperties.AddedStep | ivao_tracker/service/ivao.py:177-203 | a plan with a new id is handled and appended |
| IvaoProperties.AddedPlansEffects | ivao_tracker/service/ivao.py:175-206 | appended plans have new, distinct ids, cover every reported id together with the old ones, and each is a handled reported plan; the world stays valid |
| IvaoProperties.MergeKeepsPlanIdsDistinct | ivao_tracker/service/ivao.py:175-203 | a session's plan ids stay distinct across a merge |
| IvaoProperties.MergeOfKnownPlansAddsNothing | ivao_tracker/service/ivao.py:177-179 | reporting only known plan ids appends nothing and touches no state |
| IvaoProperties.RemergeAddsNothing | ivao_tracker/service/ivao.py:175-206 | merging the same report again appends no plan |
| IvaoProperties.ReconciledActiveSessions | ivao_tracker/service/ivao.py:72-117 | after a committed pass exactly the reported pilots are active, and each closed session is disconnected at the snapshot time |
| IvaoProperties.ReconciledKeepsHistory | ivao_tracker/service/ivao.py:72-117 | no session is removed and stored plans and tracks are kept |
| IvaoProperties.SinglePilotPass | ivao_tracker/service/ivao.py:72-111 | a one-pilot snapshot runs one iteration of the pilot loop |
| IvaoProperties.SecondSnapshotStampsTaxi | ivao_tracker/service/ivao.py:72-111 | a stored boarding session reported departing in the next snapshot gets the track's timestamp as taxi time |

## Left out

- Fetching and decoding the snapshot (`read_ivao_snapshot`), and downloading and parsing the airport CSV (`parse_airport_csv`), are I/O and library code. The decoded records are inputs.
- Store failures are the `commitOk` parameter of `ImportSnapshot`. The generic `except Exception` branch logs without a rollback, but nothing is committed; it is modelled as "store and watermark unchanged".
- `ensure_db_partitions` is not part of this model. The engine only counts its calls before a write.
- The ORM's identity map, `no_autoflush` and pending objects are not modelled. Immediate consistency is assumed, except for the duplicate new session described above. The back-populating relationship that could append a merged track twice is also left out.
- The order of rows returned by `.first()` and `.all()` is unspecified in SQL. It is modelled as table order.
- A stored session's `tracks` are taken in append order, so `Ivao.LastState` reads the track appended last. The `tracks` relationship has no `order_by` (ivao_tracker/model/sql.py:127), and a track's key is its auto-incremented id together with its timestamp (ivao_tracker/model/sql.py:148-152). So `pilot_session.tracks[-1]` in ivao_tracker/service/ivao.py:210 is whatever row the lazy load returns last. Every milestone property, from `IvaoProperties.MilestonesFollowPhaseOrder` to `IvaoProperties.SecondSnapshotStampsTaxi`, assumes this order.
- Ivao.Tracker.ImportSnapshot: a stored id reported twice in one snapshot is appended twice to `snapshot.pilotSessions` (ivao_tracker/service/ivao.py:247). The link table has a composite primary key (ivao_tracker/model/sql.py:25-31), and whether the flush then inserts the link row twice and fails the commit is not modelled. The model reports `Imported` with the id listed twice. This differs from a repeated new id, which makes the commit fail as described above.
- SQL `LIKE` is modelled as a plain substring test. Its wildcards `%` and `_` inside an identifier, and any case folding by the database, are not modelled.
- Geometry strings, latitude, longitude, elevation and other float or free-text columns are not modelled. Airport fields the resolver and the sync do not read are summarized in `AirportInfo`.
- Coercion of `AirportType` and `Continent` in the CSV rows is not modelled; those enums are not part of this model.
- The `snapshots` back-reference of a session is not modelled. The snapshot's list of session ids stands for both directions.
- Logging and timing are left out.
- Airports.AirportService.Resolve: the memo is a global dictionary that a rollback does not restore. The model keeps it by value across a rolled-back pass, so a memoized placeholder may name a row the restored table lacks. No property claims otherwise.
- Ivao.Tracker.ImportSnapshot: one `now` is used for every placeholder airport created in a pass, where the source reads the clock each time.
- Aircraft with an empty ICAO code are neither looked up nor added to the cache, as in the source. Whether the store persists them is not modelled.
