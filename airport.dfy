/**
 * The airport identity resolver and the airport reference sync (ivao_tracker/service/airport.py).
 *
 * The Airport table is a sequence of rows; a row's position is its identity, and table order is the
 * order in which `.first()` and the keyword query return rows. The module-level memo
 * `known_airports` is a map from identifier to the airport handed out for it.
 */
module Airports {
  import opened Wrappers
  import opened Constants
  import opened Records

  // ---------------------------------------------------------------------------------------------
  // The keyword token matcher `airport_id_is_in_keywords`
  // ---------------------------------------------------------------------------------------------

  /** Python's `\s` on text: the characters for which `str.isspace()` holds. */
  predicate IsWhitespace(c: char)
  {
    || '\t' <= c <= '\r'
    || '\U{1c}' <= c <= '\U{1f}'
    || c == ' ' || c == '\U{85}' || c == '\U{a0}' || c == '\U{1680}'
    || '\U{2000}' <= c <= '\U{200a}'
    || c == '\U{2028}' || c == '\U{2029}' || c == '\U{202f}' || c == '\U{205f}' || c == '\U{3000}'
  }

  /** A token boundary: `\s`, `,` or `;`. */
  predicate IsSeparator(c: char)
  {
    IsWhitespace(c) || c == ',' || c == ';'
  }

  /** `id` occurs literally in `kw` at position `j`. */
  predicate OccursAt(id: string, kw: string, j: int)
  {
    0 <= j && j + |id| <= |kw| && kw[j..j + |id|] == id
  }

  /** `id` occurs at `j`, preceded by the start or a separator and followed by a separator or the end. */
  predicate TokenAt(id: string, kw: string, j: int)
  {
    && OccursAt(id, kw, j)
    && (j == 0 || IsSeparator(kw[j - 1]))
    && (j + |id| == |kw| || IsSeparator(kw[j + |id|]))
  }

  /** The scan of `re.search`: is there a token occurrence at `from` or later? */
  function TokenFrom(id: string, kw: string, from: nat): (r: bool)
    decreases |kw| + 1 - from
    ensures r <==> exists j :: from <= j && TokenAt(id, kw, j)
  {
    if from + |id| > |kw| then false
    else TokenAt(id, kw, from) || TokenFrom(id, kw, from + 1)
  }

  /**
   * `airport_id_is_in_keywords`: the search for `(^|\s|[,;])<id>(\s|[,;]|$)` with `id` escaped,
   * i.e. `id` occurs as a whole token of `keywords`.
   */
  function AirportIdIsInKeywords(id: string, keywords: string): (r: bool)
    ensures r <==> exists j :: TokenAt(id, keywords, j)
  {
    TokenFrom(id, keywords, 0)
  }

  /** `Airport.keywords.like('%<id>%')`: the keywords are set and contain `id` as a substring. */
  predicate LikeMatch(a: Airport, id: string)
  {
    a.keywords.Some? && exists j | 0 <= j <= |a.keywords.value| - |id| :: OccursAt(id, a.keywords.value, j)
  }

  /** The keywords are set and hold `id` as a token. */
  predicate KeywordToken(a: Airport, id: string)
  {
    a.keywords.Some? && AirportIdIsInKeywords(id, a.keywords.value)
  }

  // ---------------------------------------------------------------------------------------------
  // Store queries
  // ---------------------------------------------------------------------------------------------

  datatype Column = CodeColumn | GpsCodeColumn | LocalCodeColumn

  function ColumnValue(a: Airport, c: Column): Option<string>
  {
    match c
    case CodeColumn => Some(a.code)
    case GpsCodeColumn => a.gpsCode
    case LocalCodeColumn => a.localCode
  }

  /** Some row has value `v` in column `c`. */
  predicate ColumnHit(t: seq<Airport>, c: Column, v: string)
  {
    exists j :: 0 <= j < |t| && ColumnValue(t[j], c) == Some(v)
  }

  /** `select(Airport).where(<column> == v).first()`; for the code column this is `session.get`. */
  function FirstWith(t: seq<Airport>, c: Column, v: string): (r: Option<nat>)
    ensures r.Some? ==> r.value < |t| && ColumnValue(t[r.value], c) == Some(v)
    ensures r.Some? ==> forall j :: 0 <= j < r.value ==> ColumnValue(t[j], c) != Some(v)
    ensures r.None? <==> !ColumnHit(t, c, v)
  {
    if |t| == 0 then None
    else if ColumnValue(t[0], c) == Some(v) then Some(0)
    else match FirstWith(t[1..], c, v)
      case None => None
      case Some(k) => Some(k + 1)
  }

  /** Rows `from` and later whose keywords pass the LIKE prefilter, in table order. */
  function CandidatesFrom(t: seq<Airport>, id: string, from: nat): (r: seq<nat>)
    decreases |t| - from
    ensures forall k :: 0 <= k < |r| ==> from <= r[k] < |t| && LikeMatch(t[r[k]], id)
    ensures forall j :: from <= j < |t| && LikeMatch(t[j], id) ==> j in r
    ensures forall k, m :: 0 <= k < m < |r| ==> r[k] < r[m]
  {
    if from >= |t| then []
    else if LikeMatch(t[from], id) then [from] + CandidatesFrom(t, id, from + 1)
    else CandidatesFrom(t, id, from + 1)
  }

  /** The keyword query `select(Airport).where(Airport.keywords.like('%<id>%')).all()`. */
  function KeywordCandidates(t: seq<Airport>, id: string): (r: seq<nat>)
    ensures forall k :: 0 <= k < |r| ==> r[k] < |t| && LikeMatch(t[r[k]], id)
    ensures forall j :: 0 <= j < |t| && LikeMatch(t[j], id) ==> j in r
    ensures forall k, m :: 0 <= k < m < |r| ==> r[k] < r[m]
  {
    CandidatesFrom(t, id, 0)
  }

  /** Position in `cands` of the first candidate whose keywords hold `id` as a token. */
  function FirstTokenCandidate(t: seq<Airport>, cands: seq<nat>, id: string): (r: Option<nat>)
    requires forall k :: 0 <= k < |cands| ==> cands[k] < |t|
    ensures r.Some? ==> r.value < |cands| && KeywordToken(t[cands[r.value]], id)
    ensures r.Some? ==> forall k :: 0 <= k < r.value ==> !KeywordToken(t[cands[k]], id)
    ensures r.None? <==> forall k :: 0 <= k < |cands| ==> !KeywordToken(t[cands[k]], id)
  {
    if |cands| == 0 then None
    else if KeywordToken(t[cands[0]], id) then Some(0)
    else match FirstTokenCandidate(t, cands[1..], id)
      case None => None
      case Some(k) => Some(k + 1)
  }

  /** The candidate found by a front-to-back scan is the one `FirstTokenCandidate` names. */
  lemma FirstTokenCandidateAt(t: seq<Airport>, cands: seq<nat>, id: string, k: nat)
    requires forall m :: 0 <= m < |cands| ==> cands[m] < |t|
    requires k < |cands| && KeywordToken(t[cands[k]], id)
    requires forall m :: 0 <= m < k ==> !KeywordToken(t[cands[m]], id)
    ensures FirstTokenCandidate(t, cands, id) == Some(k)
  {
    var r := FirstTokenCandidate(t, cands, id);
    assert r.Some?;
    assert !(r.value < k);
    assert !(r.value > k);
  }

  // ---------------------------------------------------------------------------------------------
  // The tiers
  // ---------------------------------------------------------------------------------------------

  /** The lists the resolver consults: `correct_airport_codes` and `airport_fix_map`. */
  datatype Config = Config(correctCodes: set<string>, fixMap: map<string, string>)

  /** Where the lookup found a row, in tier order; `KeywordFallback` is the LIKE loop running out. */
  datatype Hit =
    | ByCode(row: nat)
    | ByGpsCode(row: nat)
    | ByLocalCode(row: nat)
    | ByFixMap(row: nat)
    | ByKeywords(row: nat)
    | KeywordFallback(row: nat)
    | NotFound

  /** Tier 4 applies: the identifier has a correction whose code is a stored row. */
  predicate FixMapHit(cfg: Config, t: seq<Airport>, id: string)
  {
    id in cfg.fixMap && ColumnHit(t, CodeColumn, cfg.fixMap[id])
  }

  predicate TokenHit(t: seq<Airport>, id: string)
  {
    exists j :: 0 <= j < |t| && KeywordToken(t[j], id)
  }

  predicate LikeHit(t: seq<Airport>, id: string)
  {
    exists j :: 0 <= j < |t| && LikeMatch(t[j], id)
  }

  /** None of tiers 1 to 4 applies. */
  predicate MissesColumnTiers(cfg: Config, t: seq<Airport>, id: string)
  {
    && !ColumnHit(t, CodeColumn, id) && !ColumnHit(t, GpsCodeColumn, id)
    && !ColumnHit(t, LocalCodeColumn, id) && !FixMapHit(cfg, t, id)
  }

  lemma TokenImpliesLike(a: Airport, id: string)
    ensures KeywordToken(a, id) ==> LikeMatch(a, id)
  {
    if KeywordToken(a, id) {
      var j :| TokenAt(id, a.keywords.value, j);
      assert OccursAt(id, a.keywords.value, j);
    }
  }

  /** The first candidate with a token is the first row of the table with a token. */
  lemma FirstTokenRow(t: seq<Airport>, id: string, cands: seq<nat>, k: nat)
    requires cands == KeywordCandidates(t, id)
    requires k < |cands| && forall m :: 0 <= m < k ==> !KeywordToken(t[cands[m]], id)
    ensures forall j :: 0 <= j < cands[k] ==> !KeywordToken(t[j], id)
  {
    assert forall m :: k <= m < |cands| ==> cands[k] <= cands[m];
    forall j | 0 <= j < cands[k]
      ensures !KeywordToken(t[j], id)
    {
      TokenImpliesLike(t[j], id);
      if LikeMatch(t[j], id) {
        var m :| 0 <= m < |cands| && cands[m] == j;
        assert m < k;
      }
    }
  }

  /** When no candidate has a token, no row of the table has one. */
  lemma NoTokenRow(t: seq<Airport>, id: string, cands: seq<nat>)
    requires cands == KeywordCandidates(t, id)
    requires forall m :: 0 <= m < |cands| ==> !KeywordToken(t[cands[m]], id)
    ensures !TokenHit(t, id)
  {
    forall j | 0 <= j < |t|
      ensures !KeywordToken(t[j], id)
    {
      TokenImpliesLike(t[j], id);
    }
  }

  /** The last candidate is the last row of the table that passes the LIKE prefilter. */
  lemma LastCandidateRow(t: seq<Airport>, id: string, cands: seq<nat>)
    requires cands == KeywordCandidates(t, id) && |cands| > 0
    ensures forall j :: cands[|cands| - 1] < j < |t| ==> !LikeMatch(t[j], id)
  {
    assert forall m :: 0 <= m < |cands| ==> cands[m] <= cands[|cands| - 1];
  }

  /**
   * The tiers of `create_or_find_and_update_airport`, first hit wins: primary key `code`,
   * `gps_code`, `local_code`, the correction map, then the keyword query, whose loop either finds a
   * token or leaves its last candidate behind; with no candidate at all nothing is found.
   */
  function Lookup(cfg: Config, t: seq<Airport>, id: string): (h: Hit)
    ensures h.ByCode? <==> ColumnHit(t, CodeColumn, id)
    ensures h.ByGpsCode? <==> !ColumnHit(t, CodeColumn, id) && ColumnHit(t, GpsCodeColumn, id)
    ensures h.ByLocalCode? <==>
              !ColumnHit(t, CodeColumn, id) && !ColumnHit(t, GpsCodeColumn, id) && ColumnHit(t, LocalCodeColumn, id)
    ensures h.ByFixMap? <==>
              && !ColumnHit(t, CodeColumn, id) && !ColumnHit(t, GpsCodeColumn, id)
              && !ColumnHit(t, LocalCodeColumn, id) && FixMapHit(cfg, t, id)
    ensures h.ByKeywords? <==> MissesColumnTiers(cfg, t, id) && TokenHit(t, id)
    ensures h.KeywordFallback? <==> MissesColumnTiers(cfg, t, id) && !TokenHit(t, id) && LikeHit(t, id)
    ensures h.NotFound? <==> MissesColumnTiers(cfg, t, id) && !LikeHit(t, id)
    ensures !h.NotFound? ==> h.row < |t|
    ensures h.ByCode? ==> t[h.row].code == id
    ensures h.ByGpsCode? ==> t[h.row].gpsCode == Some(id) && forall j :: 0 <= j < h.row ==> t[j].gpsCode != Some(id)
    ensures h.ByLocalCode? ==> t[h.row].localCode == Some(id) && forall j :: 0 <= j < h.row ==> t[j].localCode != Some(id)
    ensures h.ByFixMap? ==> t[h.row].code == cfg.fixMap[id]
    ensures h.ByKeywords? ==> KeywordToken(t[h.row], id) && forall j :: 0 <= j < h.row ==> !KeywordToken(t[j], id)
    ensures h.KeywordFallback? ==> LikeMatch(t[h.row], id) && forall j :: h.row < j < |t| ==> !LikeMatch(t[j], id)
  {
    var fixed := if id in cfg.fixMap then FirstWith(t, CodeColumn, cfg.fixMap[id]) else None;
    if FirstWith(t, CodeColumn, id).Some? then ByCode(FirstWith(t, CodeColumn, id).value)
    else if FirstWith(t, GpsCodeColumn, id).Some? then ByGpsCode(FirstWith(t, GpsCodeColumn, id).value)
    else if FirstWith(t, LocalCodeColumn, id).Some? then ByLocalCode(FirstWith(t, LocalCodeColumn, id).value)
    else if fixed.Some? then ByFixMap(fixed.value)
    else KeywordTier(t, id)
  }

  /** Tier 5: the first LIKE candidate holding a token, else the last candidate, else nothing. */
  function KeywordTier(t: seq<Airport>, id: string): (h: Hit)
    ensures h.ByKeywords? || h.KeywordFallback? || h.NotFound?
    ensures h.ByKeywords? <==> TokenHit(t, id)
    ensures h.KeywordFallback? <==> !TokenHit(t, id) && LikeHit(t, id)
    ensures !h.NotFound? ==> h.row < |t|
    ensures h.ByKeywords? ==> KeywordToken(t[h.row], id) && forall j :: 0 <= j < h.row ==> !KeywordToken(t[j], id)
    ensures h.KeywordFallback? ==> LikeMatch(t[h.row], id) && forall j :: h.row < j < |t| ==> !LikeMatch(t[j], id)
  {
    var cands := KeywordCandidates(t, id);
    var token := FirstTokenCandidate(t, cands, id);
    if token.Some? then
      FirstTokenRow(t, id, cands, token.value);
      KeywordPick(t, cands, id)
    else
      NoTokenRow(t, id, cands);
      if |cands| > 0 then
        LastCandidateRow(t, id, cands);
        KeywordPick(t, cands, id)
      else
        KeywordPick(t, cands, id)
  }

  /** The loop over the candidates: the first holding a token, else the last one, else nothing. */
  function KeywordPick(t: seq<Airport>, cands: seq<nat>, id: string): Hit
    requires forall k :: 0 <= k < |cands| ==> cands[k] < |t|
  {
    match FirstTokenCandidate(t, cands, id)
    case Some(k) => ByKeywords(cands[k])
    case None => if |cands| > 0 then KeywordFallback(cands[|cands| - 1]) else NotFound
  }

  // ---------------------------------------------------------------------------------------------
  // What a resolution does to the store and the memo
  // ---------------------------------------------------------------------------------------------

  /** The store's airport rows and the memo `known_airports`. */
  datatype ResolverState = ResolverState(airports: seq<Airport>, known: map<string, Airport>)

  /** `code` is the primary key: no two rows share it. */
  predicate CodesUnique(t: seq<Airport>)
  {
    forall i, j | 0 <= i < j < |t| :: t[i].code != t[j].code
  }

  /** Every memoized airport has been marked used. */
  predicate MemoUsed(known: map<string, Airport>)
  {
    forall k :: k in known ==> known[k].isUsed
  }

  predicate StateValid(s: ResolverState)
  {
    CodesUnique(s.airports) && MemoUsed(s.known)
  }

  /** The guard of the fix: the code is not a known-correct one, and the row is neither used nor fixed. */
  predicate MayFix(cfg: Config, a: Airport)
  {
    a.code !in cfg.correctCodes && !a.isUsed && !a.isFixed
  }

  /**
   * A tier 2-5 hit: the row takes the identifier as its code, with the tier's provenance, when the
   * guard allows; otherwise it is returned unchanged. Either way the row is protected afterwards.
   */
  function FixCode(cfg: Config, a: Airport, id: string, origin: FixOrigin): (r: Airport)
    ensures !MayFix(cfg, r)
    ensures MayFix(cfg, a) ==> r.code == id && r.isFixed && r.fixOrigin == Some(origin)
    ensures MayFix(cfg, a) ==> r.(code := a.code, isFixed := a.isFixed, fixOrigin := a.fixOrigin) == a
    ensures !MayFix(cfg, a) ==> r == a
  {
    if MayFix(cfg, a) then a.(code := id, isFixed := true, fixOrigin := Some(origin)) else a
  }

  /** The placeholder for an unresolvable identifier, stamped with the clock reading `now`. */
  function DummyAirport(id: string, now: Time): (a: Airport)
    ensures a.code == id && a.ident == id && a.isFixed && a.fixOrigin == Some(Dummy) && !a.isUsed
  {
    Airport(None, id, id, None, None, None, None, Some("Dummy created by IVAO Tracker"), Some(now), NoInfo,
            true, Some(Dummy), false)
  }

  /** The common exit: mark row `i` used and memoize it under `id`. */
  function Remember(s: ResolverState, id: string, i: nat): (ResolverState, Airport)
    requires i < |s.airports|
  {
    var a := s.airports[i].(isUsed := true);
    (ResolverState(s.airports[i := a], s.known[id := a]), a)
  }

  /** The early return of tiers 2 to 5: the (possibly fixed) row, not memoized. */
  function Rewrite(cfg: Config, s: ResolverState, i: nat, id: string, origin: FixOrigin): (ResolverState, Airport)
    requires i < |s.airports|
  {
    var a := FixCode(cfg, s.airports[i], id, origin);
    (s.(airports := s.airports[i := a]), a)
  }

  /** What a resolution does to the store and the memo once the lookup has answered `h`. */
  function ApplyHit(cfg: Config, s: ResolverState, id: string, h: Hit, now: Time): (ResolverState, Airport)
    requires !h.NotFound? ==> h.row < |s.airports|
  {
    match h
    case ByCode(i) => Remember(s, id, i)
    case ByGpsCode(i) => Rewrite(cfg, s, i, id, GpsCode)
    case ByLocalCode(i) => Rewrite(cfg, s, i, id, LocalCode)
    case ByFixMap(i) => Rewrite(cfg, s, i, id, CustomMapping)
    case ByKeywords(i) => Rewrite(cfg, s, i, id, Keywords)
    case KeywordFallback(i) => Remember(s, id, i)
    case NotFound => Remember(s.(airports := s.airports + [DummyAirport(id, now)]), id, |s.airports|)
  }

  /** `create_or_find_and_update_airport(id)` as a function of the store and the memo. */
  function ResolveSpec(cfg: Config, s: ResolverState, id: string, now: Time): (ResolverState, Airport)
  {
    if id in s.known then (s, s.known[id])
    else ApplyHit(cfg, s, id, Lookup(cfg, s.airports, id), now)
  }

  /** The loop over the LIKE result: return the first candidate holding a token, else the last one seen. */
  method ScanCandidates(t: seq<Airport>, candidates: seq<nat>, id: string) returns (h: Hit)
    requires forall m :: 0 <= m < |candidates| ==> candidates[m] < |t|
    ensures h == KeywordPick(t, candidates, id)
  {
    var last: Option<nat> := None;
    var k := 0;
    while k < |candidates|
      invariant k <= |candidates|
      invariant forall m :: 0 <= m < k ==> !KeywordToken(t[candidates[m]], id)
      invariant last == if k == 0 then None else Some(candidates[k - 1])
    {
      var r := candidates[k];
      last := Some(r);
      if KeywordToken(t[r], id) {
        FirstTokenCandidateAt(t, candidates, id, k);
        return ByKeywords(r);
      }
      k := k + 1;
    }
    h := if last.Some? then KeywordFallback(last.value) else NotFound;
  }

  /** The facts about a lookup answer that a resolution relies on. */
  predicate HitSound(t: seq<Airport>, id: string, h: Hit)
  {
    (!h.NotFound? ==> h.row < |t|) && (!h.ByCode? ==> !ColumnHit(t, CodeColumn, id))
  }

  /** Replacing a row keeps codes unique when the new code is the old one or a code no row has. */
  lemma ReplaceKeepsCodesUnique(t: seq<Airport>, i: nat, a: Airport)
    requires CodesUnique(t) && i < |t|
    requires a.code == t[i].code || !ColumnHit(t, CodeColumn, a.code)
    ensures CodesUnique(t[i := a])
  {
    forall j | 0 <= j < |t| && j != i
      ensures t[j].code != a.code
    {
      assert ColumnValue(t[j], CodeColumn) == Some(t[j].code);
    }
  }

  /** Appending a row keeps codes unique when no row has its code. */
  lemma AppendKeepsCodesUnique(t: seq<Airport>, a: Airport)
    requires CodesUnique(t) && !ColumnHit(t, CodeColumn, a.code)
    ensures CodesUnique(t + [a])
  {
    forall j | 0 <= j < |t|
      ensures t[j].code != a.code
    {
      assert ColumnValue(t[j], CodeColumn) == Some(t[j].code);
    }
  }

  /** Acting on a sound lookup answer keeps the primary key unique and the memo made of used airports. */
  lemma ApplyHitPreservesValid(cfg: Config, s: ResolverState, id: string, h: Hit, now: Time)
    requires StateValid(s) && HitSound(s.airports, id, h)
    ensures StateValid(ApplyHit(cfg, s, id, h, now).0)
  {
    var t := s.airports;
    match h
    case ByCode(i) =>
      ReplaceKeepsCodesUnique(t, i, t[i].(isUsed := true));
    case ByGpsCode(i) =>
      ReplaceKeepsCodesUnique(t, i, FixCode(cfg, t[i], id, GpsCode));
    case ByLocalCode(i) =>
      ReplaceKeepsCodesUnique(t, i, FixCode(cfg, t[i], id, LocalCode));
    case ByFixMap(i) =>
      ReplaceKeepsCodesUnique(t, i, FixCode(cfg, t[i], id, CustomMapping));
    case ByKeywords(i) =>
      ReplaceKeepsCodesUnique(t, i, FixCode(cfg, t[i], id, Keywords));
    case KeywordFallback(i) =>
      ReplaceKeepsCodesUnique(t, i, t[i].(isUsed := true));
    case NotFound =>
      var d := DummyAirport(id, now);
      AppendKeepsCodesUnique(t, d);
      ReplaceKeepsCodesUnique(t + [d], |t|, d.(isUsed := true));
  }

  /** A resolution keeps the primary key unique and the memo made of used airports. */
  lemma ResolvePreservesValid(cfg: Config, s: ResolverState, id: string, now: Time)
    requires StateValid(s)
    ensures StateValid(ResolveSpec(cfg, s, id, now).0)
  {
    if id !in s.known {
      ApplyHitPreservesValid(cfg, s, id, Lookup(cfg, s.airports, id), now);
    }
  }

  // ---------------------------------------------------------------------------------------------
  // The airport reference sync: which rows are inserted and which update stored airports
  // ---------------------------------------------------------------------------------------------

  /** The set of stored `ident`s. */
  function Idents(t: seq<Airport>): set<string>
  {
    set j | 0 <= j < |t| :: t[j].ident
  }

  /** `max(Airport.last_updated)`: None for a table without any timestamp. */
  function MaxLastUpdated(t: seq<Airport>): (m: Option<Time>)
    ensures m.None? <==> forall j :: 0 <= j < |t| ==> t[j].lastUpdated.None?
    ensures m.Some? ==> exists j :: 0 <= j < |t| && t[j].lastUpdated == m
    ensures m.Some? ==> forall j :: 0 <= j < |t| && t[j].lastUpdated.Some? ==> t[j].lastUpdated.value <= m.value
  {
    if |t| == 0 then None
    else
      var rest := MaxLastUpdated(t[1..]);
      assert forall j :: 1 <= j < |t| ==> t[j] == t[1..][j - 1];
      match (t[0].lastUpdated, rest)
      case (None, _) => rest
      case (Some(x), None) => Some(x)
      case (Some(x), Some(y)) => if x >= y then Some(x) else Some(y)
  }

  /**
   * `last_updated > Timestamp(max)`: a missing timestamp on either side (NaT) compares false.
   */
  predicate IsNewer(row: AirportRow, latest: Option<Time>)
  {
    row.lastUpdated.Some? && latest.Some? && row.lastUpdated.value > latest.value
  }

  /** Rows whose ident is not stored yet, in CSV order. */
  function NewRows(rows: seq<AirportRow>, idents: set<string>): (r: seq<AirportRow>)
    ensures |r| <= |rows|
  {
    if |rows| == 0 then []
    else
      (if rows[0].ident !in idents then [rows[0]] else []) + NewRows(rows[1..], idents)
  }

  /** A CSV row `update_airports` receives: its ident is stored and it is newer than the stored maximum. */
  predicate ToUpdate(row: AirportRow, idents: set<string>, latest: Option<Time>)
  {
    row.ident in idents && IsNewer(row, latest)
  }

  /** Rows whose ident is stored and whose timestamp is newer than the stored maximum, in CSV order. */
  function UpdatedRows(rows: seq<AirportRow>, idents: set<string>, latest: Option<Time>): (r: seq<AirportRow>)
    ensures |r| <= |rows|
  {
    if |rows| == 0 then []
    else
      (if ToUpdate(rows[0], idents, latest) then [rows[0]] else [])
      + UpdatedRows(rows[1..], idents, latest)
  }

  /** The `Airport(...)` built by `create_new_airports`: its code is its ident, unfixed and unused. */
  function NewAirport(row: AirportRow): (a: Airport)
    ensures a.code == row.ident && a.ident == row.ident && a.rowId == Some(row.id)
    ensures !a.isFixed && a.fixOrigin.None? && !a.isUsed
  {
    Airport(Some(row.id), row.ident, row.ident, row.gpsCode, row.icaoCode, row.iataCode, row.localCode,
            row.keywords, row.lastUpdated, row.info, false, None, false)
  }

  /** The assignments of `update_airports`: every column from the row except `code` and the resolver flags. */
  function UpdatedAirport(a: Airport, row: AirportRow): (r: Airport)
    ensures r.code == a.code && r.rowId == a.rowId
    ensures r.isFixed == a.isFixed && r.fixOrigin == a.fixOrigin && r.isUsed == a.isUsed
    ensures r.ident == row.ident && r.keywords == row.keywords && r.lastUpdated == row.lastUpdated
    ensures r.gpsCode == row.gpsCode && r.localCode == row.localCode
    ensures r.icaoCode == row.icaoCode && r.iataCode == row.iataCode && r.info == row.info
  {
    a.(ident := row.ident, gpsCode := row.gpsCode, icaoCode := row.icaoCode, iataCode := row.iataCode,
       localCode := row.localCode, keywords := row.keywords, lastUpdated := row.lastUpdated, info := row.info)
  }

  /** The first stored row with the given reference id (`where(Airport.id == id).first()`). */
  function FirstWithRowId(t: seq<Airport>, id: int): (r: Option<nat>)
    ensures r.Some? ==> r.value < |t| && t[r.value].rowId == Some(id)
    ensures r.Some? ==> forall j :: 0 <= j < r.value ==> t[j].rowId != Some(id)
    ensures r.None? <==> forall j :: 0 <= j < |t| ==> t[j].rowId != Some(id)
  {
    if |t| == 0 then None
    else if t[0].rowId == Some(id) then Some(0)
    else match FirstWithRowId(t[1..], id)
      case None => None
      case Some(k) => Some(k + 1)
  }

  /** The table after updating with each row in turn; None when some row's airport cannot be found. */
  function UpdateAll(t: seq<Airport>, rows: seq<AirportRow>): (r: Option<seq<Airport>>)
    decreases |rows|
  {
    if |rows| == 0 then Some(t)
    else match FirstWithRowId(t, rows[0].id)
      case None => None
      case Some(j) => UpdateAll(t[j := UpdatedAirport(t[j], rows[0])], rows[1..])
  }

  datatype SyncOutcome =
    | Synced(added: nat, updated: nat)
    /** `update_airports` found no stored airport for this reference id (its `None.ident` raises). */
    | MissingAirport(id: int)
    /** Inserting the new rows would give two rows the same primary key `code`; the commit fails. */
    | DuplicateCode

  // ---------------------------------------------------------------------------------------------
  // The imperative operations
  // ---------------------------------------------------------------------------------------------

  /** The airports `create_new_airports` builds for the rows, in order. */
  function NewAirports(rows: seq<AirportRow>): seq<Airport>
  {
    seq(|rows|, k requires 0 <= k < |rows| => NewAirport(rows[k]))
  }

  /** `create_new_airports`: one new airport per row, in order. */
  method CreateNewAirports(rows: seq<AirportRow>) returns (r: seq<Airport>)
    ensures |r| == |rows|
    ensures forall k :: 0 <= k < |r| ==> r[k] == NewAirport(rows[k])
  {
    r := [];
    var k := 0;
    while k < |rows|
      invariant k <= |rows|
      invariant |r| == k
      invariant forall m :: 0 <= m < k ==> r[m] == NewAirport(rows[m])
    {
      r := r + [NewAirport(rows[k])];
      k := k + 1;
    }
  }

  class AirportService {
    const config: Config
    /** The Airport table. */
    var airports: seq<Airport>
    /** The memo `known_airports`, kept for the life of the process. */
    var known: map<string, Airport>

    function State(): ResolverState
      reads this
    {
      ResolverState(airports, known)
    }

    ghost predicate Valid()
      reads this
    {
      StateValid(State())
    }

    constructor (config: Config, airports: seq<Airport>)
      requires CodesUnique(airports)
      ensures Valid()
      ensures this.config == config && this.airports == airports && known == map[]
    {
      this.config := config;
      this.airports := airports;
      known := map[];
    }

    /** A tier 2-5 exit: apply the guarded fix to row `i` and return it. */
    method RewriteRow(i: nat, id: string, origin: FixOrigin) returns (a: Airport)
      requires i < |airports|
      modifies this`airports
      ensures a == FixCode(config, old(airports[i]), id, origin)
      ensures airports == old(airports)[i := a]
    {
      a := FixCode(config, airports[i], id, origin);
      airports := airports[i := a];
    }

    /** The queries of the resolver, tier by tier, up to the first hit; nothing is changed. */
    method FindRow(id: string) returns (h: Hit)
      ensures h == Lookup(config, airports, id)
    {
      var hit := FirstWith(airports, CodeColumn, id);
      if hit.Some? {
        return ByCode(hit.value);
      }
      hit := FirstWith(airports, GpsCodeColumn, id);
      if hit.Some? {
        return ByGpsCode(hit.value);
      }
      hit := FirstWith(airports, LocalCodeColumn, id);
      if hit.Some? {
        return ByLocalCode(hit.value);
      }
      if id in config.fixMap {
        hit := FirstWith(airports, CodeColumn, config.fixMap[id]);
        if hit.Some? {
          return ByFixMap(hit.value);
        }
      }
      h := FindByKeywords(id);
      assert h == KeywordTier(airports, id);
    }

    /** The keyword query and the loop over its result. */
    method FindByKeywords(id: string) returns (h: Hit)
      ensures h == KeywordPick(airports, KeywordCandidates(airports, id), id)
    {
      var candidates := KeywordCandidates(airports, id);
      h := ScanCandidates(airports, candidates, id);
    }

    /** The common exit: mark row `i` used and memoize it. */
    method MarkUsed(id: string, i: nat) returns (a: Airport)
      requires i < |airports|
      modifies this
      ensures (State(), a) == Remember(old(State()), id, i)
    {
      a := airports[i].(isUsed := true);
      airports := airports[i := a];
      known := known[id := a];
    }

    /** The action on the lookup's answer: mark and memoize, rewrite under the guard, or add a placeholder. */
    method ApplyHitM(id: string, h: Hit, now: Time) returns (a: Airport)
      requires !h.NotFound? ==> h.row < |airports|
      modifies this
      ensures (State(), a) == ApplyHit(config, old(State()), id, h, now)
    {
      match h
      case ByCode(i) =>
        a := MarkUsed(id, i);
      case ByGpsCode(i) =>
        a := RewriteRow(i, id, GpsCode);
      case ByLocalCode(i) =>
        a := RewriteRow(i, id, LocalCode);
      case ByFixMap(i) =>
        a := RewriteRow(i, id, CustomMapping);
      case ByKeywords(i) =>
        a := RewriteRow(i, id, Keywords);
      case KeywordFallback(i) =>
        a := MarkUsed(id, i);
      case NotFound =>
        airports := airports + [DummyAirport(id, now)];
        a := MarkUsed(id, |airports| - 1);
    }

    /** `create_or_find_and_update_airport(id)`; `now` is the clock reading stamped on a placeholder. */
    method Resolve(id: string, now: Time) returns (a: Airport)
      requires Valid()
      modifies this
      ensures Valid()
      ensures (State(), a) == ResolveSpec(config, old(State()), id, now)
    {
      if id in known {
        return known[id];
      }
      var h := FindRow(id);
      assert HitSound(airports, id, h);
      ApplyHitPreservesValid(config, State(), id, h, now);
      a := ApplyHitM(id, h, now);
    }

    /** A rolled-back pass: the table returns to what was committed; the memo is a process global and stays. */
    method RestoreAirports(saved: seq<Airport>)
      requires Valid() && CodesUnique(saved)
      modifies this`airports
      ensures Valid()
      ensures airports == saved && known == old(known)
    {
      airports := saved;
    }

    /** `update_airports`: overwrite each row's airport in turn; the id of the first one not found. */
    method UpdateAirports(rows: seq<AirportRow>) returns (missing: Option<int>)
      modifies this`airports
      ensures missing.None? <==> UpdateAll(old(airports), rows).Some?
      ensures missing.None? ==> airports == UpdateAll(old(airports), rows).value
      ensures missing.Some? ==> forall j :: 0 <= j < |old(airports)| ==> old(airports)[j].rowId != Some(missing.value)
      ensures |airports| == |old(airports)|
      ensures forall j :: 0 <= j < |airports| ==>
                airports[j].code == old(airports)[j].code && airports[j].rowId == old(airports)[j].rowId
    {
      var k := 0;
      while k < |rows|
        invariant k <= |rows|
        invariant UpdateAll(old(airports), rows) == UpdateAll(airports, rows[k..])
        invariant |airports| == |old(airports)|
        invariant forall j :: 0 <= j < |airports| ==>
                    airports[j].code == old(airports)[j].code && airports[j].rowId == old(airports)[j].rowId
      {
        var row := rows[k];
        var j := FirstWithRowId(airports, row.id);
        if j.None? {
          assert rows[k..][0] == row;
          return Some(row.id);
        }
        assert rows[k..][1..] == rows[k + 1..];
        airports := airports[j.value := UpdatedAirport(airports[j.value], row)];
        k := k + 1;
      }
      return None;
    }

    /**
     * The writing half of `sync_airports`: update the rows `updates`, add the airports of `inserts`,
     * and commit; all or nothing.
     */
    method ApplySync(inserts: seq<AirportRow>, updates: seq<AirportRow>) returns (outcome: SyncOutcome)
      requires Valid()
      modifies this`airports
      ensures Valid()
      ensures |airports| >= |old(airports)|
      ensures forall j :: 0 <= j < |old(airports)| ==> airports[j].code == old(airports)[j].code
      ensures !outcome.Synced? ==> airports == old(airports)
      ensures var updated := UpdateAll(old(airports), updates);
        && (outcome.MissingAirport? <==> updated.None?)
        && (outcome.MissingAirport? ==> forall j :: 0 <= j < |old(airports)| ==> old(airports)[j].rowId != Some(outcome.id))
        && (outcome.DuplicateCode? <==> updated.Some? && !CodesUnique(updated.value + NewAirports(inserts)))
        && (outcome.Synced? ==>
              && outcome == Synced(|inserts|, |updates|)
              && |updated.value| == |old(airports)|
              && airports == updated.value + NewAirports(inserts))
    {
      var saved := airports;
      var toAdd := CreateNewAirports(inserts);
      assert toAdd == NewAirports(inserts);
      var missing := UpdateAirports(updates);
      if missing.Some? {
        airports := saved;
        return MissingAirport(missing.value);
      }
      if !CodesUnique(airports + toAdd) {
        airports := saved;
        return DuplicateCode;
      }
      airports := airports + toAdd;
      outcome := Synced(|inserts|, |updates|);
    }

    /**
     * `sync_airports` after the CSV is parsed: existing idents with a newer timestamp update their
     * airport, unknown idents are inserted; all or nothing.
     */
    method SyncAirports(rows: seq<AirportRow>) returns (outcome: SyncOutcome)
      requires Valid()
      modifies this`airports
      ensures Valid()
      ensures |airports| >= |old(airports)|
      ensures forall j :: 0 <= j < |old(airports)| ==> airports[j].code == old(airports)[j].code
      ensures !outcome.Synced? ==> airports == old(airports)
      ensures
        var inserts := NewRows(rows, Idents(old(airports)));
        var updates := UpdatedRows(rows, Idents(old(airports)), MaxLastUpdated(old(airports)));
        var updated := UpdateAll(old(airports), updates);
        && (outcome.MissingAirport? <==> updated.None?)
        && (outcome.MissingAirport? ==> forall j :: 0 <= j < |old(airports)| ==> old(airports)[j].rowId != Some(outcome.id))
        && (outcome.DuplicateCode? <==> updated.Some? && !CodesUnique(updated.value + NewAirports(inserts)))
        && (outcome.Synced? ==>
              && outcome == Synced(|inserts|, |updates|)
              && |updated.value| == |old(airports)|
              && airports == updated.value + NewAirports(inserts))
    {
      var idents := Idents(airports);
      var inserts := NewRows(rows, idents);
      var updates := UpdatedRows(rows, idents, MaxLastUpdated(airports));
      outcome := ApplySync(inserts, updates);
    }
  }
}
