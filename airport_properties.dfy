/** Properties of the airport resolver and of the airport reference sync. */
module AirportProperties {
  import opened Wrappers
  import opened Constants
  import opened Records
  import opened Airports

  // ---------------------------------------------------------------------------------------------
  // The token matcher
  // ---------------------------------------------------------------------------------------------

  /** An identifier between two separators is found, whatever surrounds them. */
  lemma TokenBetweenSeparators(id: string, before: string, c: char, d: char, after: string)
    requires IsSeparator(c) && IsSeparator(d)
    ensures AirportIdIsInKeywords(id, before + [c] + id + [d] + after)
  {
    var kw := before + [c] + id + [d] + after;
    var j := |before| + 1;
    assert kw[j..j + |id|] == id;
    assert kw[j - 1] == c && kw[j + |id|] == d;
    assert TokenAt(id, kw, j);
  }

  /** Keywords made of the identifier alone hold it as a token. */
  lemma WholeKeywordsIsToken(id: string)
    ensures AirportIdIsInKeywords(id, id)
  {
    assert id[0..|id|] == id;
    assert TokenAt(id, id, 0);
  }

  /** Concrete cases: a token after ", ", a prefix of a longer word, and a suffix of one. */
  lemma TokenExamples()
    ensures AirportIdIsInKeywords("EDDF", "Frankfurt, EDDF")
    ensures AirportIdIsInKeywords("EDDF", "EDDF;Rhein-Main")
    ensures !AirportIdIsInKeywords("EDD", "EDDF")
    ensures !AirportIdIsInKeywords("DDF", "EDDF")
  {
    assert TokenAt("EDDF", "Frankfurt, EDDF", 11);
    assert "EDDF;Rhein-Main"[0..4] == "EDDF";
    assert TokenAt("EDDF", "EDDF;Rhein-Main", 0);
    assert !TokenAt("EDD", "EDDF", 0);
    assert !TokenAt("EDD", "EDDF", 1);
    assert !TokenAt("DDF", "EDDF", 0);
    assert !TokenAt("DDF", "EDDF", 1);
  }

  // ---------------------------------------------------------------------------------------------
  // Resolution
  // ---------------------------------------------------------------------------------------------

  /** The row a resolution touches, if any. */
  function TouchedRow(cfg: Config, s: ResolverState, id: string): Option<nat>
  {
    if id in s.known then None
    else var h := Lookup(cfg, s.airports, id);
      if h.NotFound? then None else Some(h.row)
  }

  /** What acting on a lookup answer may do to the table. */
  lemma ApplyHitRowEffects(cfg: Config, s: ResolverState, id: string, h: Hit, now: Time)
    requires !h.NotFound? ==> h.row < |s.airports|
    ensures var t' := ApplyHit(cfg, s, id, h, now).0.airports;
      && |s.airports| <= |t'| <= |s.airports| + 1
      && (|t'| == |s.airports| + 1 <==> h.NotFound?)
      && (forall j :: 0 <= j < |s.airports| && (h.NotFound? || j != h.row) ==> t'[j] == s.airports[j])
      && (forall j :: 0 <= j < |s.airports| && t'[j].code != s.airports[j].code ==>
            MayFix(cfg, s.airports[j]) && t'[j].code == id && t'[j].isFixed)
  {
    if h.NotFound? {
      assert |ApplyHit(cfg, s, id, h, now).0.airports| == |s.airports| + 1;
    }
  }

  /**
   * What a resolution may do to the table: only the row the lookup found changes; a row's code
   * changes only when the guard allows and only to the identifier, so a protected row (correct,
   * used or fixed) keeps its code; and the table grows by one placeholder exactly when nothing
   * was found.
   */
  lemma ResolveRowEffects(cfg: Config, s: ResolverState, id: string, now: Time)
    ensures var t' := ResolveSpec(cfg, s, id, now).0.airports;
      && |s.airports| <= |t'| <= |s.airports| + 1
      && (|t'| == |s.airports| + 1 <==> id !in s.known && Lookup(cfg, s.airports, id).NotFound?)
      && (forall j :: 0 <= j < |s.airports| && TouchedRow(cfg, s, id) != Some(j) ==> t'[j] == s.airports[j])
      && (forall j :: 0 <= j < |s.airports| && t'[j].code != s.airports[j].code ==>
            MayFix(cfg, s.airports[j]) && t'[j].code == id && t'[j].isFixed)
  {
    if id !in s.known {
      ApplyHitRowEffects(cfg, s, id, Lookup(cfg, s.airports, id), now);
    }
  }

  /** Every airport handed out is protected: its code will not be rewritten by a later resolution. */
  lemma ResolveResultProtected(cfg: Config, s: ResolverState, id: string, now: Time)
    requires StateValid(s)
    ensures !MayFix(cfg, ResolveSpec(cfg, s, id, now).1)
  {
    if id in s.known {
      assert s.known[id].isUsed;
    }
  }

  /** The hits after which the identifier is memoized: tier 1, the keyword fallback and a placeholder. */
  predicate Memoizing(h: Hit)
  {
    h.ByCode? || h.KeywordFallback? || h.NotFound?
  }

  /** The row a remembered airport ends up in: the hit row or the appended placeholder. */
  function TouchedRowOrEnd(h: Hit, n: nat): nat
  {
    if h.NotFound? then n else h.row
  }

  /** Acting on a lookup answer memoizes exactly after a memoizing hit. */
  lemma ApplyHitMemo(cfg: Config, s: ResolverState, id: string, h: Hit, now: Time)
    requires !h.NotFound? ==> h.row < |s.airports|
    requires id !in s.known
    ensures var r := ApplyHit(cfg, s, id, h, now);
      && (id in r.0.known <==> Memoizing(h))
      && (Memoizing(h) ==>
            r.1.isUsed && r.0.known == s.known[id := r.1] && r.0.airports[TouchedRowOrEnd(h, |s.airports|)] == r.1)
      && (!Memoizing(h) ==> r.0.known == s.known && r.1.isUsed == s.airports[h.row].isUsed)
  {
  }

  /**
   * Tier 2-5 hits return early: the identifier is memoized and the row marked used only on a
   * primary-key hit, on the keyword fallback and for a new placeholder.
   */
  lemma ResolveMemoizes(cfg: Config, s: ResolverState, id: string, now: Time)
    ensures var r := ResolveSpec(cfg, s, id, now);
      var h := Lookup(cfg, s.airports, id);
      && (id in s.known ==> r == (s, s.known[id]))
      && (id !in s.known ==> (id in r.0.known <==> Memoizing(h)))
      && (id !in s.known && Memoizing(h) ==>
            r.1.isUsed && r.0.known == s.known[id := r.1] && r.0.airports[TouchedRowOrEnd(h, |s.airports|)] == r.1)
      && (id !in s.known && !Memoizing(h) ==> r.0.known == s.known && r.1.isUsed == s.airports[h.row].isUsed)
  {
    if id !in s.known {
      ApplyHitMemo(cfg, s, id, Lookup(cfg, s.airports, id), now);
    }
  }

  /** An identifier nothing matches becomes a fixed placeholder whose code and ident are the identifier. */
  lemma UnresolvableCreatesDummy(cfg: Config, s: ResolverState, id: string, now: Time)
    requires id !in s.known && Lookup(cfg, s.airports, id).NotFound?
    ensures var (s', a) := ResolveSpec(cfg, s, id, now);
      && s'.airports == s.airports + [a]
      && a.code == id && a.ident == id && a.isFixed && a.fixOrigin == Some(Dummy) && a.isUsed
      && a.keywords == Some("Dummy created by IVAO Tracker") && a.lastUpdated == Some(now)
      && s'.known == s.known[id := a]
  {
  }

  /** With unique codes, the row carrying the identifier as its code is the tier-1 hit. */
  lemma CodeRowHit(cfg: Config, t: seq<Airport>, id: string, i: nat)
    requires CodesUnique(t) && i < |t| && t[i].code == id
    ensures Lookup(cfg, t, id) == ByCode(i)
  {
    assert ColumnValue(t[i], CodeColumn) == Some(id);
    var h := Lookup(cfg, t, id);
    assert t[h.row].code == t[i].code;
  }

  /** A row fixed to the identifier is found again by its primary key and handed out again. */
  lemma FixedRowResolvesAgain(cfg: Config, s: ResolverState, id: string, i: nat, now: Time)
    requires CodesUnique(s.airports) && i < |s.airports| && s.airports[i].code == id && id !in s.known
    ensures ResolveSpec(cfg, s, id, now).1.code == id
    ensures |ResolveSpec(cfg, s, id, now).0.airports| == |s.airports|
  {
    CodeRowHit(cfg, s.airports, id, i);
  }

  /** A hit that is not memoized does not depend on the clock reading. */
  lemma UnmemoizedIgnoresClock(cfg: Config, s: ResolverState, id: string, h: Hit, now1: Time, now2: Time)
    requires !h.NotFound? ==> h.row < |s.airports|
    requires !Memoizing(h)
    ensures ApplyHit(cfg, s, id, h, now1) == ApplyHit(cfg, s, id, h, now2)
  {
  }

  /** The second resolution after a first one that fixed the row's code to the identifier. */
  lemma TwiceAfterFix(cfg: Config, s: ResolverState, id: string, h: Hit, now1: Time, now2: Time)
    requires StateValid(s) && id !in s.known && HitSound(s.airports, id, h) && !Memoizing(h)
    requires MayFix(cfg, s.airports[h.row])
    ensures var r1 := ApplyHit(cfg, s, id, h, now1);
      var r2 := ResolveSpec(cfg, r1.0, id, now2);
      r2.1.code == r1.1.code && |r2.0.airports| == |r1.0.airports|
  {
    var r1 := ApplyHit(cfg, s, id, h, now1);
    var i := h.row;
    assert r1.1.code == id && r1.0 == s.(airports := s.airports[i := r1.1]);
    ReplaceKeepsCodesUnique(s.airports, i, r1.1);
    FixedRowResolvesAgain(cfg, r1.0, id, i, now2);
  }

  /** A hit on tiers 2-5 whose row the guard protects changes nothing and hands out the row. */
  lemma UnfixedHitKeepsState(cfg: Config, s: ResolverState, id: string, h: Hit, now: Time)
    requires !Memoizing(h) && h.row < |s.airports| && !MayFix(cfg, s.airports[h.row])
    ensures ApplyHit(cfg, s, id, h, now) == (s, s.airports[h.row])
  {
    assert s.airports[h.row := s.airports[h.row]] == s.airports;
  }

  /** The second resolution after a first one that neither memoized nor rewrote the row: the same answer again. */
  lemma TwiceAfterNoChange(cfg: Config, s: ResolverState, id: string, h: Hit, now1: Time, now2: Time)
    requires id !in s.known && h == Lookup(cfg, s.airports, id) && !Memoizing(h)
    requires h.row < |s.airports| && !MayFix(cfg, s.airports[h.row])
    ensures ResolveSpec(cfg, ApplyHit(cfg, s, id, h, now1).0, id, now2) == ApplyHit(cfg, s, id, h, now1)
  {
    UnfixedHitKeepsState(cfg, s, id, h, now1);
    UnmemoizedIgnoresClock(cfg, s, id, h, now1, now2);
  }

  /** The second resolution after a first one that did not memoize. */
  lemma TwiceAfterUnmemoized(cfg: Config, s: ResolverState, id: string, h: Hit, now1: Time, now2: Time)
    requires StateValid(s) && id !in s.known && h == Lookup(cfg, s.airports, id) && !Memoizing(h)
    ensures var r1 := ApplyHit(cfg, s, id, h, now1);
      var r2 := ResolveSpec(cfg, r1.0, id, now2);
      r2.1.code == r1.1.code && |r2.0.airports| == |r1.0.airports|
  {
    if MayFix(cfg, s.airports[h.row]) {
      // The row now carries the identifier as its primary key, so the next lookup is a tier-1 hit on it.
      TwiceAfterFix(cfg, s, id, h, now1, now2);
    } else {
      TwiceAfterNoChange(cfg, s, id, h, now1, now2);
    }
  }

  /**
   * Resolving the same identifier again hands out an airport with the same code and never adds a
   * second placeholder.
   */
  lemma ResolveTwiceSameCode(cfg: Config, s: ResolverState, id: string, now1: Time, now2: Time)
    requires StateValid(s)
    ensures var (s1, a1) := ResolveSpec(cfg, s, id, now1);
      var (s2, a2) := ResolveSpec(cfg, s1, id, now2);
      a2.code == a1.code && |s2.airports| == |s1.airports|
  {
    if id !in s.known {
      var h := Lookup(cfg, s.airports, id);
      if Memoizing(h) {
        ApplyHitMemo(cfg, s, id, h, now1);
      } else {
        TwiceAfterUnmemoized(cfg, s, id, h, now1, now2);
      }
    }
  }

  // ---------------------------------------------------------------------------------------------
  // The airport reference sync
  // ---------------------------------------------------------------------------------------------

  /** Every CSV row is inserted, considered for update, or (stored but not newer) skipped; never two of them. */
  lemma SyncSplit(rows: seq<AirportRow>, t: seq<Airport>)
    ensures var idents := Idents(t);
      var inserts := NewRows(rows, idents);
      var updates := UpdatedRows(rows, idents, MaxLastUpdated(t));
      && (forall r :: r in inserts ==> r !in updates)
      && (forall r :: r in rows ==> (r in inserts <==> r.ident !in idents))
      && (forall r :: r in rows && r.ident in idents ==>
            (r in updates <==> r.lastUpdated.Some? && MaxLastUpdated(t).Some? &&
                               r.lastUpdated.value > MaxLastUpdated(t).value))
  {
    NewRowsCount(rows, Idents(t));
    UpdatedRowsCount(rows, Idents(t), MaxLastUpdated(t));
  }

  /** The insert filter on a row followed by others. */
  lemma NewRowsCons(x: AirportRow, rest: seq<AirportRow>, idents: set<string>)
    ensures NewRows([x] + rest, idents) == (if x.ident !in idents then [x] else []) + NewRows(rest, idents)
  {
    assert ([x] + rest)[0] == x && ([x] + rest)[1..] == rest;
  }

  /** The insert filter keeps CSV order: filtering a concatenation concatenates the filtered parts. */
  lemma {:induction false} NewRowsAppend(a: seq<AirportRow>, b: seq<AirportRow>, idents: set<string>)
    ensures NewRows(a + b, idents) == NewRows(a, idents) + NewRows(b, idents)
    decreases |a|
  {
    if |a| == 0 {
      assert a + b == b;
    } else {
      var x, rest := a[0], a[1..];
      assert a == [x] + rest && a + b == [x] + (rest + b);
      NewRowsCons(x, rest, idents);
      NewRowsCons(x, rest + b, idents);
      NewRowsAppend(rest, b, idents);
      var head := if x.ident !in idents then [x] else [];
      assert head + (NewRows(rest, idents) + NewRows(b, idents))
             == (head + NewRows(rest, idents)) + NewRows(b, idents);
    }
  }

  /** The update filter on a row followed by others. */
  lemma UpdatedRowsCons(x: AirportRow, rest: seq<AirportRow>, idents: set<string>, latest: Option<Time>)
    ensures UpdatedRows([x] + rest, idents, latest)
            == (if ToUpdate(x, idents, latest) then [x] else []) + UpdatedRows(rest, idents, latest)
  {
    assert ([x] + rest)[0] == x && ([x] + rest)[1..] == rest;
  }

  /** The update filter keeps CSV order in the same way. */
  lemma {:induction false} UpdatedRowsAppend(a: seq<AirportRow>, b: seq<AirportRow>, idents: set<string>, latest: Option<Time>)
    ensures UpdatedRows(a + b, idents, latest) == UpdatedRows(a, idents, latest) + UpdatedRows(b, idents, latest)
    decreases |a|
  {
    if |a| == 0 {
      assert a + b == b;
    } else {
      var x, rest := a[0], a[1..];
      assert a == [x] + rest && a + b == [x] + (rest + b);
      UpdatedRowsCons(x, rest, idents, latest);
      UpdatedRowsCons(x, rest + b, idents, latest);
      UpdatedRowsAppend(rest, b, idents, latest);
      var head := if ToUpdate(x, idents, latest) then [x] else [];
      assert head + (UpdatedRows(rest, idents, latest) + UpdatedRows(b, idents, latest))
             == (head + UpdatedRows(rest, idents, latest)) + UpdatedRows(b, idents, latest);
    }
  }

  /** Every CSV row with a new ident is inserted as often as it occurs, and no other row is. */
  lemma {:induction false} NewRowsCount(rows: seq<AirportRow>, idents: set<string>)
    ensures forall x :: multiset(NewRows(rows, idents))[x] == if x.ident !in idents then multiset(rows)[x] else 0
    ensures forall x :: x in NewRows(rows, idents) <==> x in rows && x.ident !in idents
    decreases |rows|
  {
    if |rows| > 0 {
      NewRowsCount(rows[1..], idents);
      assert rows == [rows[0]] + rows[1..];
    }
  }

  /** Every newer CSV row with a stored ident is an update as often as it occurs, and no other row is. */
  lemma {:induction false} UpdatedRowsCount(rows: seq<AirportRow>, idents: set<string>, latest: Option<Time>)
    ensures forall x :: multiset(UpdatedRows(rows, idents, latest))[x] ==
              if x.ident in idents && IsNewer(x, latest) then multiset(rows)[x] else 0
    ensures forall x :: x in UpdatedRows(rows, idents, latest) <==> x in rows && x.ident in idents && IsNewer(x, latest)
    decreases |rows|
  {
    if |rows| > 0 {
      UpdatedRowsCount(rows[1..], idents, latest);
      assert rows == [rows[0]] + rows[1..];
    }
  }

  /** An update keeps every row's primary key, reference id and resolver flags. */
  lemma {:induction false} UpdateAllKeepsResolverColumns(t: seq<Airport>, rows: seq<AirportRow>)
    requires UpdateAll(t, rows).Some?
    ensures var t' := UpdateAll(t, rows).value;
      && |t'| == |t|
      && forall j :: 0 <= j < |t| ==>
           && t'[j].code == t[j].code && t'[j].rowId == t[j].rowId
           && t'[j].isFixed == t[j].isFixed && t'[j].fixOrigin == t[j].fixOrigin && t'[j].isUsed == t[j].isUsed
    decreases |rows|
  {
    if |rows| > 0 {
      var j := FirstWithRowId(t, rows[0].id).value;
      UpdateAllKeepsResolverColumns(t[j := UpdatedAirport(t[j], rows[0])], rows[1..]);
    }
  }

  /** The update fails exactly when some row's reference id belongs to no stored airport. */
  lemma {:induction false} UpdateAllFailsIffMissing(t: seq<Airport>, rows: seq<AirportRow>)
    ensures UpdateAll(t, rows).None? <==>
              exists k :: 0 <= k < |rows| && forall j :: 0 <= j < |t| ==> t[j].rowId != Some(rows[k].id)
    decreases |rows|
  {
    if |rows| > 0 {
      match FirstWithRowId(t, rows[0].id)
      case None =>
      case Some(i) =>
        var t' := t[i := UpdatedAirport(t[i], rows[0])];
        assert forall j :: 0 <= j < |t| ==> t'[j].rowId == t[j].rowId;
        UpdateAllFailsIffMissing(t', rows[1..]);
        if UpdateAll(t, rows).None? {
          var k :| 0 <= k < |rows[1..]| && forall j :: 0 <= j < |t'| ==> t'[j].rowId != Some(rows[1..][k].id);
          assert rows[k + 1] == rows[1..][k];
        } else {
          forall k | 0 <= k < |rows|
            ensures exists j :: 0 <= j < |t| && t[j].rowId == Some(rows[k].id)
          {
            if k == 0 {
              assert t[i].rowId == Some(rows[0].id);
            } else {
              assert rows[k] == rows[1..][k - 1];
              var j :| 0 <= j < |t'| && t'[j].rowId == Some(rows[1..][k - 1].id);
              assert t[j].rowId == Some(rows[k].id);
            }
          }
        }
    }
  }
}
