/** The vendor overview and the exported statement, assembled from cached rows and live calculations. */
module UpstreamOverview {
  import opened Options
  import opened Grouping
  import opened UpstreamCache
  import V3 = UpstreamCost

  datatype Vendor = Vendor(code: string, name: string)

  /** The totals of a successful live calculation. */
  datatype Totals = Totals(requests: int, cost: real, revenue: real, profit: real)

  datatype Entry = Entry(code: string, name: string, requests: int, cost: real, revenue: real, profit: real, rate: real)

  datatype Overview = Overview(vendors: seq<Entry>, cacheTS: int, stale: bool, reason: string, generatedAt: int)

  type Found = map<string, map<string, Row>>

  const CURRENT := PERIOD_LABELS[0]

  // ----- what the loop appends -----

  function EntryOf(v: Vendor, found: Found, live: string -> Option<Totals>): Option<Entry> {
    var row := Cached(found, v.code, CURRENT);
    if row.Some? then
      var d := row.value.data;
      Some(Entry(v.code, v.name, d.requests, d.cost, d.revenue, d.profit, 0.0))
    else
      var t := live(v.code);
      if t.Some? then Some(Entry(v.code, v.name, t.value.requests, t.value.cost, t.value.revenue, t.value.profit, 0.0))
      else None
  }

  function Entries(vendors: seq<Vendor>, found: Found, live: string -> Option<Totals>): seq<Entry> {
    if vendors == [] then []
    else
      var before, e := Entries(vendors[..|vendors| - 1], found, live), EntryOf(vendors[|vendors| - 1], found, live);
      if e.Some? then before + [e.value] else before
  }

  predicate Hit(found: Found, code: string) {
    Cached(found, code, CURRENT).Some?
  }

  predicate Live(vendors: seq<Vendor>, found: Found, live: string -> Option<Totals>) {
    exists v :: v in vendors && !Hit(found, v.code) && live(v.code).Some?
  }

  function Max(a: int, b: int): int {
    if b > a then b else a
  }

  /** The newest bucket used, in seconds; 0 when none is. */
  function LatestTS(vendors: seq<Vendor>, found: Found): int {
    if vendors == [] then 0
    else
      var before, row := LatestTS(vendors[..|vendors| - 1], found), Cached(found, vendors[|vendors| - 1].code, CURRENT);
      if row.Some? then Max(before, row.value.bucket / SECOND) else before
  }

  function WithRate(e: Entry): Entry {
    if e.cost > 0.0 then e.(rate := e.profit / e.cost) else e
  }

  function Rated(es: seq<Entry>): seq<Entry> {
    seq(|es|, i requires 0 <= i < |es| => WithRate(es[i]))
  }

  predicate ByRequests(es: seq<Entry>) {
    forall i, j :: 0 <= i < j < |es| ==> es[i].requests >= es[j].requests
  }

  // ----- sorting in place -----

  method Swap(vs: array<Entry>, i: nat, j: nat)
    requires i < vs.Length && j < vs.Length
    modifies vs
    ensures vs[..] == old(vs[..])[i := old(vs[j])][j := old(vs[i])]
    ensures multiset(vs[..]) == multiset(old(vs[..]))
  {
    vs[i], vs[j] := vs[j], vs[i];
  }

  /** The first i slots hold their final entries. */
  predicate Front(s: seq<Entry>, i: nat) {
    forall a, b :: 0 <= a < i && a < b < |s| ==> s[a].requests >= s[b].requests
  }

  /** Slot i holds the most requests among slots i to j - 1. */
  predicate Best(s: seq<Entry>, i: nat, j: nat)
    requires i < j <= |s|
  {
    forall b :: i < b < j ==> s[i].requests >= s[b].requests
  }

  lemma SwapKeeps(s: seq<Entry>, i: nat, j: nat)
    requires i < j < |s| && Front(s, i) && Best(s, i, j) && s[j].requests > s[i].requests
    ensures var t := s[i := s[j]][j := s[i]];
            Front(t, i) && Best(t, i, j + 1)
  {
    var t := s[i := s[j]][j := s[i]];
    forall a, b | 0 <= a < i && a < b < |t| ensures t[a].requests >= t[b].requests {
      assert s[a].requests >= s[i].requests && s[a].requests >= s[j].requests && s[a].requests >= s[b].requests;
    }
  }

  lemma FrontMore(s: seq<Entry>, i: nat)
    requires i < |s| && Front(s, i) && Best(s, i, |s|)
    ensures Front(s, i + 1)
  {
  }

  /** sortVendorsByRequestCount: an exchange sort, most requests first. */
  method SortVendors(vs: array<Entry>)
    modifies vs
    ensures ByRequests(vs[..]) && multiset(vs[..]) == multiset(old(vs[..]))
    ensures forall i, j :: 0 <= i < j < vs.Length ==> vs[i].requests >= vs[j].requests
  {
    var i := 0;
    while i < vs.Length
      invariant 0 <= i <= vs.Length && multiset(vs[..]) == multiset(old(vs[..])) && Front(vs[..], i)
    {
      var j := i + 1;
      while j < vs.Length
        invariant i < j <= vs.Length && multiset(vs[..]) == multiset(old(vs[..]))
        invariant Front(vs[..], i) && Best(vs[..], i, j)
      {
        if vs[j].requests > vs[i].requests {
          SwapKeeps(vs[..], i, j);
          Swap(vs, i, j);
        }
        j := j + 1;
      }
      FrontMore(vs[..], i);
      i := i + 1;
    }
  }

  /** Fills in the rates, one slot after the other. */
  method FillRates(vs: array<Entry>)
    modifies vs
    ensures vs[..] == Rated(old(vs[..]))
  {
    var i := 0;
    while i < vs.Length
      invariant 0 <= i <= vs.Length
      invariant forall k :: 0 <= k < i ==> vs[k] == WithRate(old(vs[k]))
      invariant forall k :: i <= k < vs.Length ==> vs[k] == old(vs[k])
    {
      if vs[i].cost > 0.0 {
        vs[i] := vs[i].(rate := vs[i].profit / vs[i].cost);
      }
      i := i + 1;
    }
  }

  lemma EntriesMore(before: seq<Vendor>, v: Vendor, found: Found, live: string -> Option<Totals>)
    ensures Entries(before + [v], found, live)
         == Entries(before, found, live) + (var e := EntryOf(v, found, live); if e.Some? then [e.value] else [])
  {
    assert (before + [v])[..|before|] == before;
  }

  lemma LatestMore(before: seq<Vendor>, v: Vendor, found: Found)
    ensures LatestTS(before + [v], found)
         == var row := Cached(found, v.code, CURRENT);
            if row.Some? then Max(LatestTS(before, found), row.value.bucket / SECOND) else LatestTS(before, found)
  {
    assert (before + [v])[..|before|] == before;
  }

  lemma LiveMore(before: seq<Vendor>, v: Vendor, found: Found, live: string -> Option<Totals>)
    ensures Live(before + [v], found, live)
       <==> Live(before, found, live) || (!Hit(found, v.code) && live(v.code).Some?)
  {
    assert forall w :: w in before + [v] <==> w in before || w == v;
  }

  /** The loop over the vendors: cached rows, live calculations, and vendors that are left out. */
  method Collect(vendors: seq<Vendor>, found: Found, live: string -> Option<Totals>)
    returns (out: seq<Entry>, stale: bool, latest: int)
    ensures out == Entries(vendors, found, live) && stale == Live(vendors, found, live) && latest == LatestTS(vendors, found)
  {
    out, stale, latest := [], false, 0;
    var i := 0;
    while i < |vendors|
      invariant 0 <= i <= |vendors| && out == Entries(vendors[..i], found, live)
      invariant stale == Live(vendors[..i], found, live) && latest == LatestTS(vendors[..i], found)
    {
      var v := vendors[i];
      assert vendors[..i + 1] == vendors[..i] + [v];
      EntriesMore(vendors[..i], v, found, live);
      LatestMore(vendors[..i], v, found);
      LiveMore(vendors[..i], v, found, live);
      if v.code in found && CURRENT in found[v.code] {
        var row := found[v.code][CURRENT];
        if row.bucket / SECOND > latest {
          latest := row.bucket / SECOND;
        }
        out := out + [Entry(v.code, v.name, row.data.requests, row.data.cost, row.data.revenue, row.data.profit, 0.0)];
      } else {
        var t := live(v.code);
        if t.Some? {
          out := out + [Entry(v.code, v.name, t.value.requests, t.value.cost, t.value.revenue, t.value.profit, 0.0)];
          stale := true;
        }
      }
      i := i + 1;
    }
    assert vendors[..i] == vendors;
  }

  /** GetUpstreamOverviewCached: found is empty when reading the cache failed. */
  method GetOverview(vendors: seq<Vendor>, found: Found, live: string -> Option<Totals>, now: int) returns (o: Overview)
    ensures ByRequests(o.vendors) && multiset(o.vendors) == multiset(Rated(Entries(vendors, found, live)))
    ensures forall i, j :: 0 <= i < j < |o.vendors| ==> o.vendors[i].requests >= o.vendors[j].requests
    ensures o.stale == Live(vendors, found, live) && o.cacheTS == LatestTS(vendors, found)
    ensures o.reason == if o.stale then "cache_miss" else ""
    ensures o.generatedAt == if vendors == [] then 0
                             else if !o.stale && o.cacheTS > 0 then o.cacheTS else now / SECOND
  {
    if vendors == [] {
      return Overview([], 0, false, "", 0);
    }
    var out, stale, latest := Collect(vendors, found, live);
    var vs := new Entry[|out|](i requires 0 <= i < |out| => out[i]);
    assert vs[..] == out;
    FillRates(vs);
    SortVendors(vs);
    o := Overview(vs[..], latest, stale, if stale then "cache_miss" else "",
                  if !stale && latest > 0 then latest else now / SECOND);
  }

  // ----- what an overview means -----

  /** No vendor code occurs twice, as the vendors table's key demands. */
  predicate UniqueCodes(vendors: seq<Vendor>) {
    forall i, j :: 0 <= i < j < |vendors| ==> vendors[i].code != vendors[j].code
  }

  predicate OneEach(es: seq<Entry>) {
    forall i, j :: 0 <= i < j < |es| ==> es[i].code != es[j].code
  }

  /** Who is listed: exactly the vendors with a cached row or a successful calculation. */
  lemma {:induction false} ListedIff(vendors: seq<Vendor>, found: Found, live: string -> Option<Totals>, e: Entry)
    ensures e in Entries(vendors, found, live) <==> exists v :: v in vendors && EntryOf(v, found, live) == Some(e)
  {
    if vendors != [] {
      var before, last := vendors[..|vendors| - 1], vendors[|vendors| - 1];
      ListedIff(before, found, live, e);
      assert vendors == before + [last];
    }
  }

  lemma {:induction false} EntriesUnique(vendors: seq<Vendor>, found: Found, live: string -> Option<Totals>)
    requires UniqueCodes(vendors)
    ensures OneEach(Entries(vendors, found, live))
  {
    if vendors != [] {
      var before, last := vendors[..|vendors| - 1], vendors[|vendors| - 1];
      EntriesUnique(before, found, live);
      forall e | e in Entries(before, found, live) ensures e.code != last.code {
        ListedIff(before, found, live, e);
        var v :| v in before && EntryOf(v, found, live) == Some(e);
        var k :| 0 <= k < |before| && before[k] == v;
        assert vendors[k].code != vendors[|vendors| - 1].code;
      }
      var prior, all := Entries(before, found, live), Entries(vendors, found, live);
      forall i, j | 0 <= i < j < |all| ensures all[i].code != all[j].code {
        assert prior[i] in prior && all[i] == prior[i];
        if j < |prior| {
          assert all[j] == prior[j] && prior[i].code != prior[j].code;
        } else {
          assert EntryOf(last, found, live) == Some(all[j]) && all[j].code == last.code;
        }
      }
    }
  }

  lemma CountedOnce(es: seq<Entry>, os: seq<Entry>)
    requires multiset(os) == multiset(Rated(es))
    requires OneEach(es)
    ensures OneEach(os)
  {
    forall i, j | 0 <= i < j < |os| ensures os[i].code != os[j].code {
      if os[i].code == os[j].code {
        TwoInMultiset(os, i, j);
        FromRated(es, os, os[i]);
        FromRated(es, os, os[j]);
        OnceInRated(es, os[i]);
      }
    }
  }

  lemma TwoInMultiset(os: seq<Entry>, i: nat, j: nat)
    requires i < j < |os|
    ensures os[i] == os[j] ==> multiset(os)[os[i]] >= 2
  {
    assert os == os[..i] + [os[i]] + os[i + 1..j] + [os[j]] + os[j + 1..];
  }

  lemma FromRated(es: seq<Entry>, os: seq<Entry>, o: Entry)
    requires multiset(os) == multiset(Rated(es)) && o in os
    ensures exists k :: 0 <= k < |es| && WithRate(es[k]) == o
  {
    assert o in multiset(os);
    assert o in Rated(es);
    var k :| 0 <= k < |es| && Rated(es)[k] == o;
  }

  lemma {:induction false} OnceInRated(es: seq<Entry>, o: Entry)
    requires OneEach(es)
    ensures multiset(Rated(es))[o] <= 1
  {
    if es != [] {
      var n := |es| - 1;
      OnceInRated(es[..n], o);
      assert Rated(es) == Rated(es[..n]) + [WithRate(es[n])];
      if WithRate(es[n]) == o {
        forall k | 0 <= k < n ensures Rated(es[..n])[k] != o {
          assert es[k].code != es[n].code;
        }
        assert o !in Rated(es[..n]);
      }
    }
  }

  /** The overview lists each vendor at most once, and is stale exactly when a listed vendor had no cached row. */
  lemma OverviewMeaning(vendors: seq<Vendor>, found: Found, live: string -> Option<Totals>, o: Overview)
    requires UniqueCodes(vendors) && multiset(o.vendors) == multiset(Rated(Entries(vendors, found, live)))
    requires o.stale == Live(vendors, found, live)
    ensures OneEach(o.vendors)
    ensures o.stale <==> exists e :: e in o.vendors && !Hit(found, e.code)
  {
    var es := Entries(vendors, found, live);
    EntriesUnique(vendors, found, live);
    CountedOnce(es, o.vendors);
    if o.stale {
      var v :| v in vendors && !Hit(found, v.code) && live(v.code).Some?;
      var e := EntryOf(v, found, live).value;
      ListedIff(vendors, found, live, e);
      var k :| 0 <= k < |es| && es[k] == e;
      assert Rated(es)[k] == WithRate(e);
      assert WithRate(e) in multiset(o.vendors);
    }
    forall e | e in o.vendors && !Hit(found, e.code) ensures o.stale {
      FromRated(es, o.vendors, e);
      var k :| 0 <= k < |es| && WithRate(es[k]) == e;
      ListedIff(vendors, found, live, es[k]);
    }
  }

  /** The figures of an entry: those of the vendor's cached row, or of its live calculation when there is none. */
  predicate Figures(e: Entry, v: Vendor, row: Option<Row>, totals: Option<Totals>) {
    && e.code == v.code && e.name == v.name
    && (row.Some? ==>
         && e.requests == row.value.data.requests && e.cost == row.value.data.cost
         && e.revenue == row.value.data.revenue && e.profit == row.value.data.profit)
    && (row.None? ==>
         && totals.Some? && e.requests == totals.value.requests && e.cost == totals.value.cost
         && e.revenue == totals.value.revenue && e.profit == totals.value.profit)
    && e.rate == if e.cost > 0.0 then e.profit / e.cost else 0.0
  }

  lemma RatedFigures(v: Vendor, found: Found, live: string -> Option<Totals>)
    requires EntryOf(v, found, live).Some?
    ensures Figures(WithRate(EntryOf(v, found, live).value), v, Cached(found, v.code, "current-month"), live(v.code))
  {
  }

  /** Every entry of an overview carries the figures of one vendor, and every vendor that has figures is listed. */
  lemma OverviewFigures(vendors: seq<Vendor>, found: Found, live: string -> Option<Totals>, o: Overview)
    requires multiset(o.vendors) == multiset(Rated(Entries(vendors, found, live)))
    ensures forall e :: e in o.vendors ==>
              exists v :: v in vendors && Figures(e, v, Cached(found, v.code, "current-month"), live(v.code))
    ensures forall v :: v in vendors && (Cached(found, v.code, "current-month").Some? || live(v.code).Some?) ==>
              exists e :: e in o.vendors && Figures(e, v, Cached(found, v.code, "current-month"), live(v.code))
  {
    var es := Entries(vendors, found, live);
    forall e | e in o.vendors
      ensures exists v :: v in vendors && Figures(e, v, Cached(found, v.code, "current-month"), live(v.code))
    {
      FromRated(es, o.vendors, e);
      var k :| 0 <= k < |es| && WithRate(es[k]) == e;
      ListedIff(vendors, found, live, es[k]);
      var v :| v in vendors && EntryOf(v, found, live) == Some(es[k]);
      RatedFigures(v, found, live);
    }
    forall v | v in vendors && (Cached(found, v.code, "current-month").Some? || live(v.code).Some?)
      ensures exists e :: e in o.vendors && Figures(e, v, Cached(found, v.code, "current-month"), live(v.code))
    {
      ToRated(vendors, found, live, v, o.vendors);
      RatedFigures(v, found, live);
    }
  }

  lemma ToRated(vendors: seq<Vendor>, found: Found, live: string -> Option<Totals>, v: Vendor, os: seq<Entry>)
    requires v in vendors && EntryOf(v, found, live).Some? && multiset(os) == multiset(Rated(Entries(vendors, found, live)))
    ensures WithRate(EntryOf(v, found, live).value) in os
  {
    var es, e := Entries(vendors, found, live), EntryOf(v, found, live).value;
    ListedIff(vendors, found, live, e);
    var k :| 0 <= k < |es| && es[k] == e;
    assert Rated(es)[k] == WithRate(e);
    assert WithRate(e) in multiset(os);
  }

  /** The cache time is the newest bucket that was used, in seconds since the epoch; 0 without any. */
  lemma {:induction false} LatestMeans(vendors: seq<Vendor>, found: Found)
    ensures LatestTS(vendors, found) >= 0
    ensures forall v :: v in vendors && Hit(found, v.code) ==>
              Cached(found, v.code, "current-month").value.bucket / 1_000_000_000 <= LatestTS(vendors, found)
    ensures LatestTS(vendors, found) == 0
         || exists v :: v in vendors && Hit(found, v.code)
                        && Cached(found, v.code, "current-month").value.bucket / 1_000_000_000 == LatestTS(vendors, found)
  {
    if vendors != [] {
      var before, v := vendors[..|vendors| - 1], vendors[|vendors| - 1];
      LatestMeans(before, found);
      assert vendors == before + [v];
      assert forall w :: w in vendors <==> w in before || w == v;
    }
  }

  // ----- the exported statement -----

  /** The cached totals agree with the live ones, so a hit changes no total. */
  predicate Fitting(row: Option<Row>, live: V3.Statement) {
    row.None? || SameTotals(live, row.value.data)
  }

  /**
   * GetUpstreamStatementCached: cached totals replace the live ones, the breakdowns stay live.  Where the live
   * breakdowns add up, the returned ones do exactly when the cached totals are the live ones.
   */
  method GetStatement(vendor: string, row: Option<Row>, live: Option<V3.Statement>)
    returns (r: Option<(V3.Statement, bool)>)
    ensures r.None? <==> vendor == "" || live.None?
    ensures r.Some? ==> r.value == if row.Some? then (Overwritten(live.value, row.value.data), true) else (live.value, false)
    ensures r.Some? && row.Some? ==>
              var s, d := r.value.0, row.value.data;
              && s.total.requests == d.requests && s.total.revenue == d.revenue && s.total.cost == d.cost
              && s.profit == d.profit && (d.cost > 0.0 ==> s.rate == d.profit / d.cost)
              && s.byDate == live.value.byDate && s.byChannel == live.value.byChannel && s.byModel == live.value.byModel
    ensures r.Some? ==>
              forall dates, channels, models :: BreakdownsSum(live.value, dates, channels, models) ==>
                (BreakdownsSum(r.value.0, dates, channels, models) <==> Fitting(row, live.value))
  {
    if vendor == "" || live.None? {
      return None;
    }
    var stmt := live.value;
    if row.Some? {
      var d := row.value.data;
      stmt := stmt.(total := stmt.total.(requests := d.requests, revenue := d.revenue, cost := d.cost), profit := d.profit);
      if stmt.total.cost > 0.0 {
        stmt := stmt.(rate := stmt.profit / stmt.total.cost);
      }
      return Some((stmt, true));
    }
    r := Some((stmt, false));
  }

  function Overwritten(s: V3.Statement, d: Summary): V3.Statement {
    s.(total := s.total.(requests := d.requests, revenue := d.revenue, cost := d.cost), profit := d.profit,
       rate := if d.cost > 0.0 then d.profit / d.cost else s.rate)
  }

  predicate RateAgrees(s: V3.Statement) {
    s.rate == if s.total.cost > 0.0 then s.profit / s.total.cost else 0.0
  }

  /** The rate agrees with the returned totals unless the cached cost is not positive while the live rate is not 0. */
  lemma CachedRateAgreesIff(s: V3.Statement, d: Summary)
    ensures RateAgrees(Overwritten(s, d)) <==> d.cost > 0.0 || s.rate == 0.0
  {
  }

  /** Every breakdown of the statement adds up to its totals. */
  predicate BreakdownsSum(s: V3.Statement, dates: seq<int>, channels: seq<int>, models: seq<string>) {
    SumEntries(s.byDate, dates) == SumEntries(s.byChannel, channels) == SumEntries(s.byModel, models) == s.total
  }

  predicate SameTotals(s: V3.Statement, d: Summary) {
    d.requests == s.total.requests && d.cost == s.total.cost && d.revenue == s.total.revenue
  }

  /** After a cache hit the live breakdowns add up to the returned totals exactly when the cached totals are the live ones. */
  lemma CachedBreakdownsIff(vendor: string, start: int, end: int, discounts: map<int, real>, logs: seq<V3.Log>,
                            dates: seq<int>, channels: seq<int>, models: seq<string>, s: V3.Statement, d: Summary)
    requires s == V3.StatementOf(vendor, start, end, discounts, logs)
    requires Listing(dates, s.byDate.Keys) && Listing(channels, s.byChannel.Keys) && Listing(models, s.byModel.Keys)
    ensures BreakdownsSum(s, dates, channels, models)
    ensures BreakdownsSum(Overwritten(s, d), dates, channels, models) <==> SameTotals(s, d)
  {
    V3.BreakdownsConserve(vendor, start, end, discounts, logs, dates, channels, models, s);
  }
}
