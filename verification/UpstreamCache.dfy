/** The table of precomputed upstream totals: the tick that fills it, pruning, and its two lookups. */
module UpstreamCache {
  import opened Options
  import opened TickScheduler

  /** Instants are counted in nanoseconds. */
  const SECOND := 1_000_000_000
  const DAY := 86400 * SECOND
  const PERIOD_LABELS := ["current-month", "last-month"]

  datatype Key = Key(vendor: string, period: string, bucket: int)

  datatype Summary = Summary(periodStart: int, periodEnd: int, requests: int, revenue: real, cost: real, profit: real)

  datatype Row = Row(bucket: int, data: Summary)

  type Table = map<Key, Summary>

  /** The five-minute bucket of an instant. */
  function BucketOf(now: int): int {
    now / SECOND / 300 * 300 * SECOND
  }

  lemma BucketBounds(now: int)
    ensures BucketOf(now) <= now < BucketOf(now) + 300 * SECOND
  {
  }

  lemma BucketMonotone(t: int, u: int)
    requires t <= u
    ensures BucketOf(t) <= BucketOf(u)
  {
  }

  predicate Fresh(bucket: int, maxAge: int, now: int) {
    maxAge <= 0 || bucket >= now - maxAge * SECOND
  }

  ghost predicate IsNewest(table: Table, vendor: string, period: string, maxAge: int, now: int, bucket: int) {
    && Key(vendor, period, bucket) in table && Fresh(bucket, maxAge, now)
    && forall b :: Key(vendor, period, b) in table && Fresh(b, maxAge, now) ==> b <= bucket
  }

  ghost predicate NoneFresh(table: Table, vendor: string, period: string, maxAge: int, now: int) {
    forall b :: Key(vendor, period, b) in table ==> !Fresh(b, maxAge, now)
  }

  /** The fresh row of a pair with the highest bucket. */
  ghost function Newest(table: Table, vendor: string, period: string, maxAge: int, now: int): Option<Row> {
    if b :| IsNewest(table, vendor, period, maxAge, now, b) then Some(Row(b, table[Key(vendor, period, b)])) else None
  }

  lemma NewestIs(table: Table, vendor: string, period: string, maxAge: int, now: int, bucket: int)
    requires IsNewest(table, vendor, period, maxAge, now, bucket)
    ensures Newest(table, vendor, period, maxAge, now) == Some(Row(bucket, table[Key(vendor, period, bucket)]))
  {
  }

  /** What the batched lookup says about one pair. */
  function Cached(found: map<string, map<string, Row>>, vendor: string, period: string): Option<Row> {
    if vendor in found && period in found[vendor] then Some(found[vendor][period]) else None
  }

  function Pruned(table: Table, days: int, now: int): Table {
    var cutoff := now - (if days <= 0 then 30 else days) * DAY;
    map k | k in table && k.bucket >= cutoff :: table[k]
  }

  class UpstreamTable {
    var rows: Table

    constructor ()
      ensures rows == map[]
    {
      rows := map[];
    }

    /** One tick: the state moves on whether or not the calculation succeeds; success stores the row. */
    method RunOnce(state: TickState, vendors: seq<string>, compute: (string, nat) -> Option<Summary>, now: int)
      modifies this, state
      ensures vendors == [] ==> state.Now() == old(state.Now()) && rows == old(rows)
      ensures vendors != [] ==>
                && state.Now() == Advance(old(state.Now()), |vendors|)
                && var c := Choice(old(state.Now()), |vendors|);
                   var result := compute(vendors[c.0], c.1);
                   rows == if result.None? then old(rows)
                           else old(rows)[Key(vendors[c.0], PERIOD_LABELS[c.1], BucketOf(now)) := result.value]
    {
      var choice := state.PickNext(vendors);
      if choice.None? {
        return;
      }
      var (vendor, which) := choice.value;
      var result := compute(vendor, which);
      if result.None? {
        return;
      }
      Upsert(Key(vendor, PERIOD_LABELS[which], BucketOf(now)), result.value);
    }

    method Upsert(key: Key, data: Summary)
      modifies this
      ensures rows == old(rows)[key := data]
    {
      rows := rows[key := data];
    }

    method Prune(days: int, now: int) returns (removed: nat)
      modifies this
      ensures rows == Pruned(old(rows), days, now) && removed == |old(rows)| - |rows|
      ensures forall k :: k in rows <==>
                k in old(rows) && now - k.bucket <= (if days <= 0 then 30 else days) * 86_400_000_000_000
      ensures forall k :: k in rows ==> rows[k] == old(rows)[k]
    {
      var keep := Pruned(rows, days, now);
      assert keep.Keys <= rows.Keys;
      SubsetSize(keep.Keys, rows.Keys);
      removed := |rows| - |keep|;
      rows := keep;
    }

    /** The single lookup; an empty vendor or period finds nothing. */
    method GetLatest(vendor: string, period: string, maxAge: int, now: int) returns (row: Option<Row>)
      ensures row == if vendor == "" || period == "" then None else Newest(rows, vendor, period, maxAge, now)
      ensures row.Some? ==> Key(vendor, period, row.value.bucket) in rows
                            && row.value.data == rows[Key(vendor, period, row.value.bucket)]
      ensures vendor != "" && period != "" ==>
                forall b :: Key(vendor, period, b) in rows && (maxAge <= 0 || now - b <= maxAge * 1_000_000_000) ==>
                  row.Some? && b <= row.value.bucket
      ensures row.Some? && maxAge > 0 ==> now - row.value.bucket <= maxAge * 1_000_000_000
    {
      if vendor == "" || period == "" {
        return None;
      }
      row := None;
      var left := rows.Keys;
      while left != {}
        invariant left <= rows.Keys
        invariant row.None? ==> forall k :: k in rows && k !in left && k.vendor == vendor && k.period == period ==>
                                  !Fresh(k.bucket, maxAge, now)
        invariant row.Some? ==>
                    && Key(vendor, period, row.value.bucket) in rows && Fresh(row.value.bucket, maxAge, now)
                    && row.value.data == rows[Key(vendor, period, row.value.bucket)]
                    && forall k :: k in rows && k !in left && k.vendor == vendor && k.period == period ==>
                         Fresh(k.bucket, maxAge, now) ==> k.bucket <= row.value.bucket
        decreases left
      {
        var k :| k in left;
        left := left - {k};
        if k.vendor == vendor && k.period == period && Fresh(k.bucket, maxAge, now)
           && (row.None? || k.bucket > row.value.bucket) {
          row := Some(Row(k.bucket, rows[k]));
        }
      }
      if row.Some? {
        NewestIs(rows, vendor, period, maxAge, now, row.value.bucket);
      }
    }

    /** MAX(ts_bucket) of the fresh rows, grouped by vendor and period. */
    method Tops(maxAge: int, now: int) returns (tops: map<(string, string), int>)
      ensures forall v, l :: (v, l) in tops ==> IsNewest(rows, v, l, maxAge, now, tops[(v, l)])
      ensures forall v, l :: (v, l) !in tops ==> NoneFresh(rows, v, l, maxAge, now)
    {
      tops := map[];
      var left := rows.Keys;
      while left != {}
        invariant left <= rows.Keys
        invariant forall p :: p in tops ==> Key(p.0, p.1, tops[p]) in rows && Fresh(tops[p], maxAge, now)
        invariant forall k :: k in rows && k !in left && Fresh(k.bucket, maxAge, now) ==>
                    (k.vendor, k.period) in tops && k.bucket <= tops[(k.vendor, k.period)]
        decreases left
      {
        var k :| k in left;
        left := left - {k};
        var p := (k.vendor, k.period);
        if Fresh(k.bucket, maxAge, now) && (p !in tops || k.bucket > tops[p]) {
          tops := tops[p := k.bucket];
        }
      }
    }

    /** The batched lookup agrees with the newest fresh row at every pair. */
    method ListLatest(maxAge: int, now: int) returns (found: map<string, map<string, Row>>)
      ensures forall v, l :: Cached(found, v, l) == Newest(rows, v, l, maxAge, now)
    {
      var tops := Tops(maxAge, now);
      found := map[];
      var left := tops.Keys;
      while left != {}
        invariant left <= tops.Keys
        invariant forall v, l :: Cached(found, v, l)
                    == if (v, l) in tops && (v, l) !in left then Some(Row(tops[(v, l)], rows[Key(v, l, tops[(v, l)])])) else None
        decreases left
      {
        var p :| p in left;
        left := left - {p};
        assert IsNewest(rows, p.0, p.1, maxAge, now, tops[p]);
        var row := Row(tops[p], rows[Key(p.0, p.1, tops[p])]);
        var labels := if p.0 in found then found[p.0] else map[];
        found := found[p.0 := labels[p.1 := row]];
      }
      forall v, l ensures Cached(found, v, l) == Newest(rows, v, l, maxAge, now) {
        if (v, l) in tops {
          NewestIs(rows, v, l, maxAge, now, tops[(v, l)]);
        } else {
          assert NoneFresh(rows, v, l, maxAge, now);
        }
      }
    }
  }

  // ----- whole runs -----

  datatype Event = Write(at: int, vendor: string, period: string, data: Summary) | Prune(at: int, days: int)

  function Step(table: Table, e: Event): Table {
    match e
    case Write(at, vendor, period, data) => table[Key(vendor, period, BucketOf(at)) := data]
    case Prune(at, days) => Pruned(table, days, at)
  }

  function After(events: seq<Event>): Table {
    if events == [] then map[] else Step(After(events[..|events| - 1]), events[|events| - 1])
  }

  /** The clock never runs backwards and has not passed now. */
  predicate Clocked(events: seq<Event>, now: int) {
    events == [] || (events[|events| - 1].at <= now && Clocked(events[..|events| - 1], events[|events| - 1].at))
  }

  function LastWrite(events: seq<Event>, vendor: string, period: string): (w: Option<Event>)
    ensures w.Some? ==> w.value.Write? && w.value.vendor == vendor && w.value.period == period && w.value in events
  {
    if events == [] then None
    else
      var e := events[|events| - 1];
      if e.Write? && e.vendor == vendor && e.period == period then Some(e)
      else LastWrite(events[..|events| - 1], vendor, period)
  }

  /** No row beyond the last write's bucket; that bucket holds the last write, unless it is older than a day. */
  ghost predicate Mirrors(table: Table, w: Option<Event>, vendor: string, period: string, now: int) {
    match w
    case None => forall b :: Key(vendor, period, b) !in table
    case Some(e) =>
      && e.Write? && e.at <= now
      && (forall b :: Key(vendor, period, b) in table ==> b <= BucketOf(e.at))
      && var k := Key(vendor, period, BucketOf(e.at));
         if k in table then table[k] == e.data else k.bucket < now - DAY
  }

  lemma PruneSpares(table: Table, days: int, now: int, k: Key)
    requires k in table && k !in Pruned(table, days, now)
    ensures k.bucket < now - DAY
  {
  }

  lemma MirrorsStep(table: Table, w: Option<Event>, e: Event, vendor: string, period: string, before: int)
    requires Mirrors(table, w, vendor, period, before) && before <= e.at
    ensures Mirrors(Step(table, e), if e.Write? && e.vendor == vendor && e.period == period then Some(e) else w,
                    vendor, period, e.at)
  {
    if e.Write? {
      if w.Some? {
        BucketMonotone(w.value.at, e.at);
      }
    } else if w.Some? {
      var k := Key(vendor, period, BucketOf(w.value.at));
      if k in table && k !in Step(table, e) {
        PruneSpares(table, e.days, e.at, k);
      }
    }
  }

  lemma {:induction false} MirrorsRun(events: seq<Event>, vendor: string, period: string, now: int)
    requires Clocked(events, now)
    ensures Mirrors(After(events), LastWrite(events, vendor, period), vendor, period, now)
  {
    if events != [] {
      var n := |events| - 1;
      var before := if n == 0 then events[n].at else events[n - 1].at;
      MirrorsRun(events[..n], vendor, period, before);
      MirrorsStep(After(events[..n]), LastWrite(events[..n], vendor, period), events[n], vendor, period, before);
    }
  }

  /**
   * Over any run, whatever was pruned, a lookup with a limit of at most a day finds the pair's most recent write,
   * and finds it exactly while the bucket of that write is fresh.
   */
  lemma LookupIsLastWrite(events: seq<Event>, vendor: string, period: string, maxAge: int, now: int)
    requires Clocked(events, now) && 0 < maxAge <= 86400
    ensures var w := LastWrite(events, vendor, period);
            Newest(After(events), vendor, period, maxAge, now)
            == if w.Some? && now - BucketOf(w.value.at) <= maxAge * 1_000_000_000
               then Some(Row(BucketOf(w.value.at), w.value.data)) else None
  {
    MirrorsRun(events, vendor, period, now);
    var w := LastWrite(events, vendor, period);
    if w.Some? && Fresh(BucketOf(w.value.at), maxAge, now) {
      assert IsNewest(After(events), vendor, period, maxAge, now, BucketOf(w.value.at));
      NewestIs(After(events), vendor, period, maxAge, now, BucketOf(w.value.at));
    }
  }

  /** What is served was written at most maxAge seconds ago. */
  lemma HitIsRecent(events: seq<Event>, vendor: string, period: string, maxAge: int, now: int)
    requires Clocked(events, now) && 0 < maxAge <= 86400
    requires Newest(After(events), vendor, period, maxAge, now).Some?
    ensures var w := LastWrite(events, vendor, period);
            w.Some? && now - w.value.at <= maxAge * SECOND
  {
    LookupIsLastWrite(events, vendor, period, maxAge, now);
    BucketBounds(LastWrite(events, vendor, period).value.at);
  }

  /** Pruning, with any retention, changes no such lookup, now or later. */
  lemma PruneKeepsServable(table: Table, days: int, at: int, vendor: string, period: string, maxAge: int, now: int)
    requires at <= now && 0 < maxAge <= 86400
    ensures Newest(Pruned(table, days, at), vendor, period, maxAge, now) == Newest(table, vendor, period, maxAge, now)
  {
    var less := Pruned(table, days, at);
    assert forall b :: Key(vendor, period, b) in table && Fresh(b, maxAge, now) ==> Key(vendor, period, b) in less;
    assert forall b :: IsNewest(less, vendor, period, maxAge, now, b) <==> IsNewest(table, vendor, period, maxAge, now, b);
    if b :| IsNewest(table, vendor, period, maxAge, now, b) {
      NewestIs(table, vendor, period, maxAge, now, b);
      NewestIs(less, vendor, period, maxAge, now, b);
    }
  }

  /**
   * Rows written more than 150 seconds apart, as ticks every 300 seconds do, never let three pairs be served
   * at once: with three vendors or more the overview always computes some vendor live.
   */
  lemma AtMostTwoServed(events: seq<Event>, period: string, v1: string, v2: string, v3: string, now: int)
    requires Clocked(events, now) && v1 != v2 && v2 != v3 && v1 != v3
    requires forall e, f :: e in events && f in events && e.Write? && f.Write? && e != f ==>
               e.at + 150 * SECOND < f.at || f.at + 150 * SECOND < e.at
    ensures exists v :: v in {v1, v2, v3} && Newest(After(events), v, period, 300, now) == None
  {
    if forall v :: v in {v1, v2, v3} ==> Newest(After(events), v, period, 300, now) != None {
      HitIsRecent(events, v1, period, 300, now);
      HitIsRecent(events, v2, period, 300, now);
      HitIsRecent(events, v3, period, 300, now);
      LastWriteBy(events, v1, period, now);
      LastWriteBy(events, v2, period, now);
      LastWriteBy(events, v3, period, now);
    }
  }

  /**
   * Writes at least 300 seconds apart, as undisturbed ticks are, let two pairs be served together only at the very
   * instants that are multiples of 300 seconds.
   */
  lemma TwoServedOnGrid(events: seq<Event>, period: string, v1: string, v2: string, now: int)
    requires Clocked(events, now) && v1 != v2
    requires forall e, f :: e in events && f in events && e.Write? && f.Write? && e != f ==>
               e.at + 300 * SECOND <= f.at || f.at + 300 * SECOND <= e.at
    requires Newest(After(events), v1, period, 300, now).Some? && Newest(After(events), v2, period, 300, now).Some?
    ensures now % (300 * SECOND) == 0
  {
    LookupIsLastWrite(events, v1, period, 300, now);
    LookupIsLastWrite(events, v2, period, 300, now);
    LastWriteBy(events, v1, period, now);
    LastWriteBy(events, v2, period, now);
    var w1, w2 := LastWrite(events, v1, period).value, LastWrite(events, v2, period).value;
    BucketBounds(w1.at);
    BucketBounds(w2.at);
    OnGrid(if w1.at < w2.at then w1.at else w2.at, now);
  }

  lemma Multiple(q: int)
    ensures 300_000_000_000 * q % 300_000_000_000 == 0
  {
  }

  lemma OnGrid(at: int, now: int)
    requires BucketOf(at) == at == now - 300_000_000_000
    ensures now % 300_000_000_000 == 0
  {
    var q := at / 1_000_000_000 / 300;
    assert now == 300_000_000_000 * (q + 1);
    Multiple(q + 1);
  }

  lemma LastWriteBy(events: seq<Event>, vendor: string, period: string, now: int)
    requires Clocked(events, now) && LastWrite(events, vendor, period).Some?
    ensures LastWrite(events, vendor, period).value.at <= now
  {
    MirrorsRun(events, vendor, period, now);
  }
}
