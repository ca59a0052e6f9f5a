/**
 The upstream cache against the logs it stands for: over runs in which logs are appended while ticks and prunes
 happen, what a served row says about the logs at its pick and about the logs at the time it is read.
 Channels and discounts do not change along a run.
 */
module UpstreamFreshness {
  import opened Options
  import opened Grouping
  import Calendar
  import V3 = UpstreamCost
  import C = UpstreamCache
  import O = UpstreamOverview

  type Log = V3.Log

  /** Each vendor's channels, and the discounts. */
  datatype Setup = Setup(channels: string -> set<int>, discounts: map<int, real>)

  /**
   * Instants are nanoseconds.  A tick fixes its period at picked and reads the logs; the logs of during arrive
   * before it stores its row, at stored.
   */
  datatype Event =
    | Append(log: Log)
    | Tick(vendor: string, period: Calendar.Label, picked: int, stored: int, during: seq<Log>)
    | Prune(at: int, days: int)

  function SecondOf(now: int): int {
    now / C.SECOND
  }

  predicate InRange(now: int) {
    SecondOf(now) >= Calendar.FIRST && 0 < Calendar.MonthOf(SecondOf(now)) < 120000
  }

  predicate ProperEvent(e: Event) {
    e.Tick? ==> e.period != Calendar.NoLabel && InRange(e.picked)
  }

  predicate Proper(events: seq<Event>) {
    forall i :: 0 <= i < |events| ==> ProperEvent(events[i])
  }

  function TextOf(l: Calendar.Label): string {
    match l
    case CurrentMonth => C.PERIOD_LABELS[0]
    case LastMonth => C.PERIOD_LABELS[1]
    case NoLabel => ""
  }

  function LogsOf(events: seq<Event>): seq<Log> {
    if events == [] then []
    else
      var before, e := LogsOf(events[..|events| - 1]), events[|events| - 1];
      match e
      case Append(l) => before + [l]
      case Tick(_, _, _, _, during) => before + during
      case Prune(_, _) => before
  }

  /** The period that a tick computes. */
  function Bounds(e: Event): (int, int)
    requires e.Tick? && ProperEvent(e)
  {
    if e.period == Calendar.CurrentMonth then Calendar.CurrentMonthBounds(SecondOf(e.picked))
    else Calendar.LastMonthBounds(SecondOf(e.picked))
  }

  /** The vendor's statement of the logs that a table holds. */
  function StatementAt(s: Setup, vendor: string, logs: seq<Log>, start: int, end: int): V3.Statement {
    V3.StatementOf(vendor, start, end, s.discounts, Select(logs, V3.InPeriod(start, end, s.channels(vendor))))
  }

  function SummaryOf(st: V3.Statement): C.Summary {
    C.Summary(st.start, st.end, st.total.requests, st.total.revenue, st.total.cost, st.profit)
  }

  /** What a tick stores when it sees these logs. */
  function RowOfTick(s: Setup, e: Event, logs: seq<Log>): C.Summary
    requires e.Tick? && ProperEvent(e)
  {
    SummaryOf(StatementAt(s, e.vendor, logs, Bounds(e).0, Bounds(e).1))
  }

  /** The writes and prunes that the table sees. */
  function Writes(s: Setup, events: seq<Event>): seq<C.Event>
    requires Proper(events)
  {
    if events == [] then []
    else
      var n := |events| - 1;
      var before := Writes(s, events[..n]);
      match events[n]
      case Append(_) => before
      case Tick(vendor, period, _, stored, _) =>
        before + [C.Write(stored, vendor, TextOf(period), RowOfTick(s, events[n], LogsOf(events[..n])))]
      case Prune(at, days) => before + [C.Prune(at, days)]
  }

  /** A pair's last tick, and the logs that it saw. */
  function LastTick(events: seq<Event>, vendor: string, period: Calendar.Label): (t: Option<(Event, seq<Log>)>)
    ensures t.Some? ==> t.value.0.Tick? && t.value.0.vendor == vendor && t.value.0.period == period && t.value.0 in events
  {
    if events == [] then None
    else
      var n := |events| - 1;
      if events[n].Tick? && events[n].vendor == vendor && events[n].period == period
      then Some((events[n], LogsOf(events[..n])))
      else LastTick(events[..n], vendor, period)
  }

  lemma {:induction false} SeenPrefix(events: seq<Event>, vendor: string, period: Calendar.Label)
    ensures LastTick(events, vendor, period).Some? ==> LastTick(events, vendor, period).value.1 <= LogsOf(events)
  {
    if events != [] {
      SeenPrefix(events[..|events| - 1], vendor, period);
    }
  }

  function WriteOf(s: Setup, t: (Event, seq<Log>)): C.Event
    requires t.0.Tick? && ProperEvent(t.0)
  {
    C.Write(t.0.stored, t.0.vendor, TextOf(t.0.period), RowOfTick(s, t.0, t.1))
  }

  lemma LastWriteSnoc(ws: seq<C.Event>, w: C.Event, vendor: string, period: string)
    ensures C.LastWrite(ws + [w], vendor, period)
         == if w.Write? && w.vendor == vendor && w.period == period then Some(w) else C.LastWrite(ws, vendor, period)
  {
    assert (ws + [w])[..|ws|] == ws;
  }

  lemma ProperPrefix(events: seq<Event>, n: nat)
    requires Proper(events) && n <= |events|
    ensures Proper(events[..n])
  {
  }

  lemma TextsDiffer(a: Calendar.Label, b: Calendar.Label)
    ensures TextOf(a) == TextOf(b) <==> a == b
  {
    assert C.PERIOD_LABELS[0][0] == 'c' && C.PERIOD_LABELS[1][0] == 'l';
  }

  /** The table's last write of a pair is the row of its last tick. */
  lemma {:induction false} LastWriteIsLastTick(s: Setup, events: seq<Event>, vendor: string, period: Calendar.Label)
    requires Proper(events)
    ensures var t := LastTick(events, vendor, period);
            C.LastWrite(Writes(s, events), vendor, TextOf(period)) == if t.Some? then Some(WriteOf(s, t.value)) else None
  {
    if events != [] {
      var n := |events| - 1;
      ProperPrefix(events, n);
      LastWriteIsLastTick(s, events[..n], vendor, period);
      if events[n].Tick? {
        TextsDiffer(events[n].period, period);
        LastWriteSnoc(Writes(s, events[..n]), WriteOf(s, (events[n], LogsOf(events[..n]))), vendor, TextOf(period));
      } else if events[n].Prune? {
        LastWriteSnoc(Writes(s, events[..n]), C.Prune(events[n].at, events[n].days), vendor, TextOf(period));
      }
    }
  }

  ghost function Served(s: Setup, events: seq<Event>, vendor: string, period: Calendar.Label, now: int): Option<C.Row>
    requires Proper(events)
  {
    C.Newest(C.After(Writes(s, events)), vendor, TextOf(period), 300, now)
  }

  /** A served row is the statement of the logs that its tick saw, and that tick stored it at most 300 seconds ago. */
  lemma ServedIsStatement(s: Setup, events: seq<Event>, vendor: string, period: Calendar.Label, now: int)
    requires Proper(events) && C.Clocked(Writes(s, events), now) && Served(s, events, vendor, period, now).Some?
    ensures var t := LastTick(events, vendor, period);
            && t.Some? && t.value.1 <= LogsOf(events) && ProperEvent(t.value.0)
            && Served(s, events, vendor, period, now).value.data == RowOfTick(s, t.value.0, t.value.1)
            && now - t.value.0.stored <= 300 * C.SECOND
  {
    C.LookupIsLastWrite(Writes(s, events), vendor, TextOf(period), 300, now);
    C.HitIsRecent(Writes(s, events), vendor, TextOf(period), 300, now);
    LastWriteIsLastTick(s, events, vendor, period);
    SeenPrefix(events, vendor, period);
  }

  // ----- the row against the live statement -----

  /** What the row over [start, end] of the seen logs lacks of the live period [start, liveEnd] over all logs. */
  function Missing(seen: seq<Log>, all: seq<Log>, start: int, end: int, liveEnd: int, channels: set<int>): seq<Log>
    requires seen <= all
  {
    Select(seen, V3.InPeriod(end + 1, liveEnd, channels)) + Select(all[|seen|..], V3.InPeriod(start, liveEnd, channels))
  }

  lemma LiveIsSeenAndMissing(seen: seq<Log>, all: seq<Log>, start: int, end: int, liveEnd: int, channels: set<int>)
    requires seen <= all && start <= end + 1 && end <= liveEnd
    ensures multiset(Select(all, V3.InPeriod(start, liveEnd, channels)))
         == multiset(Select(seen, V3.InPeriod(start, end, channels)))
          + multiset(Missing(seen, all, start, end, liveEnd, channels))
  {
    assert all == seen + all[|seen|..];
    SelectConcat(seen, all[|seen|..], V3.InPeriod(start, liveEnd, channels));
    SelectSplit(seen, V3.InPeriod(start, liveEnd, channels), V3.InPeriod(start, end, channels),
                V3.InPeriod(end + 1, liveEnd, channels));
  }

  lemma {:induction false} CostNotNegative(logs: seq<Log>, discounts: map<int, real>)
    ensures Total(logs, V3.LineOf(discounts)).cost >= 0.0 && Total(logs, V3.LineOf(discounts)).requests == |logs|
  {
    if logs != [] {
      var l := logs[|logs| - 1];
      CostNotNegative(logs[..|logs| - 1], discounts);
      V3.LogCostMeaning(l.quota, V3.RatioOf(l), V3.DiscountOf(discounts, l.channel));
    }
  }

  lemma TotalIs(vendor: string, start: int, end: int, discounts: map<int, real>, logs: seq<Log>)
    ensures var st := V3.StatementOf(vendor, start, end, discounts, logs);
            && st.total == Total(logs, V3.LineOf(discounts)) && st.start == start && st.end == end
            && st.profit == st.total.revenue - st.total.cost
  {
    V3.StatementDescribes(vendor, start, end, discounts, logs);
  }

  /** The row never counts or charges more than the live statement, and agrees with it exactly when it lacks nothing. */
  ghost predicate Lags(row: C.Summary, live: V3.Statement, missing: seq<Log>, discounts: map<int, real>) {
    && live.total.requests == row.requests + |missing|
    && live.total.cost == row.cost + Total(missing, V3.LineOf(discounts)).cost
    && live.total.revenue == row.revenue + Total(missing, V3.LineOf(discounts)).revenue
    && row.requests <= live.total.requests && row.cost <= live.total.cost
    && (O.SameTotals(live, row) <==> missing == [])
    && (missing == [] ==> row.profit == live.profit)
  }

  lemma TotalsOfBoth(discounts: map<int, real>, live: seq<Log>, seen: seq<Log>, missing: seq<Log>)
    requires multiset(live) == multiset(seen) + multiset(missing)
    ensures Total(live, V3.LineOf(discounts)) == Plus(Total(seen, V3.LineOf(discounts)), Total(missing, V3.LineOf(discounts)))
  {
    assert multiset(live) == multiset(seen + missing);
    TotalPermuted(live, seen + missing, V3.LineOf(discounts));
    TotalConcat(seen, missing, V3.LineOf(discounts));
  }

  lemma LagsBy(seen: V3.Statement, live: V3.Statement, missing: seq<Log>, discounts: map<int, real>)
    requires live.total == Plus(seen.total, Total(missing, V3.LineOf(discounts)))
    requires seen.profit == seen.total.revenue - seen.total.cost && live.profit == live.total.revenue - live.total.cost
    ensures Lags(SummaryOf(seen), live, missing, discounts)
  {
    CostNotNegative(missing, discounts);
  }

  lemma RowLags(s: Setup, vendor: string, seen: seq<Log>, all: seq<Log>, start: int, end: int, liveEnd: int)
    requires seen <= all && start <= end + 1 && end <= liveEnd
    ensures Lags(SummaryOf(StatementAt(s, vendor, seen, start, end)), StatementAt(s, vendor, all, start, liveEnd),
                 Missing(seen, all, start, end, liveEnd, s.channels(vendor)), s.discounts)
  {
    var channels := s.channels(vendor);
    var missing := Missing(seen, all, start, end, liveEnd, channels);
    var early, live := Select(seen, V3.InPeriod(start, end, channels)), Select(all, V3.InPeriod(start, liveEnd, channels));
    LiveIsSeenAndMissing(seen, all, start, end, liveEnd, channels);
    TotalIs(vendor, start, end, s.discounts, early);
    TotalIs(vendor, start, liveEnd, s.discounts, live);
    TotalsOfBoth(s.discounts, live, early, missing);
    LagsBy(StatementAt(s, vendor, seen, start, end), StatementAt(s, vendor, all, start, liveEnd), missing, s.discounts);
  }

  /** For a period read in the month of the pick, the row begins where the period does and ends no later. */
  lemma BoundsFit(e: Event, period: string, read: int)
    requires e.Tick? && ProperEvent(e) && InRange(read)
    requires Calendar.ParsePeriod(period).Some? && e.period == Calendar.MapPeriodToLabel(period, SecondOf(read))
    requires Calendar.MonthOf(SecondOf(e.picked)) == Calendar.MonthOf(SecondOf(read))
    ensures var (start, end) := Calendar.PeriodBounds(period).value;
            && Bounds(e).0 == start <= Bounds(e).1 + 1
            && (e.period == Calendar.CurrentMonth ==> Bounds(e).1 == SecondOf(e.picked) < end)
            && (e.period == Calendar.LastMonth ==> Bounds(e).1 == end - 1)
  {
    var m := Calendar.MonthOf(SecondOf(read));
    Calendar.CachedStartIff(period, SecondOf(e.picked), SecondOf(read));
    Calendar.LabelMeans(period, m);
    Calendar.LastMonthIsPrevious(SecondOf(e.picked));
    Calendar.ParseFormat(m - 1);
    Calendar.NextStart(m - 1);
  }

  /**
   * An exported statement served from the cache, for a period read in the month of the pick: its totals are those of
   * the logs at the pick, they never exceed the live ones, and they equal them, and the breakdowns add up, exactly
   * when nothing is missing.
   */
  lemma ExportLags(s: Setup, events: seq<Event>, vendor: string, period: string, read: int, e: Event, seen: seq<Log>)
    requires Proper(events) && C.Clocked(Writes(s, events), read) && InRange(read) && Calendar.ParsePeriod(period).Some?
    requires var l := Calendar.MapPeriodToLabel(period, SecondOf(read));
             l != Calendar.NoLabel && Served(s, events, vendor, l, read).Some? && LastTick(events, vendor, l) == Some((e, seen))
    requires Calendar.MonthOf(SecondOf(e.picked)) == Calendar.MonthOf(SecondOf(read))
    ensures e.Tick? && ProperEvent(e) && seen <= LogsOf(events)
    ensures var l := Calendar.MapPeriodToLabel(period, SecondOf(read));
            var (start, end) := Calendar.PeriodBounds(period).value;
            Lags(Served(s, events, vendor, l, read).value.data, StatementAt(s, vendor, LogsOf(events), start, end),
                 Missing(seen, LogsOf(events), start, Bounds(e).1, end, s.channels(vendor)), s.discounts)
  {
    var l := Calendar.MapPeriodToLabel(period, SecondOf(read));
    var (start, end) := Calendar.PeriodBounds(period).value;
    ServedIsStatement(s, events, vendor, l, read);
    BoundsFit(e, period, read);
    RowLags(s, vendor, seen, LogsOf(events), start, Bounds(e).1, end);
  }

  /** Hence the breakdowns of the exported statement add up to its totals exactly when nothing is missing. */
  lemma ReturnedSumsIff(s: Setup, vendor: string, all: seq<Log>, start: int, end: int, row: C.Summary, missing: seq<Log>,
                        dates: seq<int>, channels: seq<int>, models: seq<string>, live: V3.Statement)
    requires live == StatementAt(s, vendor, all, start, end) && Lags(row, live, missing, s.discounts)
    requires Listing(dates, live.byDate.Keys) && Listing(channels, live.byChannel.Keys) && Listing(models, live.byModel.Keys)
    ensures O.BreakdownsSum(O.Overwritten(live, row), dates, channels, models) <==> missing == []
  {
    O.CachedBreakdownsIff(vendor, start, end, s.discounts, Select(all, V3.InPeriod(start, end, s.channels(vendor))),
                          dates, channels, models, live, row);
  }

  /** The same for the overview, whose live query ends at the second of the read. */
  lemma OverviewLags(s: Setup, events: seq<Event>, vendor: string, read: int, e: Event, seen: seq<Log>)
    requires Proper(events) && C.Clocked(Writes(s, events), read) && InRange(read)
    requires Served(s, events, vendor, Calendar.CurrentMonth, read).Some?
    requires LastTick(events, vendor, Calendar.CurrentMonth) == Some((e, seen)) && e.picked <= read
    requires InRange(e.picked) && Calendar.MonthOf(SecondOf(e.picked)) == Calendar.MonthOf(SecondOf(read))
    ensures seen <= LogsOf(events)
    ensures var (start, end) := Calendar.CurrentMonthBounds(SecondOf(read));
            Lags(Served(s, events, vendor, Calendar.CurrentMonth, read).value.data,
                 StatementAt(s, vendor, LogsOf(events), start, end),
                 Missing(seen, LogsOf(events), start, SecondOf(e.picked), end, s.channels(vendor)), s.discounts)
  {
    ServedIsStatement(s, events, vendor, Calendar.CurrentMonth, read);
    var (start, end) := Calendar.CurrentMonthBounds(SecondOf(read));
    RowLags(s, vendor, seen, LogsOf(events), start, SecondOf(e.picked), end);
  }

  /** Without later appends a last-month row lacks exactly the logs of the second that ends the live query. */
  lemma LastMonthLacks(seen: seq<Log>, start: int, end: int, channels: set<int>, l: Log)
    ensures l in Missing(seen, seen, start, end - 1, end, channels)
       <==> l in seen && l.kind == 2 && l.channel in channels && l.createdAt == end
  {
    SelectMember(seen, V3.InPeriod(end, end, channels), l);
    assert Select(seen[|seen|..], V3.InPeriod(start, end, channels)) == [];
  }

  // ----- a reachable mismatch -----

  lemma OneLog(vendor: string, start: int, end: int, discounts: map<int, real>, l: Log)
    ensures V3.StatementOf(vendor, start, end, discounts, [l]).total == V3.Line(discounts, l)
    ensures V3.StatementOf(vendor, start, end, discounts, []).total == ZERO
  {
    TotalIs(vendor, start, end, discounts, [l]);
    TotalIs(vendor, start, end, discounts, []);
    assert [l][..0] == [];
    assert Total([l], V3.LineOf(discounts)) == Plus(Total([], V3.LineOf(discounts)), V3.LineOf(discounts)(l));
  }

  lemma SelectOne(l: Log, p: Log -> bool)
    requires p(l)
    ensures Select([l], p) == [l] && Select([], p) == []
  {
    assert [l][..0] == [];
  }

  /** A tick of a vendor without logs yet, and its first charge after that. */
  function FirstCharge(vendor: string, picked: int, l: Log): seq<Event> {
    [Tick(vendor, Calendar.CurrentMonth, picked, picked, [])] + [Append(l)]
  }

  lemma EmptyRowServed(s: Setup, vendor: string, picked: int, l: Log)
    requires InRange(picked)
    ensures var events := FirstCharge(vendor, picked, l);
            && Proper(events) && C.Clocked(Writes(s, events), picked) && LogsOf(events) == [l]
            && LastTick(events, vendor, Calendar.CurrentMonth) == Some((events[0], []))
            && Served(s, events, vendor, Calendar.CurrentMonth, picked).Some?
  {
    var events := FirstCharge(vendor, picked, l);
    var one := events[..1];
    assert one == [events[0]] && one[..0] == [] && events[..|events| - 1] == one;
    assert LogsOf(one) == [] + [];
    assert LogsOf(events) == [] + [l];
    assert Writes(s, one) == [] + [WriteOf(s, (events[0], []))];
    var w := WriteOf(s, (events[0], []));
    assert [w][..0] == [];
    assert LastTick(one, vendor, Calendar.CurrentMonth) == Some((events[0], LogsOf(one[..0])));
    C.LookupIsLastWrite(Writes(s, events), vendor, TextOf(Calendar.CurrentMonth), 300, picked);
    LastWriteIsLastTick(s, events, vendor, Calendar.CurrentMonth);
    C.BucketBounds(picked);
  }

  lemma FirstChargeTotals(s: Setup, vendor: string, picked: int, l: Log, start: int, end: int)
    requires InRange(picked) && V3.InPeriod(start, end, s.channels(vendor))(l)
    ensures var events := FirstCharge(vendor, picked, l);
            && Proper(events) && Served(s, events, vendor, Calendar.CurrentMonth, picked).Some?
            && Served(s, events, vendor, Calendar.CurrentMonth, picked).value.data.cost == 0.0
            && StatementAt(s, vendor, LogsOf(events), start, end).total == V3.Line(s.discounts, l)
  {
    EmptyRowServed(s, vendor, picked, l);
    ServedIsStatement(s, FirstCharge(vendor, picked, l), vendor, Calendar.CurrentMonth, picked);
    SelectOne(l, V3.InPeriod(start, end, s.channels(vendor)));
    OneLog(vendor, start, end, s.discounts, l);
    var e := FirstCharge(vendor, picked, l)[0];
    OneLog(vendor, Bounds(e).0, Bounds(e).1, s.discounts, l);
  }

  /**
   * After any such first charge that is not sold at cost the exported statement carries a rate that does not fit
   * its totals: the totals are still those of no logs.
   */
  lemma RateMismatchReached(s: Setup, vendor: string, picked: int, l: Log, start: int, end: int)
    requires InRange(picked) && V3.InPeriod(start, end, s.channels(vendor))(l)
    requires V3.Line(s.discounts, l).cost > 0.0 && V3.Line(s.discounts, l).revenue != V3.Line(s.discounts, l).cost
    ensures var events := FirstCharge(vendor, picked, l);
            && Proper(events) && Served(s, events, vendor, Calendar.CurrentMonth, picked).Some?
            && !O.RateAgrees(O.Overwritten(StatementAt(s, vendor, LogsOf(events), start, end),
                                           Served(s, events, vendor, Calendar.CurrentMonth, picked).value.data))
  {
    var events := FirstCharge(vendor, picked, l);
    FirstChargeTotals(s, vendor, picked, l, start, end);
    var live := StatementAt(s, vendor, LogsOf(events), start, end);
    TotalIs(vendor, start, end, s.discounts, Select(LogsOf(events), V3.InPeriod(start, end, s.channels(vendor))));
    RateNotZero(live);
    O.CachedRateAgreesIff(live, Served(s, events, vendor, Calendar.CurrentMonth, picked).value.data);
  }

  lemma RateNotZero(live: V3.Statement)
    requires live.total.cost > 0.0 && live.profit == live.total.revenue - live.total.cost != 0.0
    requires live.rate == live.profit / live.total.cost
    ensures live.rate != 0.0
  {
    assert live.rate * live.total.cost == live.profit;
  }
}
