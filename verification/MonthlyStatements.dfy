/** Monthly upstream statements: half-open calendar periods meet a query that includes both ends. */
module MonthlyStatements {
  import opened Options
  import opened Grouping
  import Calendar
  import V3 = UpstreamCost

  lemma {:induction false} CountIsLength(logs: seq<V3.Log>, discounts: map<int, real>)
    ensures Total(logs, V3.LineOf(discounts)).requests == |logs|
  {
    if logs != [] {
      CountIsLength(logs[..|logs| - 1], discounts);
    }
  }

  /** The queries of two adjoining periods return, together, the logs of both and those of the shared second again. */
  lemma SharedSecond(table: seq<V3.Log>, channels: set<int>, a: int, b: int, c: int,
                     xs: seq<V3.Log>, ys: seq<V3.Log>, zs: seq<V3.Log>, shared: seq<V3.Log>)
    requires a <= b <= c
    requires Returned(xs, table, V3.InPeriod(a, c, channels))
    requires Returned(ys, table, V3.InPeriod(a, b, channels))
    requires Returned(zs, table, V3.InPeriod(b, c, channels))
    requires Returned(shared, table, V3.InPeriod(b, b, channels))
    ensures multiset(ys) + multiset(zs) == multiset(xs) + multiset(shared)
  {
    SelectSplit(table, V3.InPeriod(a, b, channels), V3.InPeriod(a, b - 1, channels), V3.InPeriod(b, b, channels));
    SelectSplit(table, V3.InPeriod(a, c, channels), V3.InPeriod(a, b - 1, channels), V3.InPeriod(b, c, channels));
  }

  lemma TotalIs(vendor: string, start: int, end: int, discounts: map<int, real>, logs: seq<V3.Log>)
    ensures V3.StatementOf(vendor, start, end, discounts, logs).total == Total(logs, V3.LineOf(discounts))
  {
    V3.StatementDescribes(vendor, start, end, discounts, logs);
  }

  ghost predicate Overlap(both: Agg, first: Agg, second: Agg, shared: seq<V3.Log>, discounts: map<int, real>) {
    && Plus(first, second) == Plus(both, Total(shared, V3.LineOf(discounts)))
    && (first.requests + second.requests == both.requests <==> shared == [])
  }

  lemma TotalsOverlap(both: Agg, first: Agg, second: Agg, discounts: map<int, real>,
                      xs: seq<V3.Log>, ys: seq<V3.Log>, zs: seq<V3.Log>, shared: seq<V3.Log>)
    requires multiset(ys) + multiset(zs) == multiset(xs) + multiset(shared)
    requires both == Total(xs, V3.LineOf(discounts))
    requires first == Total(ys, V3.LineOf(discounts)) && second == Total(zs, V3.LineOf(discounts))
    ensures Overlap(both, first, second, shared, discounts)
  {
    CountedTwice(discounts, xs, ys, zs, shared);
  }

  lemma PeriodNotEmpty(period: string, start: int, end: int)
    requires Calendar.PeriodBounds(period) == Some((start, end))
    ensures start < end
  {
    Calendar.NextStart(Calendar.ParsePeriod(period).value);
  }

  /**
   * Statements exported for a period and for the next one count the logs of the second at which the months meet
   * in both; their requests add up to the two months' exactly when there are no such logs.
   */
  lemma ConsecutiveStatements(vendor: string, table: seq<V3.Log>, channels: set<int>, discounts: map<int, real>,
                              period: string, next: string, a: int, b: int, c: int,
                              xs: seq<V3.Log>, ys: seq<V3.Log>, zs: seq<V3.Log>, shared: seq<V3.Log>)
    requires Calendar.PeriodBounds(period) == Some((a, b)) && Calendar.PeriodBounds(next) == Some((b, c))
    requires Returned(xs, table, V3.InPeriod(a, c, channels)) && Returned(shared, table, V3.InPeriod(b, b, channels))
    requires Returned(ys, table, V3.InPeriod(a, b, channels)) && Returned(zs, table, V3.InPeriod(b, c, channels))
    ensures Overlap(V3.StatementOf(vendor, a, c, discounts, xs).total, V3.StatementOf(vendor, a, b, discounts, ys).total,
                    V3.StatementOf(vendor, b, c, discounts, zs).total, shared, discounts)
  {
    PeriodNotEmpty(period, a, b);
    PeriodNotEmpty(next, b, c);
    SharedSecond(table, channels, a, b, c, xs, ys, zs, shared);
    TotalIs(vendor, a, c, discounts, xs);
    TotalIs(vendor, a, b, discounts, ys);
    TotalIs(vendor, b, c, discounts, zs);
    TotalsOverlap(V3.StatementOf(vendor, a, c, discounts, xs).total, V3.StatementOf(vendor, a, b, discounts, ys).total,
                  V3.StatementOf(vendor, b, c, discounts, zs).total, discounts, xs, ys, zs, shared);
  }

  lemma CountedTwice(discounts: map<int, real>, xs: seq<V3.Log>, ys: seq<V3.Log>, zs: seq<V3.Log>, shared: seq<V3.Log>)
    requires multiset(ys) + multiset(zs) == multiset(xs) + multiset(shared)
    ensures Plus(Total(ys, V3.LineOf(discounts)), Total(zs, V3.LineOf(discounts)))
         == Plus(Total(xs, V3.LineOf(discounts)), Total(shared, V3.LineOf(discounts)))
    ensures Total(shared, V3.LineOf(discounts)).requests == |shared|
  {
    var val := V3.LineOf(discounts);
    assert multiset(ys + zs) == multiset(xs + shared);
    TotalPermuted(ys + zs, xs + shared, val);
    TotalConcat(ys, zs, val);
    TotalConcat(xs, shared, val);
    CountIsLength(shared, discounts);
  }
}
