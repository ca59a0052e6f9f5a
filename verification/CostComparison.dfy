/**
 How the v4 overview, which prices grouped rows, compares with the v3 statement, which prices single logs:
 a vendor's requests and revenue agree, and v4's cost never exceeds v3's while every log states its ratio.
 */
module CostComparison {
  import opened Options
  import opened Grouping
  import V3 = UpstreamCost
  import V4 = ProfitOverview

  type Log = V3.Log
  type Row = V4.Row
  type Mappings = map<int, V4.Mapping>

  // ----- the grouping query -----

  /** The GROUP BY columns. */
  datatype Group = Group(user: int, channel: int, model: string, createdAt: int)

  function GroupOf(l: Log): Group {
    Group(l.user, l.channel, l.model, l.createdAt)
  }

  function RowGroup(r: Row): Group {
    Group(r.user, r.channel, r.model, r.createdAt)
  }

  function InGroup(k: Group): Log -> bool {
    (l: Log) => GroupOf(l) == k
  }

  function OutOf(k: Group): Log -> bool {
    (l: Log) => GroupOf(l) != k
  }

  /** MAX skips the logs that state no ratio. */
  function MaxRatio(g: seq<Log>): Option<real> {
    if g == [] then None
    else
      var before, last := MaxRatio(g[..|g| - 1]), g[|g| - 1].ratio;
      if before.None? then last
      else if last.None? || last.value <= before.value then before
      else last
  }

  predicate Summarises(r: Row, g: seq<Log>) {
    && r.requests == |g|
    && r.prompt == Sum(g, (l: Log) => l.prompt)
    && r.completion == Sum(g, (l: Log) => l.completion)
    && r.cache == Sum(g, (l: Log) => l.cacheTokens)
    && r.quota == Sum(g, (l: Log) => l.quota)
    && r.ratio == (var max := MaxRatio(g); if max.Some? then max.value else 1.0)
  }

  function RowGroups(rows: seq<Row>): set<Group> {
    set r | r in rows :: RowGroup(r)
  }

  function LogGroups(logs: seq<Log>): set<Group> {
    set l | l in logs :: GroupOf(l)
  }

  predicate OncePerGroup(rows: seq<Row>) {
    rows == [] || (RowGroup(rows[|rows| - 1]) !in RowGroups(rows[..|rows| - 1]) && OncePerGroup(rows[..|rows| - 1]))
  }

  /** rows is the result of the grouping query over logs, in any order. */
  ghost predicate GroupedRows(rows: seq<Row>, logs: seq<Log>) {
    && OncePerGroup(rows) && RowGroups(rows) == LogGroups(logs)
    && forall r :: r in rows ==> Summarises(r, Select(logs, InGroup(RowGroup(r))))
  }

  lemma {:induction false} SelectTwice<T>(xs: seq<T>, p: T -> bool, q: T -> bool)
    requires forall i :: 0 <= i < |xs| && q(xs[i]) ==> p(xs[i])
    ensures Select(Select(xs, p), q) == Select(xs, q)
  {
    if xs != [] {
      var ys, x := xs[..|xs| - 1], xs[|xs| - 1];
      SelectTwice(ys, p, q);
      var kept := Select(ys, p) + [x];
      assert kept[..|kept| - 1] == Select(ys, p);
      assert Select(ys, p) + [] == Select(ys, p) && Select(ys, q) + [] == Select(ys, q);
    }
  }

  /** Without one row, the others group the logs of the other groups. */
  lemma Peel(rows: seq<Row>, r: Row, logs: seq<Log>)
    requires GroupedRows(rows + [r], logs)
    ensures GroupedRows(rows, Select(logs, OutOf(RowGroup(r))))
  {
    var all, k := rows + [r], RowGroup(r);
    var rest := Select(logs, OutOf(k));
    assert all[..|all| - 1] == rows && all[|all| - 1] == r;
    forall s | s in rows ensures Summarises(s, Select(rest, InGroup(RowGroup(s)))) {
      assert s in all && RowGroup(s) in RowGroups(rows);
      SelectTwice(logs, OutOf(k), InGroup(RowGroup(s)));
    }
    forall l ensures l in rest <==> l in logs && GroupOf(l) != k {
      SelectMember(logs, OutOf(k), l);
    }
    GroupsWithout(rows, r, logs, rest);
  }

  lemma GroupsWithout(rows: seq<Row>, r: Row, logs: seq<Log>, rest: seq<Log>)
    requires RowGroups(rows + [r]) == LogGroups(logs) && RowGroup(r) !in RowGroups(rows)
    requires forall l :: l in rest <==> l in logs && GroupOf(l) != RowGroup(r)
    ensures RowGroups(rows) == LogGroups(rest)
  {
    assert forall s :: s in rows + [r] <==> s in rows || s == r;
    forall k | k in RowGroups(rows) ensures k in LogGroups(rest) {
      var s :| s in rows && RowGroup(s) == k;
      assert s in rows + [r];
      assert k in LogGroups(logs);
      var l :| l in logs && GroupOf(l) == k;
      assert l in rest;
    }
    forall k | k in LogGroups(rest) ensures k in RowGroups(rows) {
      var l :| l in rest && GroupOf(l) == k;
      assert l in logs;
      assert k in RowGroups(rows + [r]);
    }
  }

  // ----- one group -----

  function Positive(q: int): int {
    if q > 0 then q else 0
  }

  function PositiveQuota(g: seq<Log>): nat {
    if g == [] then 0 else PositiveQuota(g[..|g| - 1]) + Positive(g[|g| - 1].quota)
  }

  function Price(l: Log, discount: real): Agg {
    Agg(1, l.prompt, l.completion, l.cacheTokens, V3.LogCost(l.quota, V3.RatioOf(l), discount), V3.Revenue(l.quota))
  }

  function CostAt(discount: real): Log -> Agg {
    (l: Log) => Price(l, discount)
  }

  predicate Stated(l: Log) {
    l.ratio.Some? && l.ratio.value > 0.0
  }

  lemma Additive(a: real, b: real, ratio: real, discount: real)
    requires ratio > 0.0
    ensures ((a + b) / ratio) * discount == (a / ratio) * discount + (b / ratio) * discount
  {
    var x, y := a / ratio, b / ratio;
    assert (x + y) * ratio == x * ratio + y * ratio == a + b;
    assert (a + b) / ratio == x + y;
  }

  lemma ProductLess(x: real, y: real, d: real)
    requires x < y && d > 0.0
    ensures x * d < y * d
  {
  }

  /** A larger ratio makes a positive revenue cost less. */
  lemma CheaperAtHigherRatio(revenue: real, low: real, high: real, discount: real)
    requires revenue > 0.0 && 0.0 < low < high && discount > 0.0
    ensures (revenue / high) * discount < (revenue / low) * discount
  {
    var x, y := revenue / high, revenue / low;
    assert x * high == revenue == y * low;
    V3.CostSign(revenue, high, 1.0);
    V3.CostSign(revenue, low, 1.0);
    if x >= y {
      ProductLess(low, high, x);
      if x > y {
        ProductLess(y, x, low);
      }
    }
    ProductLess(x, y, discount);
  }

  lemma CostGrows(p: nat, q: nat, ratio: real, discount: real)
    requires ratio > 0.0 && discount > 0.0
    ensures V3.LogCost(p + q, ratio, discount) == V3.LogCost(p, ratio, discount) + V3.LogCost(q, ratio, discount)
  {
    Additive(V3.Revenue(p), V3.Revenue(q), ratio, discount);
    assert V3.Revenue(p + q) == V3.Revenue(p) + V3.Revenue(q);
  }

  lemma CostAtRatio(quota: int, low: real, high: real, discount: real)
    requires 0.0 < low <= high && discount > 0.0
    ensures V3.LogCost(quota, low, discount) >= V3.LogCost(Positive(quota), high, discount)
    ensures V3.LogCost(quota, low, discount) == V3.LogCost(Positive(quota), high, discount) <==> quota <= 0 || low == high
  {
    if quota > 0 && low < high {
      CheaperAtHigherRatio(V3.Revenue(quota), low, high, discount);
    }
  }

  /** Every log that adds cost is priced at the ratio high. */
  ghost predicate AtRatio(g: seq<Log>, high: real) {
    forall l :: l in g && l.quota > 0 ==> V3.RatioOf(l) == high
  }

  /** Refunds and charges do not meet. */
  ghost predicate OneSign(g: seq<Log>) {
    (forall l :: l in g ==> l.quota >= 0) || (forall l :: l in g ==> l.quota <= 0)
  }

  /** Priced log by log, a group costs at least its positive quota at the highest ratio. */
  lemma {:induction false} GroupCostAtLeast(g: seq<Log>, high: real, discount: real)
    requires discount > 0.0 && high > 0.0
    requires forall l :: l in g ==> V3.RatioOf(l) <= high
    ensures Total(g, CostAt(discount)).cost >= V3.LogCost(PositiveQuota(g), high, discount)
    ensures Total(g, CostAt(discount)).cost == V3.LogCost(PositiveQuota(g), high, discount)
       <==> AtRatio(g, high)
  {
    if g != [] {
      var h, l := g[..|g| - 1], g[|g| - 1];
      assert g == h + [l];
      assert l in g && forall x :: x in g <==> x in h || x == l;
      GroupCostAtLeast(h, high, discount);
      CostGrows(PositiveQuota(h), Positive(l.quota), high, discount);
      CostAtRatio(l.quota, V3.RatioOf(l), high, discount);
    }
  }

  lemma {:induction false} QuotaBelowPositive(g: seq<Log>)
    ensures Sum(g, (l: Log) => l.quota) <= PositiveQuota(g)
    ensures Sum(g, (l: Log) => l.quota) == PositiveQuota(g) <==> forall l :: l in g ==> l.quota >= 0
    ensures PositiveQuota(g) == 0 <==> forall l :: l in g ==> l.quota <= 0
    ensures Sum(g, (l: Log) => l.quota) == PositiveQuota(g) || PositiveQuota(g) == 0 <==> OneSign(g)
  {
    if g != [] {
      QuotaBelowPositive(g[..|g| - 1]);
      assert forall x :: x in g <==> x in g[..|g| - 1] || x == g[|g| - 1];
    }
  }

  lemma {:induction false} MaxRatioIsMax(g: seq<Log>)
    ensures MaxRatio(g).None? <==> forall l :: l in g ==> l.ratio.None?
    ensures MaxRatio(g).Some? ==> forall l :: l in g && l.ratio.Some? ==> l.ratio.value <= MaxRatio(g).value
    ensures MaxRatio(g).Some? ==> exists l :: l in g && l.ratio == MaxRatio(g)
  {
    if g != [] {
      var h, l := g[..|g| - 1], g[|g| - 1];
      assert g == h + [l];
      assert l in g && forall x :: x in g <==> x in h || x == l;
      MaxRatioIsMax(h);
    }
  }

  /** A log without a positive ratio is priced at 1 by v3; the grouped ratio is no lower. */
  ghost predicate Covered(g: seq<Log>) {
    || (forall l :: l in g ==> Stated(l))
    || (forall l :: l in g ==> !Stated(l))
    || (exists l :: l in g && Stated(l) && V3.RatioOf(l) >= 1.0)
  }

  /** The ratio a grouped row is priced at. */
  function RowRatio(r: Row): real {
    if r.ratio <= 0.0 then 1.0 else r.ratio
  }

  lemma RowRatioIsHighest(g: seq<Log>, r: Row)
    requires g != [] && Summarises(r, g) && Covered(g)
    ensures forall l :: l in g ==> V3.RatioOf(l) <= RowRatio(r)
    ensures exists l :: l in g && V3.RatioOf(l) == RowRatio(r)
  {
    MaxRatioIsMax(g);
    assert g[0] in g;
    if exists l :: l in g && Stated(l) {
      var l :| l in g && Stated(l);
      assert l.ratio.value <= r.ratio;
    }
  }

  lemma CostStrict(p: int, q: nat, ratio: real, discount: real)
    requires ratio > 0.0 && discount > 0.0 && p <= q
    ensures V3.LogCost(p, ratio, discount) <= V3.LogCost(q, ratio, discount)
    ensures V3.LogCost(p, ratio, discount) == V3.LogCost(q, ratio, discount) <==> p == q || q == 0
  {
    var extra: nat := q - Positive(p);
    CostGrows(Positive(p), extra, ratio, discount);
    V3.LogCostMeaning(extra, ratio, discount);
  }

  /** Nothing in the group makes the grouped price lower. */
  ghost predicate Level(g: seq<Log>) {
    forall a, b :: a in g && b in g && a.quota > 0 ==> b.quota >= 0 && V3.RatioOf(b) <= V3.RatioOf(a)
  }

  lemma ChargedAtMost(g: seq<Log>, r: Row, discount: real)
    requires Summarises(r, g) && discount > 0.0
    ensures V3.LogCost(r.quota, r.ratio, discount) <= V3.LogCost(PositiveQuota(g), RowRatio(r), discount)
    ensures V3.LogCost(r.quota, r.ratio, discount) == V3.LogCost(PositiveQuota(g), RowRatio(r), discount) <==> OneSign(g)
  {
    QuotaBelowPositive(g);
    CostStrict(r.quota, PositiveQuota(g), RowRatio(r), discount);
  }

  /** One grouped row against its logs, under a positive discount. */
  lemma RowCostAtMost(g: seq<Log>, r: Row, discount: real)
    requires g != [] && Summarises(r, g) && Covered(g) && discount > 0.0
    ensures V3.LogCost(r.quota, r.ratio, discount) <= Total(g, CostAt(discount)).cost
    ensures V3.LogCost(r.quota, r.ratio, discount) == Total(g, CostAt(discount)).cost <==> Level(g)
  {
    RowRatioIsHighest(g, r);
    LevelMeans(g, RowRatio(r));
    ChargedAtMost(g, r, discount);
    GroupCostAtLeast(g, RowRatio(r), discount);
  }

  lemma LevelMeans(g: seq<Log>, high: real)
    requires forall l :: l in g ==> V3.RatioOf(l) <= high
    requires exists l :: l in g && V3.RatioOf(l) == high
    ensures Level(g)
       <==> AtRatio(g, high) && OneSign(g)
  {
    var top :| top in g && V3.RatioOf(top) == high;
    if Level(g) {
      forall l | l in g && l.quota > 0 ensures V3.RatioOf(l) == high {
        assert V3.RatioOf(top) <= V3.RatioOf(l);
      }
    }
  }

  // ----- all groups -----

  /** A log that v3 prices at 1 does not share its group with stated ratios that all lie below 1. */
  ghost predicate RatioCovered(logs: seq<Log>, a: Log) {
    || Stated(a)
    || (forall b :: b in logs && GroupOf(b) == GroupOf(a) ==> !Stated(b))
    || (exists b :: b in logs && GroupOf(b) == GroupOf(a) && Stated(b) && V3.RatioOf(b) >= 1.0)
  }

  /** Every log that is charged at all is covered; quotas play no part. */
  ghost predicate RatiosCovered(mappings: Mappings, logs: seq<Log>) {
    forall a :: a in logs && V4.MappingOf(mappings, a.channel).discount > 0.0 ==> RatioCovered(logs, a)
  }

  /** Every charge has a positive discount, and meets no refund and no larger ratio in its group. */
  ghost predicate Fair(mappings: Mappings, logs: seq<Log>) {
    forall a :: a in logs && a.quota > 0 ==>
      && V4.MappingOf(mappings, a.channel).discount > 0.0
      && forall b :: b in logs && GroupOf(b) == GroupOf(a) ==> b.quota >= 0 && V3.RatioOf(b) <= V3.RatioOf(a)
  }

  /** v3 prices a channel at its mapped discount, or at 1 when that is not positive. */
  function PricedAt(mappings: Mappings, channel: int): real {
    var d := V4.MappingOf(mappings, channel).discount;
    if d <= 0.0 then 1.0 else d
  }

  function PerLog(mappings: Mappings): Log -> Agg {
    (l: Log) => Price(l, PricedAt(mappings, l.channel))
  }

  lemma {:induction false} OneChannel(mappings: Mappings, g: seq<Log>, channel: int)
    requires forall l :: l in g ==> l.channel == channel
    ensures Total(g, PerLog(mappings)) == Total(g, CostAt(PricedAt(mappings, channel)))
  {
    if g != [] {
      OneChannel(mappings, g[..|g| - 1], channel);
    }
  }

  lemma {:induction false} CountsAndRevenue(g: seq<Log>, discount: real)
    ensures Total(g, CostAt(discount)).requests == |g|
    ensures Total(g, CostAt(discount)).revenue == V3.Revenue(Sum(g, (l: Log) => l.quota))
  {
    if g != [] {
      CountsAndRevenue(g[..|g| - 1], discount);
    }
  }

  lemma {:induction false} CostSignTotal(g: seq<Log>, discount: real)
    requires discount > 0.0
    ensures Total(g, CostAt(discount)).cost >= 0.0
    ensures Total(g, CostAt(discount)).cost == 0.0 <==> forall l :: l in g ==> l.quota <= 0
  {
    if g != [] {
      var h, l := g[..|g| - 1], g[|g| - 1];
      CostSignTotal(h, discount);
      V3.LogCostMeaning(l.quota, V3.RatioOf(l), discount);
      assert forall x :: x in g <==> x in h || x == l;
    }
  }

  /** What a grouped row says next to the sum over its logs. */
  ghost predicate Compares(row: Agg, sum: Agg, fair: bool) {
    row.requests == sum.requests && row.revenue == sum.revenue && row.cost <= sum.cost && (row.cost == sum.cost <==> fair)
  }

  /** At a positive discount the row's cost is bounded by its logs'. */
  lemma ChargedRow(mappings: Mappings, g: seq<Log>, r: Row, discount: real)
    requires g != [] && Summarises(r, g) && RatiosCovered(mappings, g) && discount > 0.0
    requires forall l :: l in g ==> GroupOf(l) == RowGroup(r) && V4.MappingOf(mappings, l.channel).discount == discount
    ensures V3.LogCost(r.quota, r.ratio, discount) <= Total(g, CostAt(discount)).cost
    ensures V3.LogCost(r.quota, r.ratio, discount) == Total(g, CostAt(discount)).cost <==> Fair(mappings, g)
  {
    CoveredGroup(mappings, g);
    RowCostAtMost(g, r, discount);
    assert Level(g) <==> Fair(mappings, g);
  }

  /** Without one the row costs nothing, and v3 prices the logs at a discount of 1. */
  lemma FreeRow(mappings: Mappings, g: seq<Log>, r: Row, discount: real)
    requires g != [] && discount <= 0.0
    requires forall l :: l in g ==> V4.MappingOf(mappings, l.channel).discount == discount
    ensures V3.LogCost(r.quota, r.ratio, discount) == 0.0 <= Total(g, CostAt(1.0)).cost
    ensures Total(g, CostAt(1.0)).cost == 0.0 <==> Fair(mappings, g)
  {
    CostSignTotal(g, 1.0);
    V3.LogCostMeaning(r.quota, r.ratio, discount);
    assert Fair(mappings, g) <==> forall l :: l in g ==> l.quota <= 0;
  }

  lemma RowCompares(mappings: Mappings, g: seq<Log>, r: Row)
    requires g != [] && Summarises(r, g) && RatiosCovered(mappings, g)
    requires forall l :: l in g ==> GroupOf(l) == RowGroup(r)
    ensures Compares(V4.SlimLine(mappings, r), Total(g, PerLog(mappings)), Fair(mappings, g))
  {
    var discount := V4.MappingOf(mappings, r.channel).discount;
    OneChannel(mappings, g, r.channel);
    CountsAndRevenue(g, PricedAt(mappings, r.channel));
    if discount > 0.0 {
      ChargedRow(mappings, g, r, discount);
    } else {
      FreeRow(mappings, g, r, discount);
    }
  }

  lemma CoveredGroup(mappings: Mappings, g: seq<Log>)
    requires forall a :: a in g ==> V4.MappingOf(mappings, a.channel).discount > 0.0
    requires forall a, b :: a in g && b in g ==> GroupOf(a) == GroupOf(b)
    ensures Covered(g) <==> RatiosCovered(mappings, g)
  {
    if !Covered(g) {
      var a :| a in g && !Stated(a);
      assert !RatioCovered(g, a);
    }
  }

  lemma Either(a: Agg, b: Agg, x: Agg)
    ensures Plus(Plus(a, b), x) == Plus(Plus(a, x), b) == Plus(a, Plus(b, x))
  {
  }

  lemma TwoPiles(h: seq<Log>, l: Log, a: seq<Log>, b: seq<Log>, val: Log -> Agg)
    requires Total(h, val) == Plus(Total(a, val), Total(b, val))
    ensures Total(h + [l], val) == Plus(Total(a + [l], val), Total(b, val)) == Plus(Total(a, val), Total(b + [l], val))
  {
    TotalSnoc(h, l, val);
    TotalSnoc(a, l, val);
    TotalSnoc(b, l, val);
    Either(Total(a, val), Total(b, val), val(l));
  }

  lemma ByGroupSnoc(h: seq<Log>, l: Log, k: Group, val: Log -> Agg, ins: seq<Log>, outs: seq<Log>)
    requires ins == Select(h, InGroup(k)) && outs == Select(h, OutOf(k))
    requires Total(h, val) == Plus(Total(ins, val), Total(outs, val))
    ensures Total(h + [l], val)
         == Plus(Total(Select(h + [l], InGroup(k)), val), Total(Select(h + [l], OutOf(k)), val))
  {
    SelectSnoc(h, l, InGroup(k));
    SelectSnoc(h, l, OutOf(k));
    TwoPiles(h, l, ins, outs, val);
  }

  lemma {:induction false} TotalByGroup(logs: seq<Log>, k: Group, val: Log -> Agg)
    ensures Total(logs, val) == Plus(Total(Select(logs, InGroup(k)), val), Total(Select(logs, OutOf(k)), val))
  {
    if logs != [] {
      var h, l := logs[..|logs| - 1], logs[|logs| - 1];
      assert h + [l] == logs;
      TotalByGroup(h, k, val);
      ByGroupSnoc(h, l, k, val, Select(h, InGroup(k)), Select(h, OutOf(k)));
    }
  }

  lemma GroupMembers(logs: seq<Log>, k: Group)
    ensures forall l :: l in Select(logs, InGroup(k)) <==> l in logs && GroupOf(l) == k
    ensures forall l :: l in Select(logs, OutOf(k)) <==> l in logs && GroupOf(l) != k
  {
    forall l ensures l in Select(logs, InGroup(k)) <==> l in logs && GroupOf(l) == k {
      SelectMember(logs, InGroup(k), l);
    }
    forall l ensures l in Select(logs, OutOf(k)) <==> l in logs && GroupOf(l) != k {
      SelectMember(logs, OutOf(k), l);
    }
  }

  lemma SplitConditions(mappings: Mappings, logs: seq<Log>, g: seq<Log>, rest: seq<Log>, k: Group)
    requires forall l :: l in g <==> l in logs && GroupOf(l) == k
    requires forall l :: l in rest <==> l in logs && GroupOf(l) != k
    ensures Fair(mappings, logs) <==> Fair(mappings, g) && Fair(mappings, rest)
    ensures RatiosCovered(mappings, logs) <==> RatiosCovered(mappings, g) && RatiosCovered(mappings, rest)
  {
    forall a | a in logs ensures RatioCovered(logs, a) <==> if GroupOf(a) == k then RatioCovered(g, a) else RatioCovered(rest, a) {
    }
  }

  lemma ComparesPlus(a: Agg, b: Agg, x: Agg, y: Agg, one: bool, two: bool)
    requires Compares(a, x, one) && Compares(b, y, two)
    ensures Compares(Plus(a, b), Plus(y, x), two && one) && Compares(Plus(a, b), Plus(x, y), one && two)
  {
  }

  lemma RowsStep(mappings: Mappings, before: seq<Row>, r: Row, logs: seq<Log>, g: seq<Log>, rest: seq<Log>)
    requires GroupedRows(before + [r], logs) && RatiosCovered(mappings, logs)
    requires g == Select(logs, InGroup(RowGroup(r))) && rest == Select(logs, OutOf(RowGroup(r)))
    ensures GroupedRows(before, rest) && RatiosCovered(mappings, rest)
    ensures Compares(V4.SlimLine(mappings, r), Total(g, PerLog(mappings)), Fair(mappings, g))
    ensures Fair(mappings, logs) <==> Fair(mappings, g) && Fair(mappings, rest)
  {
    Peel(before, r, logs);
    GroupMembers(logs, RowGroup(r));
    SplitConditions(mappings, logs, g, rest, RowGroup(r));
    HasLogs(before + [r], r, logs);
    assert r in before + [r];
    RowCompares(mappings, g, r);
  }

  /** The rows of a grouping, taken together, against all of its logs. */
  lemma {:induction false} RowsCompare(mappings: Mappings, rows: seq<Row>, logs: seq<Log>)
    requires GroupedRows(rows, logs) && RatiosCovered(mappings, logs)
    ensures Compares(Total(rows, V4.SlimVal(mappings)), Total(logs, PerLog(mappings)), Fair(mappings, logs))
    decreases |rows|
  {
    if rows == [] {
      if logs != [] {
        SomeGroup(logs);
      }
    } else {
      var before, r := rows[..|rows| - 1], rows[|rows| - 1];
      var g, rest := Select(logs, InGroup(RowGroup(r))), Select(logs, OutOf(RowGroup(r)));
      assert before + [r] == rows;
      RowsStep(mappings, before, r, logs, g, rest);
      RowsCompare(mappings, before, rest);
      TotalByGroup(logs, RowGroup(r), PerLog(mappings));
      TotalSnoc(before, r, V4.SlimVal(mappings));
      ComparesPlus(Total(before, V4.SlimVal(mappings)), V4.SlimLine(mappings, r),
                   Total(rest, PerLog(mappings)), Total(g, PerLog(mappings)), Fair(mappings, rest), Fair(mappings, g));
    }
  }

  lemma SomeGroup(logs: seq<Log>)
    requires logs != []
    ensures LogGroups(logs) != {}
  {
    assert logs[0] in logs;
    assert GroupOf(logs[0]) in LogGroups(logs);
  }

  lemma HasLogs(rows: seq<Row>, r: Row, logs: seq<Log>)
    requires RowGroups(rows) == LogGroups(logs) && r in rows
    ensures Select(logs, InGroup(RowGroup(r))) != []
  {
    assert RowGroup(r) in LogGroups(logs);
    var l :| l in logs && GroupOf(l) == RowGroup(r);
    SelectMember(logs, InGroup(RowGroup(r)), l);
  }

  // ----- one vendor -----

  function ChannelsOf(mappings: Mappings, vendor: string): set<int> {
    set c | c in mappings && mappings[c].vendor == vendor
  }

  function DiscountsOf(mappings: Mappings, vendor: string): map<int, real> {
    map c | c in mappings && mappings[c].vendor == vendor :: mappings[c].discount
  }

  /** The overview query: the end is exclusive, and every channel is read. */
  function InRange(start: int, end: int): Log -> bool {
    (l: Log) => l.kind == V3.CONSUME && start <= l.createdAt < end
  }

  function LogOfVendor(mappings: Mappings, vendor: string): Log -> bool {
    (l: Log) => l.channel in ChannelsOf(mappings, vendor)
  }

  lemma {:induction false} SelectOnce(mappings: Mappings, rows: seq<Row>, vendor: string)
    requires OncePerGroup(rows)
    ensures OncePerGroup(Select(rows, V4.OfVendor(mappings, vendor)))
    ensures forall r :: r in Select(rows, V4.OfVendor(mappings, vendor)) <==> r in rows && r.channel in ChannelsOf(mappings, vendor)
  {
    var p := V4.OfVendor(mappings, vendor);
    if rows != [] {
      var h, r := rows[..|rows| - 1], rows[|rows| - 1];
      SelectOnce(mappings, h, vendor);
      assert forall x :: x in rows <==> x in h || x == r;
      if p(r) {
        var kept := Select(h, p) + [r];
        assert kept[..|kept| - 1] == Select(h, p);
      } else {
        assert Select(h, p) + [] == Select(h, p);
      }
    }
  }

  lemma GroupsOfSome(rows: seq<Row>, logs: seq<Log>, rs: seq<Row>, ls: seq<Log>, channels: set<int>)
    requires RowGroups(rows) == LogGroups(logs)
    requires forall r :: r in rs <==> r in rows && r.channel in channels
    requires forall l :: l in ls <==> l in logs && l.channel in channels
    ensures RowGroups(rs) == LogGroups(ls)
  {
    forall k | k in RowGroups(rs) ensures k in LogGroups(ls) {
      var r :| r in rs && RowGroup(r) == k;
      assert k in RowGroups(rows);
      var l :| l in logs && GroupOf(l) == k;
      assert l in ls;
    }
    forall k | k in LogGroups(ls) ensures k in RowGroups(rs) {
      var l :| l in ls && GroupOf(l) == k;
      assert k in LogGroups(logs);
      var r :| r in rows && RowGroup(r) == k;
      assert r in rs;
    }
  }

  lemma VendorRowSummarises(mappings: Mappings, r: Row, logs: seq<Log>, vendor: string)
    requires r.channel in ChannelsOf(mappings, vendor) && Summarises(r, Select(logs, InGroup(RowGroup(r))))
    ensures Summarises(r, Select(Select(logs, LogOfVendor(mappings, vendor)), InGroup(RowGroup(r))))
  {
    SelectTwice(logs, LogOfVendor(mappings, vendor), InGroup(RowGroup(r)));
  }

  /** A vendor's rows are the grouping of the vendor's logs, for a row and its logs share their channel. */
  lemma VendorRowsGrouped(mappings: Mappings, rows: seq<Row>, logs: seq<Log>, vendor: string)
    requires GroupedRows(rows, logs)
    ensures GroupedRows(Select(rows, V4.OfVendor(mappings, vendor)), Select(logs, LogOfVendor(mappings, vendor)))
  {
    var rs, ls := Select(rows, V4.OfVendor(mappings, vendor)), Select(logs, LogOfVendor(mappings, vendor));
    SelectOnce(mappings, rows, vendor);
    forall r | r in rs ensures Summarises(r, Select(ls, InGroup(RowGroup(r)))) {
      VendorRowSummarises(mappings, r, logs, vendor);
    }
    forall l ensures l in ls <==> l in logs && l.channel in ChannelsOf(mappings, vendor) {
      SelectMember(logs, LogOfVendor(mappings, vendor), l);
    }
    GroupsOfSome(rows, logs, rs, ls, ChannelsOf(mappings, vendor));
  }

  lemma {:induction false} StatementPrices(mappings: Mappings, vendor: string, logs: seq<Log>)
    requires forall l :: l in logs ==> l.channel in ChannelsOf(mappings, vendor)
    ensures Total(logs, V3.LineOf(DiscountsOf(mappings, vendor))) == Total(logs, PerLog(mappings))
  {
    if logs != [] {
      var h, l := logs[..|logs| - 1], logs[|logs| - 1];
      StatementPrices(mappings, vendor, h);
      assert l in logs;
      assert V3.DiscountOf(DiscountsOf(mappings, vendor), l.channel) == PricedAt(mappings, l.channel);
      assert V3.Line(DiscountsOf(mappings, vendor), l) == Price(l, PricedAt(mappings, l.channel));
      assert V3.LineOf(DiscountsOf(mappings, vendor))(l) == PerLog(mappings)(l);
    }
  }

  /**
   * A vendor's line in the overview over [start, end) against the vendor's statement over [start, end - 1]:
   * the same requests and revenue, and a cost that is no larger and equal exactly when the logs are fair.
   */
  lemma VendorLineAgainstStatement(table: seq<Log>, mappings: Mappings, vendor: string, start: int, end: int,
                                   rows: seq<Row>, logs: seq<Log>)
    requires vendor != ""
    requires GroupedRows(rows, Select(table, InRange(start, end)))
    requires Returned(logs, table, V3.InPeriod(start, end - 1, ChannelsOf(mappings, vendor)))
    requires RatiosCovered(mappings, logs)
    ensures Compares(Entry(V4.Sums(V4.Fold(mappings, rows).byVendor), vendor),
                     V3.StatementOf(vendor, start, end - 1, DiscountsOf(mappings, vendor), logs).total,
                     Fair(mappings, logs))
  {
    var all := Select(table, InRange(start, end));
    var mine := Select(all, LogOfVendor(mappings, vendor));
    StatementLogs(table, mappings, vendor, start, end, logs);
    V3.StatementDescribes(vendor, start, end - 1, DiscountsOf(mappings, vendor), logs);
    VendorRowsGrouped(mappings, rows, all, vendor);
    RowsCompare(mappings, Select(rows, V4.OfVendor(mappings, vendor)), mine);
    V4.VendorEntry(mappings, rows, vendor);
  }

  /** The statement's logs are the vendor's among the overview's. */
  lemma StatementLogs(table: seq<Log>, mappings: Mappings, vendor: string, start: int, end: int, logs: seq<Log>)
    requires Returned(logs, table, V3.InPeriod(start, end - 1, ChannelsOf(mappings, vendor)))
    ensures var mine := Select(Select(table, InRange(start, end)), LogOfVendor(mappings, vendor));
            && Total(logs, V3.LineOf(DiscountsOf(mappings, vendor))) == Total(mine, PerLog(mappings))
            && (Fair(mappings, logs) <==> Fair(mappings, mine))
            && (RatiosCovered(mappings, logs) <==> RatiosCovered(mappings, mine))
  {
    var all := Select(table, InRange(start, end));
    var mine := Select(all, LogOfVendor(mappings, vendor));
    SelectBoth(table, InRange(start, end), LogOfVendor(mappings, vendor),
               V3.InPeriod(start, end - 1, ChannelsOf(mappings, vendor)));
    SameMembers(mappings, logs, mine);
    forall l | l in mine ensures l.channel in ChannelsOf(mappings, vendor) {
      SelectMember(all, LogOfVendor(mappings, vendor), l);
    }
    StatementPrices(mappings, vendor, mine);
    TotalPermuted(logs, mine, V3.LineOf(DiscountsOf(mappings, vendor)));
  }

  lemma SameMembers(mappings: Mappings, xs: seq<Log>, ys: seq<Log>)
    requires multiset(xs) == multiset(ys)
    ensures Fair(mappings, xs) <==> Fair(mappings, ys)
    ensures RatiosCovered(mappings, xs) <==> RatiosCovered(mappings, ys)
  {
    assert forall l :: l in xs <==> l in multiset(xs);
    assert forall l :: l in ys <==> l in multiset(ys);
  }

  lemma {:induction false} SelectBoth<T>(xs: seq<T>, p: T -> bool, q: T -> bool, both: T -> bool)
    requires forall i :: 0 <= i < |xs| ==> (both(xs[i]) <==> p(xs[i]) && q(xs[i]))
    ensures Select(Select(xs, p), q) == Select(xs, both)
  {
    if xs != [] {
      var ys, x := xs[..|xs| - 1], xs[|xs| - 1];
      SelectBoth(ys, p, q, both);
      var kept := Select(ys, p) + [x];
      assert kept[..|kept| - 1] == Select(ys, p);
      assert Select(ys, p) + [] == Select(ys, p) && Select(ys, both) + [] == Select(ys, both);
    }
  }

  // ----- exactly where the bound holds -----

  /** The same logs with other quotas, none negative. */
  predicate Requoted(logs: seq<Log>, more: seq<Log>) {
    |more| == |logs| && forall i :: 0 <= i < |logs| ==> more[i].quota >= 0 && more[i] == logs[i].(quota := more[i].quota)
  }

  /** The row of one group. */
  function RowFor(k: Group, g: seq<Log>): Row {
    V4.Row(k.user, k.channel, k.model, k.createdAt, if MaxRatio(g).Some? then MaxRatio(g).value else 1.0, |g|,
           Sum(g, (l: Log) => l.prompt), Sum(g, (l: Log) => l.completion), Sum(g, (l: Log) => l.cacheTokens),
           Sum(g, (l: Log) => l.quota))
  }

  lemma {:induction false} SelectShorter<T>(xs: seq<T>, p: T -> bool)
    ensures |Select(xs, p)| <= |xs|
    ensures (exists x :: x in xs && !p(x)) ==> |Select(xs, p)| < |xs|
  {
    if xs != [] {
      var ys := xs[..|xs| - 1];
      SelectShorter(ys, p);
      assert forall x :: x in xs <==> x in ys || x == xs[|xs| - 1];
    }
  }

  /** Adding the row of a group to the rows of the other groups. */
  lemma Unpeel(rows: seq<Row>, k: Group, logs: seq<Log>)
    requires GroupedRows(rows, Select(logs, OutOf(k))) && Select(logs, InGroup(k)) != []
    ensures GroupedRows(rows + [RowFor(k, Select(logs, InGroup(k)))], logs)
  {
    var g, rest := Select(logs, InGroup(k)), Select(logs, OutOf(k));
    var r := RowFor(k, g);
    var all := rows + [r];
    GroupMembers(logs, k);
    assert all[..|all| - 1] == rows;
    assert forall s :: s in all <==> s in rows || s == r;
    GroupsOfAll(rows, r, logs, g, rest);
    forall s | s in all ensures Summarises(s, Select(logs, InGroup(RowGroup(s)))) {
      if s in rows {
        assert RowGroup(s) in RowGroups(rows);
        SelectTwice(logs, OutOf(k), InGroup(RowGroup(s)));
      }
    }
  }

  lemma GroupsOfAll(rows: seq<Row>, r: Row, logs: seq<Log>, g: seq<Log>, rest: seq<Log>)
    requires RowGroups(rows) == LogGroups(rest) && g != []
    requires forall l :: l in g <==> l in logs && GroupOf(l) == RowGroup(r)
    requires forall l :: l in rest <==> l in logs && GroupOf(l) != RowGroup(r)
    ensures RowGroups(rows + [r]) == LogGroups(logs) && RowGroup(r) !in RowGroups(rows)
  {
    assert g[0] in g;
    assert forall s :: s in rows + [r] <==> s in rows || s == r;
    forall k | k in LogGroups(logs) ensures k in RowGroups(rows + [r]) {
      var l :| l in logs && GroupOf(l) == k;
      if k != RowGroup(r) {
        assert l in rest;
        assert k in RowGroups(rows);
        var s :| s in rows && RowGroup(s) == k;
        assert s in rows + [r];
      } else {
        assert r in rows + [r];
      }
    }
    forall k | k in RowGroups(rows + [r]) ensures k in LogGroups(logs) {
      var s :| s in rows + [r] && RowGroup(s) == k;
      if s in rows {
        assert k in LogGroups(rest);
        var l :| l in rest && GroupOf(l) == k;
        assert l in logs;
      } else {
        assert g[0] in logs;
      }
    }
  }

  /** The grouping query has a result on every table. */
  lemma {:induction false} RowsExist(logs: seq<Log>) returns (rows: seq<Row>)
    ensures GroupedRows(rows, logs)
    decreases |logs|
  {
    if logs == [] {
      rows := [];
    } else {
      var l := logs[|logs| - 1];
      var k := GroupOf(l);
      SelectShorter(logs, OutOf(k));
      SelectMember(logs, InGroup(k), l);
      var rest := RowsExist(Select(logs, OutOf(k)));
      Unpeel(rest, k, logs);
      rows := rest + [RowFor(k, Select(logs, InGroup(k)))];
    }
  }

  predicate NotDearer(mappings: Mappings, rows: seq<Row>, logs: seq<Log>) {
    Total(rows, V4.SlimVal(mappings)).cost <= Total(logs, PerLog(mappings)).cost
  }

  ghost predicate Regrouped(logs: seq<Log>, more: seq<Log>, rows: seq<Row>) {
    Requoted(logs, more) && GroupedRows(rows, more)
  }

  /** v4 never charges the logs more than v3 does, whatever non-negative quotas they carry. */
  ghost predicate NeverDearer(mappings: Mappings, logs: seq<Log>) {
    forall more, rows :: Regrouped(logs, more, rows) ==> NotDearer(mappings, rows, more)
  }

  /** Coverage looks at groups and ratios only. */
  lemma CoveredLog(logs: seq<Log>, more: seq<Log>, i: nat)
    requires Requoted(logs, more) && i < |logs| && RatioCovered(logs, logs[i])
    ensures RatioCovered(more, more[i])
  {
    if !Stated(logs[i]) {
      if c :| c in logs && GroupOf(c) == GroupOf(logs[i]) && Stated(c) && V3.RatioOf(c) >= 1.0 {
        var m :| 0 <= m < |logs| && logs[m] == c;
        assert more[m] in more && GroupOf(more[m]) == GroupOf(more[i]);
      } else {
        forall b | b in more && GroupOf(b) == GroupOf(more[i]) ensures !Stated(b) {
          var j :| 0 <= j < |more| && more[j] == b;
          assert logs[j] in logs && GroupOf(logs[j]) == GroupOf(logs[i]);
        }
      }
    }
  }

  lemma CoveredByPattern(mappings: Mappings, logs: seq<Log>, more: seq<Log>)
    requires Requoted(logs, more) && RatiosCovered(mappings, logs)
    ensures RatiosCovered(mappings, more)
  {
    forall a | a in more && V4.MappingOf(mappings, a.channel).discount > 0.0 ensures RatioCovered(more, a) {
      var i :| 0 <= i < |more| && more[i] == a;
      assert logs[i] in logs;
      CoveredLog(logs, more, i);
    }
  }

  lemma CoveredNeverDearer(mappings: Mappings, logs: seq<Log>)
    requires RatiosCovered(mappings, logs)
    ensures NeverDearer(mappings, logs)
  {
    forall more, rows | Regrouped(logs, more, rows) ensures NotDearer(mappings, rows, more) {
      CoveredByPattern(mappings, logs, more);
      RowsCompare(mappings, rows, more);
    }
  }

  // ----- a charge on an uncovered log -----

  const UNIT := 500000

  /** All of the quota, one unit, on log i. */
  function OneCharge(logs: seq<Log>, i: nat): seq<Log> {
    seq(|logs|, j requires 0 <= j < |logs| => logs[j].(quota := if j == i then UNIT else 0))
  }

  lemma {:induction false} NoQuotaNoCost(mappings: Mappings, g: seq<Log>)
    requires forall l :: l in g ==> l.quota == 0
    ensures Total(g, PerLog(mappings)).cost == 0.0 && Sum(g, (l: Log) => l.quota) == 0
  {
    if g != [] {
      var h, l := g[..|g| - 1], g[|g| - 1];
      assert l in g;
      NoQuotaNoCost(mappings, h);
    }
  }

  lemma {:induction false} SumConcat(a: seq<Log>, b: seq<Log>, column: Log -> int)
    ensures Sum(a + b, column) == Sum(a, column) + Sum(b, column)
    decreases |b|
  {
    if b == [] {
      assert a + b == a;
    } else {
      assert (a + b)[..|a + b| - 1] == a + b[..|b| - 1];
      SumConcat(a, b[..|b| - 1], column);
    }
  }

  /** A group in which a single log carries quota. */
  lemma SingleCharge(mappings: Mappings, a: seq<Log>, l: Log, b: seq<Log>)
    requires forall x :: x in a || x in b ==> x.quota == 0
    ensures Total(a + [l] + b, PerLog(mappings)).cost == PerLog(mappings)(l).cost
    ensures Sum(a + [l] + b, (x: Log) => x.quota) == l.quota
  {
    var quota := (x: Log) => x.quota;
    TotalInsert(a + [l] + b, a, l, b, PerLog(mappings));
    assert forall x :: x in a + b ==> x in a || x in b;
    NoQuotaNoCost(mappings, a + b);
    NoQuotaNoCost(mappings, a);
    NoQuotaNoCost(mappings, b);
    SumConcat(a + [l], b, quota);
    SumConcat(a, [l], quota);
    SumOne(l, quota);
  }

  lemma SumOne(l: Log, column: Log -> int)
    ensures Sum([l], column) == column(l)
  {
    assert [l][..0] == [];
  }

  /** The charged group has a higher stated ratio below 1 than the 1 at which v3 prices the charge. */
  lemma DearerGroup(mappings: Mappings, g: seq<Log>, r: Row, l: Log)
    requires Summarises(r, g) && r.quota == l.quota == UNIT && l in g && !Stated(l)
    requires exists b :: b in g && Stated(b)
    requires forall b :: b in g && Stated(b) ==> V3.RatioOf(b) < 1.0
    requires r.channel == l.channel && V4.MappingOf(mappings, l.channel).discount > 0.0
    ensures V4.RowCost(mappings, r) > V3.LogCost(l.quota, V3.RatioOf(l), PricedAt(mappings, l.channel))
  {
    MaxRatioIsMax(g);
    var top :| top in g && Stated(top);
    var high :| high in g && high.ratio == MaxRatio(g);
    assert top.ratio.value <= high.ratio.value;
    assert Stated(high) && r.ratio == V3.RatioOf(high) < 1.0;
    DearerBelowOne(r.ratio, V4.MappingOf(mappings, l.channel).discount);
    assert V3.RatioOf(l) == 1.0;
  }

  lemma DearerBelowOne(ratio: real, discount: real)
    requires 0.0 < ratio < 1.0 && discount > 0.0
    ensures V3.LogCost(UNIT, ratio, discount) > V3.LogCost(UNIT, 1.0, discount)
  {
    CheaperAtHigherRatio(V3.Revenue(UNIT), ratio, 1.0, discount);
  }

  lemma OneChargeSplit(logs: seq<Log>, i: nat)
    requires i < |logs|
    ensures var more := OneCharge(logs, i);
            && Requoted(logs, more) && more == more[..i] + [more[i]] + more[i + 1..]
            && more[i] == logs[i].(quota := UNIT)
            && forall x :: x in more[..i] || x in more[i + 1..] ==> x.quota == 0
  {
  }

  lemma {:induction false} CostsAddUp(mappings: Mappings, rows: seq<Row>, r: Row)
    requires r in rows
    ensures Total(rows, V4.SlimVal(mappings)).cost >= V4.SlimLine(mappings, r).cost
  {
    var n := |rows| - 1;
    RowCostsNotNegative(mappings, rows[..n]);
    V3.LogCostMeaning(rows[n].quota, rows[n].ratio, V4.MappingOf(mappings, rows[n].channel).discount);
    if rows[n] != r {
      assert r in rows[..n];
      CostsAddUp(mappings, rows[..n], r);
    }
  }

  lemma {:induction false} RowCostsNotNegative(mappings: Mappings, rows: seq<Row>)
    ensures Total(rows, V4.SlimVal(mappings)).cost >= 0.0
  {
    if rows != [] {
      var r := rows[|rows| - 1];
      RowCostsNotNegative(mappings, rows[..|rows| - 1]);
      V3.LogCostMeaning(r.quota, r.ratio, V4.MappingOf(mappings, r.channel).discount);
    }
  }

  /** The logs of the charged log's group: the charge is their whole quota. */
  lemma ChargedGroup(mappings: Mappings, logs: seq<Log>, i: nat, more: seq<Log>, l: Log, g: seq<Log>)
    requires i < |logs| && more == OneCharge(logs, i) && l == more[i] && g == Select(more, InGroup(GroupOf(l)))
    ensures Sum(g, (x: Log) => x.quota) == UNIT && l in g
    ensures Total(more, PerLog(mappings)).cost == PerLog(mappings)(l).cost
  {
    OneChargeSplit(logs, i);
    var a, b, p := more[..i], more[i + 1..], InGroup(GroupOf(l));
    SingleCharge(mappings, a, l, b);
    SelectMember(more, p, l);
    SelectConcat(a + [l], b, p);
    SelectSnoc(a, l, p);
    assert g == Select(a, p) + [l] + Select(b, p);
    forall x | x in Select(a, p) || x in Select(b, p) ensures x.quota == 0 {
      SelectMember(a, p, x);
      SelectMember(b, p, x);
    }
    SingleCharge(mappings, Select(a, p), l, Select(b, p));
  }

  lemma UncoveredInGroup(logs: seq<Log>, i: nat, more: seq<Log>, l: Log, g: seq<Log>)
    requires i < |logs| && more == OneCharge(logs, i) && l == more[i] && !RatioCovered(logs, logs[i])
    requires forall x :: x in g <==> x in more && GroupOf(x) == GroupOf(l)
    ensures !Stated(l) && exists b :: b in g && Stated(b)
    ensures forall b :: b in g && Stated(b) ==> V3.RatioOf(b) < 1.0
  {
    OneChargeSplit(logs, i);
    var b :| b in logs && GroupOf(b) == GroupOf(logs[i]) && Stated(b);
    var j :| 0 <= j < |logs| && logs[j] == b;
    assert more[j] in more;
    forall x | x in g && Stated(x) ensures V3.RatioOf(x) < 1.0 {
      var m :| 0 <= m < |more| && more[m] == x;
      assert logs[m] in logs;
    }
  }

  /** A unit on an uncovered log and nothing elsewhere: v4 charges more. */
  lemma UncoveredDearer(mappings: Mappings, logs: seq<Log>, i: nat) returns (more: seq<Log>, rows: seq<Row>)
    requires i < |logs| && V4.MappingOf(mappings, logs[i].channel).discount > 0.0 && !RatioCovered(logs, logs[i])
    ensures Regrouped(logs, more, rows) && !NotDearer(mappings, rows, more)
  {
    more := OneCharge(logs, i);
    rows := RowsExist(more);
    OneChargeSplit(logs, i);
    var l := more[i];
    var k := GroupOf(l);
    var g := Select(more, InGroup(k));
    ChargedGroup(mappings, logs, i, more, l, g);
    GroupMembers(more, k);
    UncoveredInGroup(logs, i, more, l, g);
    assert k in LogGroups(more);
    var r :| r in rows && RowGroup(r) == k;
    DearerGroup(mappings, g, r, l);
    CostsAddUp(mappings, rows, r);
  }

  /**
   * For a fixed pattern of groups and ratios, v4 charges at most what v3 does for all non-negative quotas exactly
   * when the pattern is covered wherever the discount is positive.
   */
  lemma NeverDearerIff(mappings: Mappings, logs: seq<Log>)
    ensures NeverDearer(mappings, logs) <==> RatiosCovered(mappings, logs)
  {
    if RatiosCovered(mappings, logs) {
      CoveredNeverDearer(mappings, logs);
    } else {
      var a :| a in logs && V4.MappingOf(mappings, a.channel).discount > 0.0 && !RatioCovered(logs, a);
      var i :| 0 <= i < |logs| && logs[i] == a;
      var more, rows := UncoveredDearer(mappings, logs, i);
      assert Regrouped(logs, more, rows) && !NotDearer(mappings, rows, more);
    }
  }

  /** For instance: a log without a ratio beside one at a half. */
  lemma HalfIsUncovered(mappings: Mappings, full: Log, half: Log)
    requires V4.MappingOf(mappings, full.channel).discount > 0.0
    requires full.ratio == None && half == full.(ratio := Some(0.5))
    ensures !NeverDearer(mappings, [full, half])
  {
    var logs := [full, half];
    assert full in logs && half in logs;
    assert Stated(half) && V3.RatioOf(half) == 0.5 && GroupOf(half) == GroupOf(full);
    assert !RatioCovered(logs, full);
    NeverDearerIff(mappings, logs);
  }
}
