/** The v4 profit overview: one pass over grouped rows fills totals and four maps, which are then sorted. */
module ProfitOverview {
  import opened Options
  import opened Grouping
  import opened UpstreamCost

  /** One row of the grouping query: user, channel, model and second. */
  datatype Row = Row(user: int, channel: int, model: string, createdAt: int, ratio: real,
                     requests: int, prompt: int, completion: int, cache: int, quota: int)

  /** A channel's vendor and discount. */
  datatype Mapping = Mapping(vendor: string, discount: real)

  function MappingOf(mappings: map<int, Mapping>, channel: int): Mapping {
    if channel in mappings then mappings[channel] else Mapping("", 1.0)
  }

  function RowCost(mappings: map<int, Mapping>, r: Row): real {
    LogCost(r.quota, r.ratio, MappingOf(mappings, r.channel).discount)
  }

  function UserLine(mappings: map<int, Mapping>, r: Row): Agg {
    Agg(r.requests, r.prompt, r.completion, r.cache, RowCost(mappings, r), Revenue(r.quota))
  }

  /** Vendor, model and day rows carry no tokens. */
  function SlimLine(mappings: map<int, Mapping>, r: Row): Agg {
    Agg(r.requests, 0, 0, 0, RowCost(mappings, r), Revenue(r.quota))
  }

  function UserVal(mappings: map<int, Mapping>): Row -> Agg {
    (r: Row) => UserLine(mappings, r)
  }

  function SlimVal(mappings: map<int, Mapping>): Row -> Agg {
    (r: Row) => SlimLine(mappings, r)
  }

  function UserKey(): Row -> Option<int> {
    (r: Row) => Some(r.user)
  }

  function VendorKey(mappings: map<int, Mapping>): Row -> Option<string> {
    (r: Row) => var v := MappingOf(mappings, r.channel).vendor; if v == "" then None else Some(v)
  }

  function ModelKey(): Row -> Option<string> {
    (r: Row) => if r.model == "" then None else Some(r.model)
  }

  function DayKey(): Row -> Option<int> {
    (r: Row) => Some(r.createdAt / DAY)
  }

  /** An entry of a grouping map, with the fields that are kept up to date on every row. */
  datatype Line = Line(sum: Agg, profit: real, rate: real)

  const BLANK := Line(ZERO, 0.0, 0.0)

  /** Adds to the sums, then recomputes profit; the rate only while there is cost. */
  function Touch(l: Line, add: Agg): Line {
    var sum := Plus(l.sum, add);
    var profit := sum.revenue - sum.cost;
    Line(sum, profit, if sum.cost > 0.0 then profit / sum.cost else l.rate)
  }

  function Grow<K(==)>(m: map<K, Line>, k: Option<K>, add: Agg): map<K, Line> {
    match k
    case None => m
    case Some(key) => m[key := Touch(if key in m then m[key] else BLANK, add)]
  }

  function Sums<K>(m: map<K, Line>): map<K, Agg> {
    map k | k in m :: m[k].sum
  }

  predicate LineOk(l: Line) {
    && l.sum.cost >= 0.0
    && l.profit == l.sum.revenue - l.sum.cost
    && l.rate == if l.sum.cost > 0.0 then l.profit / l.sum.cost else 0.0
  }

  /** A day's entry carries no rate. */
  datatype DayLine = DayLine(sum: Agg, profit: real)

  function GrowDay(m: map<int, DayLine>, day: int, add: Agg): map<int, DayLine> {
    var sum := Plus(if day in m then m[day].sum else ZERO, add);
    m[day := DayLine(sum, sum.revenue - sum.cost)]
  }

  function DaySums(m: map<int, DayLine>): map<int, Agg> {
    map k | k in m :: m[k].sum
  }

  predicate DayLineOk(l: DayLine) {
    l.profit == l.sum.revenue - l.sum.cost
  }

  ghost predicate DaysGrouped(m: map<int, DayLine>, rows: seq<Row>, val: Row -> Agg) {
    Groups(DaySums(m), rows, DayKey(), val) && forall k :: k in m ==> DayLineOk(m[k])
  }

  lemma GrowDaySums(m: map<int, DayLine>, day: int, add: Agg)
    ensures DaySums(GrowDay(m, day, add)) == DaySums(m)[day := Plus(Entry(DaySums(m), day), add)]
  {
  }

  lemma DaysSnoc(m: map<int, DayLine>, rows: seq<Row>, r: Row, val: Row -> Agg)
    requires DaysGrouped(m, rows, val)
    ensures DaysGrouped(GrowDay(m, r.createdAt / DAY, val(r)), rows + [r], val)
  {
    GroupsSnoc(DaySums(m), rows, r, DayKey(), val);
    GrowDaySums(m, r.createdAt / DAY, val(r));
  }

  /** m is the grouping of rows, and each of its lines is consistent. */
  ghost predicate Grouped<K>(m: map<K, Line>, rows: seq<Row>, key: Row -> Option<K>, val: Row -> Agg) {
    Groups(Sums(m), rows, key, val) && forall k :: k in m ==> LineOk(m[k])
  }

  lemma GrowSums<K>(m: map<K, Line>, k: K, add: Agg)
    ensures Sums(Grow(m, Some(k), add)) == Sums(m)[k := Plus(Entry(Sums(m), k), add)]
  {
  }

  lemma GroupedSnoc<K>(m: map<K, Line>, rows: seq<Row>, r: Row, key: Row -> Option<K>, val: Row -> Agg)
    requires Grouped(m, rows, key, val) && val(r).cost >= 0.0
    ensures Grouped(Grow(m, key(r), val(r)), rows + [r], key, val)
  {
    GroupsSnoc(Sums(m), rows, r, key, val);
    if key(r).Some? {
      GrowSums(m, key(r).value, val(r));
    }
  }

  lemma GroupedMore<K>(m: map<K, Line>, rows: seq<Row>, key: Row -> Option<K>, val: Row -> Agg)
    requires rows != [] && Grouped(m, rows[..|rows| - 1], key, val) && val(rows[|rows| - 1]).cost >= 0.0
    ensures Grouped(Grow(m, key(rows[|rows| - 1]), val(rows[|rows| - 1])), rows, key, val)
  {
    var n := |rows| - 1;
    GroupedSnoc(m, rows[..n], rows[n], key, val);
    assert rows == rows[..n] + [rows[n]];
  }

  lemma DaysMore(m: map<int, DayLine>, rows: seq<Row>, val: Row -> Agg)
    requires rows != [] && DaysGrouped(m, rows[..|rows| - 1], val)
    ensures DaysGrouped(GrowDay(m, rows[|rows| - 1].createdAt / DAY, val(rows[|rows| - 1])), rows, val)
  {
    var n := |rows| - 1;
    DaysSnoc(m, rows[..n], rows[n], val);
    assert rows == rows[..n] + [rows[n]];
  }

  // ----- the pass -----

  datatype Books = Books(cost: real, revenue: real, profit: real, users: set<int>, byUser: map<int, Line>,
                     byVendor: map<string, Line>, byModel: map<string, Line>, byDay: map<int, DayLine>)

  const START := Books(0.0, 0.0, 0.0, {}, map[], map[], map[], map[])

  function Next(acc: Books, mappings: map<int, Mapping>, r: Row): Books {
    var user, slim := UserLine(mappings, r), SlimLine(mappings, r);
    Books(acc.cost + user.cost, acc.revenue + user.revenue, acc.profit + (user.revenue - user.cost),
        acc.users + {r.user},
        Grow(acc.byUser, UserKey()(r), user),
        Grow(acc.byVendor, VendorKey(mappings)(r), slim),
        Grow(acc.byModel, ModelKey()(r), slim),
        GrowDay(acc.byDay, r.createdAt / DAY, slim))
  }

  function Fold(mappings: map<int, Mapping>, rows: seq<Row>): Books {
    if rows == [] then START else Next(Fold(mappings, rows[..|rows| - 1]), mappings, rows[|rows| - 1])
  }

  lemma FoldSnoc(mappings: map<int, Mapping>, rows: seq<Row>, r: Row)
    ensures Fold(mappings, rows + [r]) == Next(Fold(mappings, rows), mappings, r)
  {
    assert (rows + [r])[..|rows|] == rows;
  }

  lemma {:induction false} FoldCost(mappings: map<int, Mapping>, rows: seq<Row>)
    ensures Fold(mappings, rows).cost == Total(rows, UserVal(mappings)).cost
  {
    if rows != [] {
      FoldCost(mappings, rows[..|rows| - 1]);
    }
  }

  lemma {:induction false} FoldRevenue(mappings: map<int, Mapping>, rows: seq<Row>)
    ensures Fold(mappings, rows).revenue == Total(rows, UserVal(mappings)).revenue
  {
    if rows != [] {
      FoldRevenue(mappings, rows[..|rows| - 1]);
    }
  }

  lemma {:induction false} FoldProfit(mappings: map<int, Mapping>, rows: seq<Row>)
    ensures Fold(mappings, rows).profit == Fold(mappings, rows).revenue - Fold(mappings, rows).cost
  {
    if rows != [] {
      FoldProfit(mappings, rows[..|rows| - 1]);
    }
  }

  lemma {:induction false} FoldUserSet(mappings: map<int, Mapping>, rows: seq<Row>)
    ensures Fold(mappings, rows).users == Fold(mappings, rows).byUser.Keys
  {
    if rows != [] {
      FoldUserSet(mappings, rows[..|rows| - 1]);
    }
  }

  lemma {:induction false} FoldUsers(mappings: map<int, Mapping>, rows: seq<Row>)
    ensures Grouped(Fold(mappings, rows).byUser, rows, UserKey(), UserVal(mappings))
  {
    if rows != [] {
      var n := |rows| - 1;
      FoldUsers(mappings, rows[..n]);
      LogCostMeaning(rows[n].quota, rows[n].ratio, MappingOf(mappings, rows[n].channel).discount);
      GroupedMore(Fold(mappings, rows[..n]).byUser, rows, UserKey(), UserVal(mappings));
    }
  }

  lemma {:induction false} FoldVendors(mappings: map<int, Mapping>, rows: seq<Row>)
    ensures Grouped(Fold(mappings, rows).byVendor, rows, VendorKey(mappings), SlimVal(mappings))
  {
    if rows != [] {
      var n := |rows| - 1;
      FoldVendors(mappings, rows[..n]);
      LogCostMeaning(rows[n].quota, rows[n].ratio, MappingOf(mappings, rows[n].channel).discount);
      GroupedMore(Fold(mappings, rows[..n]).byVendor, rows, VendorKey(mappings), SlimVal(mappings));
    }
  }

  lemma {:induction false} FoldModels(mappings: map<int, Mapping>, rows: seq<Row>)
    ensures Grouped(Fold(mappings, rows).byModel, rows, ModelKey(), SlimVal(mappings))
  {
    if rows != [] {
      var n := |rows| - 1;
      FoldModels(mappings, rows[..n]);
      LogCostMeaning(rows[n].quota, rows[n].ratio, MappingOf(mappings, rows[n].channel).discount);
      GroupedMore(Fold(mappings, rows[..n]).byModel, rows, ModelKey(), SlimVal(mappings));
    }
  }

  lemma {:induction false} FoldDays(mappings: map<int, Mapping>, rows: seq<Row>)
    ensures DaysGrouped(Fold(mappings, rows).byDay, rows, SlimVal(mappings))
  {
    if rows != [] {
      var n := |rows| - 1;
      FoldDays(mappings, rows[..n]);
      DaysMore(Fold(mappings, rows[..n]).byDay, rows, SlimVal(mappings));
    }
  }

  // ----- sorting the slices -----

  function ByProfit<K>(): ((K, Line)) -> real {
    (e: (K, Line)) => e.1.profit
  }

  /** Dates are listed in rising order. */
  function ByDate(): ((int, DayLine)) -> real {
    (e: (int, DayLine)) => -(e.0 as real)
  }

  predicate Falling<K, V>(list: seq<(K, V)>, rank: ((K, V)) -> real) {
    forall i, j :: 0 <= i < j < |list| ==> rank(list[i]) >= rank(list[j])
  }

  /** The entries of m, each once, by falling rank. */
  ghost predicate SortedListing<K(!new), V(!new)>(list: seq<(K, V)>, m: map<K, V>, rank: ((K, V)) -> real) {
    && Falling(list, rank)
    && (forall i, j :: 0 <= i < j < |list| ==> list[i].0 != list[j].0)
    && (forall e :: e in list <==> e.0 in m && m[e.0] == e.1)
  }

  function InsertAt<K, V>(list: seq<(K, V)>, rank: ((K, V)) -> real, e: (K, V)): (i: nat)
    ensures i <= |list|
    ensures forall j :: 0 <= j < i ==> rank(list[j]) >= rank(e)
    ensures i < |list| ==> rank(list[i]) < rank(e)
  {
    if list == [] || rank(list[0]) < rank(e) then 0 else 1 + InsertAt(list[1..], rank, e)
  }

  /** sort.Slice over the entries of a grouping map. */
  method SortedEntries<K(==, !new), V(!new)>(m: map<K, V>, rank: ((K, V)) -> real) returns (list: seq<(K, V)>)
    ensures SortedListing(list, m, rank) && |list| == |m|
  {
    list := [];
    var left := m.Keys;
    while left != {}
      invariant left <= m.Keys && Falling(list, rank) && |list| + |left| == |m|
      invariant forall i, j :: 0 <= i < j < |list| ==> list[i].0 != list[j].0
      invariant forall e :: e in list <==> e.0 in m && e.0 !in left && m[e.0] == e.1
      decreases left
    {
      var k :| k in left;
      var e := (k, m[k]);
      var i := InsertAt(list, rank, e);
      assert forall j :: 0 <= j < |list| ==> list[j] in list;
      InsertMembers(list, i, e);
      InsertFalls(list, rank, i, e);
      InsertKeys(list, i, e);
      left := left - {k};
      list := Inserted(list, i, e);
    }
  }

  function Inserted<T>(list: seq<T>, i: nat, e: T): (more: seq<T>)
    requires i <= |list|
    ensures |more| == |list| + 1
    ensures forall j :: 0 <= j < |more| ==> more[j] == if j < i then list[j] else if j == i then e else list[j - 1]
  {
    list[..i] + [e] + list[i..]
  }

  lemma InsertMembers<T>(list: seq<T>, i: nat, e: T)
    requires i <= |list|
    ensures forall x :: x in Inserted(list, i, e) <==> x in list || x == e
  {
    assert list == list[..i] + list[i..];
  }

  lemma InsertFalls<K, V>(list: seq<(K, V)>, rank: ((K, V)) -> real, i: nat, e: (K, V))
    requires Falling(list, rank) && i <= |list|
    requires forall j :: 0 <= j < i ==> rank(list[j]) >= rank(e)
    requires i < |list| ==> rank(list[i]) < rank(e)
    ensures Falling(Inserted(list, i, e), rank)
  {
    forall j | i <= j < |list| ensures rank(e) >= rank(list[j]) {
      assert rank(list[i]) >= rank(list[j]) || i == j;
    }
  }

  lemma InsertKeys<K, V>(list: seq<(K, V)>, i: nat, e: (K, V))
    requires i <= |list| && forall j :: 0 <= j < |list| ==> list[j].0 != e.0
    requires forall a, b :: 0 <= a < b < |list| ==> list[a].0 != list[b].0
    ensures var more := Inserted(list, i, e);
            forall a, b :: 0 <= a < b < |more| ==> more[a].0 != more[b].0
  {
  }

  datatype Overview = Overview(start: int, end: int, userCount: nat, revenue: real, cost: real, profit: real, rate: real,
                               byUser: seq<(int, Line)>, byVendor: seq<(string, Line)>, byModel: seq<(string, Line)>,
                               byDay: seq<(int, DayLine)>)

  const TOP := 10

  /** Dates rise, and profits fall. */
  ghost predicate Listed(o: Overview) {
    && (forall i, j :: 0 <= i < j < |o.byUser| ==> o.byUser[i].1.profit >= o.byUser[j].1.profit)
    && (forall i, j :: 0 <= i < j < |o.byVendor| ==> o.byVendor[i].1.profit >= o.byVendor[j].1.profit)
    && (forall i, j :: 0 <= i < j < |o.byModel| ==> o.byModel[i].1.profit >= o.byModel[j].1.profit)
    && (forall i, j :: 0 <= i < j < |o.byDay| ==> o.byDay[i].0 < o.byDay[j].0)
  }

  lemma DaysRise(days: seq<(int, DayLine)>, m: map<int, DayLine>)
    requires SortedListing(days, m, ByDate())
    ensures forall i, j :: 0 <= i < j < |days| ==> days[i].0 < days[j].0
  {
    forall i, j | 0 <= i < j < |days| ensures days[i].0 < days[j].0 {
      assert ByDate()(days[i]) >= ByDate()(days[j]);
    }
  }

  lemma ProfitsFall<K>(list: seq<(K, Line)>)
    requires Falling(list, ByProfit())
    ensures forall i, j :: 0 <= i < j < |list| ==> list[i].1.profit >= list[j].1.profit
  {
    forall i, j | 0 <= i < j < |list| ensures list[i].1.profit >= list[j].1.profit {
      assert ByProfit<K>()(list[i]) >= ByProfit<K>()(list[j]);
    }
  }

  lemma SlicesListed(o: Overview, days: map<int, DayLine>)
    requires Falling(o.byUser, ByProfit()) && Falling(o.byVendor, ByProfit()) && Falling(o.byModel, ByProfit())
    requires SortedListing(o.byDay, days, ByDate())
    ensures Listed(o)
  {
    ProfitsFall(o.byUser);
    ProfitsFall(o.byVendor);
    ProfitsFall(o.byModel);
    DaysRise(o.byDay, days);
  }

  /** The best ten of m by falling profit, or all when there are fewer: nothing left out earned more. */
  ghost predicate BestModels(kept: seq<(string, Line)>, m: map<string, Line>) {
    && Falling(kept, ByProfit()) && |kept| == (if |m| > 10 then 10 else |m|)
    && (forall i, j :: 0 <= i < j < |kept| ==> kept[i].0 != kept[j].0)
    && (forall e :: e in kept ==> e.0 in m && m[e.0] == e.1)
    && (forall e, name :: e in kept && name in m && (name, m[name]) !in kept ==> e.1.profit >= m[name].profit)
  }

  /** CalcProfitOverview: rows is the result of its grouping query over [start, end). */
  method CalcProfitOverview(start: int, end: int, mappings: map<int, Mapping>, rows: seq<Row>)
    returns (o: Overview)
    ensures var acc := Fold(mappings, rows);
            && o.start == start && o.end == end
            && o.revenue == acc.revenue && o.cost == acc.cost && o.profit == acc.profit
            && o.rate == (if acc.cost > 0.0 then acc.profit / acc.cost else 0.0)
            && o.userCount == |acc.byUser|
            && SortedListing(o.byUser, acc.byUser, ByProfit()) && SortedListing(o.byVendor, acc.byVendor, ByProfit())
            && BestModels(o.byModel, acc.byModel)
            && SortedListing(o.byDay, acc.byDay, ByDate())
    ensures Listed(o)
  {
    var acc := START;
    var i := 0;
    while i < |rows|
      invariant 0 <= i <= |rows| && acc == Fold(mappings, rows[..i])
    {
      FoldSnoc(mappings, rows[..i], rows[i]);
      PrefixSnoc(rows, i);
      acc := AddRow(acc, mappings, rows[i]);
      i := i + 1;
    }
    assert rows[..i] == rows;
    FoldUserSet(mappings, rows);
    var byUser := SortedEntries(acc.byUser, ByProfit());
    var byVendor := SortedEntries(acc.byVendor, ByProfit());
    var all := SortedEntries(acc.byModel, ByProfit());
    var byModel := if |all| > TOP then all[..TOP] else all;
    TopModels(all, acc.byModel, byModel);
    var byDay := SortedEntries(acc.byDay, ByDate());
    o := Overview(start, end, |acc.users|, acc.revenue, acc.cost, acc.profit,
                  if acc.cost > 0.0 then acc.profit / acc.cost else 0.0, byUser, byVendor, byModel, byDay);
    SlicesListed(o, acc.byDay);
  }

  /** Price and revenue of a row, for the users and for the other breakdowns. */
  method PriceRow(mappings: map<int, Mapping>, r: Row) returns (user: Agg, slim: Agg)
    ensures user == UserLine(mappings, r) && slim == SlimLine(mappings, r)
  {
    var discount := 1.0;
    if r.channel in mappings {
      discount := mappings[r.channel].discount;
    }
    var cost := LogCost(r.quota, r.ratio, discount);
    var revenue := r.quota as real / 500000.0;
    user := Agg(r.requests, r.prompt, r.completion, r.cache, cost, revenue);
    slim := Agg(r.requests, 0, 0, 0, cost, revenue);
  }

  /** The loop body: one row into the totals and the four maps. */
  method AddRow(acc: Books, mappings: map<int, Mapping>, r: Row) returns (more: Books)
    ensures more == Next(acc, mappings, r)
  {
    var user, slim := PriceRow(mappings, r);
    more := acc.(cost := acc.cost + user.cost, revenue := acc.revenue + user.revenue,
                 profit := acc.profit + (user.revenue - user.cost), users := acc.users + {r.user},
                 byUser := Grow(acc.byUser, Some(r.user), user),
                 byDay := GrowDay(acc.byDay, r.createdAt / DAY, slim));
    if r.channel in mappings && mappings[r.channel].vendor != "" {
      more := more.(byVendor := Grow(more.byVendor, Some(mappings[r.channel].vendor), slim));
    }
    if r.model != "" {
      more := more.(byModel := Grow(more.byModel, Some(r.model), slim));
    }
  }

  // ----- what the figures mean -----

  /** A row's revenue and cost: a missing ratio counts as 1, and so does the discount of an unmapped channel. */
  lemma RowMeans(mappings: map<int, Mapping>, r: Row)
    ensures var l := UserLine(mappings, r);
            && l.revenue * 500000.0 == r.quota as real
            && (r.quota <= 0 ==> l.cost == 0.0)
            && (r.channel in mappings && mappings[r.channel].discount <= 0.0 ==> l.cost == 0.0)
            && (r.quota > 0 && r.ratio > 0.0 && r.channel in mappings && mappings[r.channel].discount > 0.0 ==>
                 l.cost * r.ratio == (r.quota as real / 500000.0) * mappings[r.channel].discount)
            && (r.quota > 0 && r.ratio > 0.0 && r.channel !in mappings ==> l.cost * r.ratio == r.quota as real / 500000.0)
            && (r.ratio <= 0.0 ==> l.cost == UserLine(mappings, r.(ratio := 1.0)).cost)
  {
    LogCostMeaning(r.quota, r.ratio, MappingOf(mappings, r.channel).discount);
  }

  lemma NextDefault(acc: Books, mappings: map<int, Mapping>, r: Row, c: int)
    requires c !in mappings
    ensures Next(acc, mappings, r) == Next(acc, mappings[c := Mapping("", 1.0)], r)
  {
    assert MappingOf(mappings, r.channel) == MappingOf(mappings[c := Mapping("", 1.0)], r.channel);
  }

  /** An unmapped channel counts as one without a vendor, at discount 1. */
  lemma {:induction false} UnmappedIsDefault(mappings: map<int, Mapping>, rows: seq<Row>, c: int)
    requires c !in mappings
    ensures Fold(mappings, rows) == Fold(mappings[c := Mapping("", 1.0)], rows)
  {
    if rows != [] {
      var n := |rows| - 1;
      UnmappedIsDefault(mappings, rows[..n], c);
      NextDefault(Fold(mappings, rows[..n]), mappings, rows[n], c);
    }
  }

  function PlainCost(rows: seq<Row>): real
    requires forall i :: 0 <= i < |rows| ==> rows[i].ratio > 0.0
  {
    if rows == [] then 0.0
    else PlainCost(rows[..|rows| - 1]) + rows[|rows| - 1].quota as real / 500000.0 / rows[|rows| - 1].ratio
  }

  /** An overview of unmapped channels costs quota / 500000 / ratio over all rows. */
  lemma {:induction false} UnmappedCost(mappings: map<int, Mapping>, rows: seq<Row>)
    requires forall i :: 0 <= i < |rows| ==> rows[i].channel !in mappings && rows[i].quota > 0 && rows[i].ratio > 0.0
    ensures Fold(mappings, rows).cost == PlainCost(rows)
  {
    if rows != [] {
      var n := |rows| - 1;
      UnmappedCost(mappings, rows[..n]);
      RowMeans(mappings, rows[n]);
      Divided(UserLine(mappings, rows[n]).cost, rows[n].quota as real / 500000.0, rows[n].ratio);
    }
  }

  lemma Divided(cost: real, revenue: real, ratio: real)
    requires ratio > 0.0 && cost * ratio == revenue
    ensures cost == revenue / ratio
  {
  }

  function Requests(): Row -> int {
    (r: Row) => r.requests
  }

  function Prompts(): Row -> int {
    (r: Row) => r.prompt
  }

  function Completions(): Row -> int {
    (r: Row) => r.completion
  }

  function CacheTokens(): Row -> int {
    (r: Row) => r.cache
  }

  function Quotas(): Row -> int {
    (r: Row) => r.quota
  }

  /** The columns of any total: users have tokens, the other breakdowns have none. */
  lemma {:induction false} TotalMeans(mappings: map<int, Mapping>, rows: seq<Row>)
    ensures var t := Total(rows, UserVal(mappings));
            && t.requests == Sum(rows, Requests()) && t.prompt == Sum(rows, Prompts())
            && t.completion == Sum(rows, Completions()) && t.cache == Sum(rows, CacheTokens())
            && t.revenue * 500000.0 == Sum(rows, Quotas()) as real
            && Total(rows, SlimVal(mappings)) == Agg(t.requests, 0, 0, 0, t.cost, t.revenue)
  {
    if rows != [] {
      TotalMeans(mappings, rows[..|rows| - 1]);
    }
  }

  function OfUser(u: int): Row -> bool {
    (r: Row) => r.user == u
  }

  function OfVendor(mappings: map<int, Mapping>, vendor: string): Row -> bool {
    (r: Row) => r.channel in mappings && mappings[r.channel].vendor == vendor
  }

  function OfModel(name: string): Row -> bool {
    (r: Row) => r.model == name
  }

  function OnDay(d: int): Row -> bool {
    (r: Row) => 86400 * d <= r.createdAt < 86400 * (d + 1)
  }

  lemma UserEntry(mappings: map<int, Mapping>, rows: seq<Row>, u: int)
    ensures Entry(Sums(Fold(mappings, rows).byUser), u) == Total(Select(rows, OfUser(u)), UserVal(mappings))
  {
    FoldUsers(mappings, rows);
    KeyTotalSelects(rows, UserKey(), UserVal(mappings), u, OfUser(u));
    EntryIsTotal(Sums(Fold(mappings, rows).byUser), rows, UserKey(), UserVal(mappings), u);
  }

  lemma VendorEntry(mappings: map<int, Mapping>, rows: seq<Row>, vendor: string)
    requires vendor != ""
    ensures Entry(Sums(Fold(mappings, rows).byVendor), vendor)
         == Total(Select(rows, OfVendor(mappings, vendor)), SlimVal(mappings))
  {
    FoldVendors(mappings, rows);
    KeyTotalSelects(rows, VendorKey(mappings), SlimVal(mappings), vendor, OfVendor(mappings, vendor));
    EntryIsTotal(Sums(Fold(mappings, rows).byVendor), rows, VendorKey(mappings), SlimVal(mappings), vendor);
  }

  lemma ModelEntry(mappings: map<int, Mapping>, rows: seq<Row>, model: string)
    requires model != ""
    ensures Entry(Sums(Fold(mappings, rows).byModel), model) == Total(Select(rows, OfModel(model)), SlimVal(mappings))
  {
    FoldModels(mappings, rows);
    KeyTotalSelects(rows, ModelKey(), SlimVal(mappings), model, OfModel(model));
    EntryIsTotal(Sums(Fold(mappings, rows).byModel), rows, ModelKey(), SlimVal(mappings), model);
  }

  lemma DayEntry(mappings: map<int, Mapping>, rows: seq<Row>, day: int)
    ensures Entry(DaySums(Fold(mappings, rows).byDay), day) == Total(Select(rows, OnDay(day)), SlimVal(mappings))
  {
    FoldDays(mappings, rows);
    forall i | 0 <= i < |rows| ensures OnDay(day)(rows[i]) <==> DayKey()(rows[i]) == Some(day) {
      DayBounds(rows[i].createdAt, day);
    }
    KeyTotalSelects(rows, DayKey(), SlimVal(mappings), day, OnDay(day));
    EntryIsTotal(DaySums(Fold(mappings, rows).byDay), rows, DayKey(), SlimVal(mappings), day);
  }

  /** A line exists exactly when a row has its user, its vendor, its model or its day; nobody is listed without a name. */
  lemma LineExistsIff(mappings: map<int, Mapping>, rows: seq<Row>, acc: Books)
    requires acc == Fold(mappings, rows)
    ensures forall u :: u in acc.byUser <==> exists r :: r in rows && r.user == u
    ensures forall v :: v in acc.byVendor <==>
              v != "" && exists r :: r in rows && r.channel in mappings && mappings[r.channel].vendor == v
    ensures forall m :: m in acc.byModel <==> m != "" && exists r :: r in rows && r.model == m
    ensures forall d :: d in acc.byDay <==> exists r :: r in rows && r.createdAt / 86400 == d
  {
    FoldUsers(mappings, rows);
    FoldVendors(mappings, rows);
    FoldModels(mappings, rows);
    FoldDays(mappings, rows);
    UserKeys(acc.byUser, rows);
    VendorKeys(acc.byVendor, mappings, rows);
    ModelKeys(acc.byModel, rows);
    DayKeys(acc.byDay, rows);
  }

  lemma UserKeys(m: map<int, Line>, rows: seq<Row>)
    requires Sums(m).Keys == Keys(rows, UserKey())
    ensures forall u :: u in m <==> exists r :: r in rows && r.user == u
  {
    forall r | r in rows ensures r.user in m {
      assert UserKey()(r).Some?;
      assert r.user in Sums(m);
    }
    forall u | u in m ensures exists r :: r in rows && r.user == u {
      assert u in Sums(m);
    }
  }

  lemma VendorKeys(m: map<string, Line>, mappings: map<int, Mapping>, rows: seq<Row>)
    requires Sums(m).Keys == Keys(rows, VendorKey(mappings))
    ensures forall v :: v in m <==>
              v != "" && exists r :: r in rows && r.channel in mappings && mappings[r.channel].vendor == v
  {
    forall r | r in rows && r.channel in mappings && mappings[r.channel].vendor != "" ensures mappings[r.channel].vendor in m {
      assert VendorKey(mappings)(r).Some?;
      assert mappings[r.channel].vendor in Sums(m);
    }
    forall v | v in m ensures v != "" && exists r :: r in rows && r.channel in mappings && mappings[r.channel].vendor == v {
      assert v in Sums(m);
      var r :| r in rows && VendorKey(mappings)(r).Some? && VendorKey(mappings)(r).value == v;
    }
  }

  lemma ModelKeys(m: map<string, Line>, rows: seq<Row>)
    requires Sums(m).Keys == Keys(rows, ModelKey())
    ensures forall v :: v in m <==> v != "" && exists r :: r in rows && r.model == v
  {
    forall r | r in rows && r.model != "" ensures r.model in m {
      assert ModelKey()(r).Some?;
      assert r.model in Sums(m);
    }
    forall v | v in m ensures v != "" && exists r :: r in rows && r.model == v {
      assert v in Sums(m);
    }
  }

  lemma DayKeys(m: map<int, DayLine>, rows: seq<Row>)
    requires DaySums(m).Keys == Keys(rows, DayKey())
    ensures forall d :: d in m <==> exists r :: r in rows && r.createdAt / 86400 == d
  {
    forall r | r in rows ensures r.createdAt / 86400 in m {
      assert DayKey()(r).Some?;
      assert r.createdAt / 86400 in DaySums(m);
    }
    forall d | d in m ensures exists r :: r in rows && r.createdAt / 86400 == d {
      assert d in DaySums(m);
    }
  }

  /** Every line is the total of the rows of its user, its vendor's channels, its model or its day. */
  lemma LinesAreTotals(mappings: map<int, Mapping>, rows: seq<Row>, acc: Books, u: int, vendor: string, model: string, day: int)
    requires acc == Fold(mappings, rows) && vendor != "" && model != ""
    ensures Entry(Sums(acc.byUser), u) == Total(Select(rows, OfUser(u)), UserVal(mappings))
    ensures Entry(Sums(acc.byVendor), vendor) == Total(Select(rows, OfVendor(mappings, vendor)), SlimVal(mappings))
    ensures Entry(Sums(acc.byModel), model) == Total(Select(rows, OfModel(model)), SlimVal(mappings))
    ensures Entry(DaySums(acc.byDay), day) == Total(Select(rows, OnDay(day)), SlimVal(mappings))
  {
    UserEntry(mappings, rows, u);
    VendorEntry(mappings, rows, vendor);
    ModelEntry(mappings, rows, model);
    DayEntry(mappings, rows, day);
  }

  // ----- properties of the overview -----

  /** The users' lines add up to the totals, and so do the days'. */
  lemma UsersAndDaysConserve(mappings: map<int, Mapping>, rows: seq<Row>, users: seq<int>, days: seq<int>)
    requires Listing(users, Fold(mappings, rows).byUser.Keys) && Listing(days, Fold(mappings, rows).byDay.Keys)
    ensures var acc := Fold(mappings, rows);
            var u, d := SumEntries(Sums(acc.byUser), users), SumEntries(DaySums(acc.byDay), days);
            && u == Total(rows, UserVal(mappings))
            && u.cost == d.cost == acc.cost && u.revenue == d.revenue == acc.revenue && u.requests == d.requests
            && acc.profit == acc.revenue - acc.cost
  {
    var acc := Fold(mappings, rows);
    FoldCost(mappings, rows);
    FoldRevenue(mappings, rows);
    FoldProfit(mappings, rows);
    FoldUsers(mappings, rows);
    FoldDays(mappings, rows);
    Conserved(Sums(acc.byUser), users, rows, UserKey(), UserVal(mappings));
    AllKeyed(rows, UserKey(), UserVal(mappings));
    Conserved(DaySums(acc.byDay), days, rows, DayKey(), SlimVal(mappings));
    AllKeyed(rows, DayKey(), SlimVal(mappings));
    SlimTotal(mappings, rows);
  }

  lemma {:induction false} SlimTotal(mappings: map<int, Mapping>, rows: seq<Row>)
    ensures var u, d := Total(rows, UserVal(mappings)), Total(rows, SlimVal(mappings));
            u.cost == d.cost && u.revenue == d.revenue && u.requests == d.requests
  {
    if rows != [] {
      SlimTotal(mappings, rows[..|rows| - 1]);
    }
  }

  /** The vendors' lines add up to the mapped rows, the models' to the rows that name a model. */
  lemma VendorsAndModelsConserve(mappings: map<int, Mapping>, rows: seq<Row>, vendors: seq<string>, models: seq<string>)
    requires Listing(vendors, Fold(mappings, rows).byVendor.Keys) && Listing(models, Fold(mappings, rows).byModel.Keys)
    ensures SumEntries(Sums(Fold(mappings, rows).byVendor), vendors)
         == KeyedTotal(rows, VendorKey(mappings), SlimVal(mappings))
    ensures SumEntries(Sums(Fold(mappings, rows).byModel), models) == KeyedTotal(rows, ModelKey(), SlimVal(mappings))
  {
    FoldVendors(mappings, rows);
    FoldModels(mappings, rows);
    Conserved(Sums(Fold(mappings, rows).byVendor), vendors, rows, VendorKey(mappings), SlimVal(mappings));
    Conserved(Sums(Fold(mappings, rows).byModel), models, rows, ModelKey(), SlimVal(mappings));
  }

  /** Every line keeps profit = revenue - cost, and the rate of its final sums although it is updated as it goes. */
  lemma LinesConsistent(mappings: map<int, Mapping>, rows: seq<Row>)
    ensures var acc := Fold(mappings, rows);
            && (forall k :: k in acc.byUser ==> LineOk(acc.byUser[k]))
            && (forall k :: k in acc.byVendor ==> LineOk(acc.byVendor[k]))
            && (forall k :: k in acc.byModel ==> LineOk(acc.byModel[k]))
            && (forall k :: k in acc.byDay ==> DayLineOk(acc.byDay[k]))
  {
    FoldUsers(mappings, rows);
    FoldVendors(mappings, rows);
    FoldModels(mappings, rows);
    FoldDays(mappings, rows);
  }

  /** Truncating the sorted models keeps the best. */
  lemma TopModels(list: seq<(string, Line)>, m: map<string, Line>, kept: seq<(string, Line)>)
    requires SortedListing(list, m, ByProfit()) && |list| == |m| && kept == (if |list| > TOP then list[..TOP] else list)
    ensures BestModels(kept, m)
  {
    assert forall i :: 0 <= i < |kept| ==> kept[i] == list[i];
    forall e | e in kept ensures e in list {
      var i :| 0 <= i < |kept| && kept[i] == e;
      assert list[i] == e;
    }
    forall e, name | e in kept && name in m && (name, m[name]) !in kept ensures e.1.profit >= m[name].profit {
      DroppedEarnedLess(list, m, kept, e, name);
    }
  }

  lemma DroppedEarnedLess(list: seq<(string, Line)>, m: map<string, Line>, kept: seq<(string, Line)>,
                          e: (string, Line), name: string)
    requires SortedListing(list, m, ByProfit()) && kept <= list
    requires e in kept && name in m && (name, m[name]) !in kept
    ensures e.1.profit >= m[name].profit
  {
    assert (name, m[name]) in list;
    var j :| 0 <= j < |list| && list[j] == (name, m[name]);
    var i :| 0 <= i < |kept| && kept[i] == e;
    assert kept[i] == list[i];
    assert forall k :: 0 <= k < |kept| ==> kept[k] in kept && kept[k] == list[k];
    assert ByProfit<string>()(list[i]) >= ByProfit<string>()(list[j]);
  }
}
