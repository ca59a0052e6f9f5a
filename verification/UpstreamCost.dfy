/** Per-log cost and the v3 upstream statement: totals plus a breakdown by date, channel and model. */
module UpstreamCost {
  import opened Options
  import opened Grouping

  const CONSUME := 2
  const DAY := 86400

  /** A consumption log; ratio is the group_ratio of its JSON part, if it has one. */
  datatype Log = Log(user: int, channel: int, channelName: string, model: string, kind: int,
                     prompt: int, completion: int, quota: int, ratio: Option<real>, cacheTokens: int, createdAt: int)

  function LogCost(quota: int, groupRatio: real, discount: real): real {
    if quota <= 0 || discount <= 0.0 then 0.0
    else
      var ratio := if groupRatio <= 0.0 then 1.0 else groupRatio;
      var revenue := quota as real / 500000.0;
      (revenue / ratio) * discount
  }

  /** Undoing the discount and the group ratio gives the revenue back; there is no cost without quota or discount. */
  lemma LogCostMeaning(quota: int, groupRatio: real, discount: real)
    ensures LogCost(quota, groupRatio, discount) >= 0.0
    ensures LogCost(quota, groupRatio, discount) == 0.0 <==> quota <= 0 || discount <= 0.0
    ensures quota > 0 && discount > 0.0 ==>
              var ratio := if groupRatio <= 0.0 then 1.0 else groupRatio;
              LogCost(quota, groupRatio, discount) * ratio == (quota as real / 500000.0) * discount
  {
    if quota > 0 && discount > 0.0 {
      CostSign(Revenue(quota), if groupRatio <= 0.0 then 1.0 else groupRatio, discount);
    }
  }

  lemma NonPositiveProduct(a: real, b: real)
    requires a <= 0.0 && b > 0.0
    ensures a * b <= 0.0
  {
  }

  lemma CostSign(revenue: real, ratio: real, discount: real)
    requires revenue > 0.0 && ratio > 0.0 && discount > 0.0
    ensures (revenue / ratio) * discount > 0.0
    ensures ((revenue / ratio) * discount) * ratio == revenue * discount
  {
    var price := revenue / ratio;
    assert price * ratio == revenue;
    assert price > 0.0 by {
      if price <= 0.0 {
        NonPositiveProduct(price, ratio);
      }
    }
    assert (price * discount) * ratio == (price * ratio) * discount;
  }

  function Revenue(quota: int): real {
    quota as real / 500000.0
  }

  function RatioOf(l: Log): real {
    if l.ratio.Some? && l.ratio.value > 0.0 then l.ratio.value else 1.0
  }

  predicate Unmatched(discounts: map<int, real>, channel: int) {
    channel !in discounts || discounts[channel] <= 0.0
  }

  function DiscountOf(discounts: map<int, real>, channel: int): real {
    if Unmatched(discounts, channel) then 1.0 else discounts[channel]
  }

  function Line(discounts: map<int, real>, l: Log): Agg {
    Agg(1, l.prompt, l.completion, l.cacheTokens,
        LogCost(l.quota, RatioOf(l), DiscountOf(discounts, l.channel)), Revenue(l.quota))
  }

  /** The price of a log: what its cost undoes, and that a missing ratio or discount counts as 1. */
  lemma LineMeans(discounts: map<int, real>, l: Log)
    ensures Line(discounts, l).revenue * 500000.0 == l.quota as real
    ensures l.quota <= 0 ==> Line(discounts, l).cost == 0.0
    ensures l.quota > 0 && l.ratio.Some? && l.ratio.value > 0.0 && l.channel in discounts && discounts[l.channel] > 0.0 ==>
              Line(discounts, l).cost * l.ratio.value == (l.quota as real / 500000.0) * discounts[l.channel]
    ensures l.ratio.None? || l.ratio.value <= 0.0 ==>
              Line(discounts, l).cost == Line(discounts, l.(ratio := Some(1.0))).cost
    ensures l.channel !in discounts || discounts[l.channel] <= 0.0 ==>
              Line(discounts, l).cost == Line(discounts[l.channel := 1.0], l).cost
  {
    LogCostMeaning(l.quota, RatioOf(l), DiscountOf(discounts, l.channel));
  }

  function LineOf(discounts: map<int, real>): Log -> Agg {
    (l: Log) => Line(discounts, l)
  }

  /** The UTC date of a log, counted in days. */
  function DateKey(): Log -> Option<int> {
    (l: Log) => Some(l.createdAt / DAY)
  }

  function ChannelKey(): Log -> Option<int> {
    (l: Log) => Some(l.channel)
  }

  function ModelName(l: Log): string {
    if l.model == "" then "[unknown]" else l.model
  }

  function ModelKey(): Log -> Option<string> {
    (l: Log) => Some(ModelName(l))
  }

  datatype Reason = Complete | NoChannels | MissingDiscount

  datatype Statement = Statement(vendor: string, start: int, end: int, total: Agg, profit: real, rate: real,
                                 reason: Reason, byDate: map<int, Agg>, byChannel: map<int, Agg>,
                                 names: map<int, string>, byModel: map<string, Agg>)

  function FirstName(logs: seq<Log>, channel: int): string {
    if logs == [] then "" else if logs[0].channel == channel then logs[0].channelName else FirstName(logs[1..], channel)
  }

  ghost predicate AnyUnmatched(discounts: map<int, real>, logs: seq<Log>) {
    exists l :: l in logs && Unmatched(discounts, l.channel)
  }

  /** What the statement says about the logs it was computed from. */
  ghost predicate Describes(s: Statement, discounts: map<int, real>, logs: seq<Log>) {
    && s.total == Total(logs, LineOf(discounts))
    && s.profit == s.total.revenue - s.total.cost
    && s.rate == (if s.total.cost > 0.0 then s.profit / s.total.cost else 0.0)
    && (s.reason == MissingDiscount <==> AnyUnmatched(discounts, logs))
    && Groups(s.byDate, logs, DateKey(), LineOf(discounts))
    && Groups(s.byChannel, logs, ChannelKey(), LineOf(discounts))
    && Groups(s.byModel, logs, ModelKey(), LineOf(discounts))
    && s.names.Keys == s.byChannel.Keys
    && (forall c :: c in s.names ==> s.names[c] == FirstName(logs, c))
  }

  lemma {:induction false} FirstNameSnoc(logs: seq<Log>, l: Log, channel: int)
    ensures FirstName(logs + [l], channel)
         == if exists x :: x in logs && x.channel == channel then FirstName(logs, channel)
            else if l.channel == channel then l.channelName else ""
  {
    if logs != [] {
      assert (logs + [l])[1..] == logs[1..] + [l];
      FirstNameSnoc(logs[1..], l, channel);
      assert logs == [logs[0]] + logs[1..];
    }
  }

  /** The accumulators of the single pass. */
  datatype Acc = Acc(total: Agg, byDate: map<int, Agg>, byChannel: map<int, Agg>, byModel: map<string, Agg>,
                     names: map<int, string>, unmatched: bool)

  function Next(acc: Acc, discounts: map<int, real>, l: Log): Acc {
    var line := Line(discounts, l);
    Acc(Plus(acc.total, line),
        acc.byDate[l.createdAt / DAY := Plus(Entry(acc.byDate, l.createdAt / DAY), line)],
        acc.byChannel[l.channel := Plus(Entry(acc.byChannel, l.channel), line)],
        acc.byModel[ModelName(l) := Plus(Entry(acc.byModel, ModelName(l)), line)],
        if l.channel in acc.byChannel then acc.names else acc.names[l.channel := l.channelName],
        acc.unmatched || Unmatched(discounts, l.channel))
  }

  function Fold(discounts: map<int, real>, logs: seq<Log>): Acc {
    if logs == [] then Acc(ZERO, map[], map[], map[], map[], false)
    else Next(Fold(discounts, logs[..|logs| - 1]), discounts, logs[|logs| - 1])
  }

  lemma FoldSnoc(discounts: map<int, real>, logs: seq<Log>, l: Log)
    ensures Fold(discounts, logs + [l]) == Next(Fold(discounts, logs), discounts, l)
  {
    assert (logs + [l])[..|logs|] == logs;
  }

  ghost predicate SumsSoFar(acc: Acc, discounts: map<int, real>, logs: seq<Log>) {
    && acc.total == Total(logs, LineOf(discounts))
    && Groups(acc.byDate, logs, DateKey(), LineOf(discounts))
    && Groups(acc.byChannel, logs, ChannelKey(), LineOf(discounts))
    && Groups(acc.byModel, logs, ModelKey(), LineOf(discounts))
    && (acc.unmatched <==> AnyUnmatched(discounts, logs))
  }

  ghost predicate NamesSoFar(acc: Acc, logs: seq<Log>) {
    acc.names.Keys == acc.byChannel.Keys && (forall c :: c in acc.names ==> acc.names[c] == FirstName(logs, c))
  }

  lemma SumsNext(acc: Acc, discounts: map<int, real>, logs: seq<Log>, l: Log)
    requires SumsSoFar(acc, discounts, logs)
    ensures SumsSoFar(Next(acc, discounts, l), discounts, logs + [l])
  {
    Pass(logs, l, discounts, acc.byDate, acc.byChannel, acc.byModel);
  }

  lemma NamesNext(acc: Acc, discounts: map<int, real>, logs: seq<Log>, l: Log)
    requires Groups(acc.byChannel, logs, ChannelKey(), LineOf(discounts)) && NamesSoFar(acc, logs)
    ensures NamesSoFar(Next(acc, discounts, l), logs + [l])
  {
    NamesPass(logs, l, discounts, acc.byChannel, acc.names);
  }

  lemma {:induction false} FoldSums(discounts: map<int, real>, logs: seq<Log>)
    ensures SumsSoFar(Fold(discounts, logs), discounts, logs)
  {
    if logs != [] {
      var n := |logs| - 1;
      FoldSums(discounts, logs[..n]);
      SumsNext(Fold(discounts, logs[..n]), discounts, logs[..n], logs[n]);
      assert logs == logs[..n] + [logs[n]];
    }
  }

  lemma {:induction false} FoldNames(discounts: map<int, real>, logs: seq<Log>)
    ensures NamesSoFar(Fold(discounts, logs), logs)
  {
    if logs != [] {
      var n := |logs| - 1;
      FoldNames(discounts, logs[..n]);
      FoldSums(discounts, logs[..n]);
      NamesNext(Fold(discounts, logs[..n]), discounts, logs[..n], logs[n]);
      assert logs == logs[..n] + [logs[n]];
    }
  }

  lemma FoldSoFar(discounts: map<int, real>, logs: seq<Log>)
    ensures SumsSoFar(Fold(discounts, logs), discounts, logs) && NamesSoFar(Fold(discounts, logs), logs)
  {
    FoldSums(discounts, logs);
    FoldNames(discounts, logs);
  }

  function StatementFrom(acc: Acc, vendor: string, start: int, end: int): Statement {
    var profit := acc.total.revenue - acc.total.cost;
    Statement(vendor, start, end, acc.total, profit, if acc.total.cost > 0.0 then profit / acc.total.cost else 0.0,
              if acc.unmatched then MissingDiscount else Complete, acc.byDate, acc.byChannel, acc.names, acc.byModel)
  }

  function StatementOf(vendor: string, start: int, end: int, discounts: map<int, real>, logs: seq<Log>): Statement {
    StatementFrom(Fold(discounts, logs), vendor, start, end)
  }

  lemma AccDescribes(acc: Acc, vendor: string, start: int, end: int, discounts: map<int, real>, logs: seq<Log>)
    requires SumsSoFar(acc, discounts, logs) && NamesSoFar(acc, logs)
    ensures Describes(StatementFrom(acc, vendor, start, end), discounts, logs)
  {
  }

  method PriceLog(discounts: map<int, real>, row: Log) returns (line: Agg, missing: bool)
    ensures line == Line(discounts, row) && missing == Unmatched(discounts, row.channel)
  {
    var ratio := 1.0;
    if row.ratio.Some? && row.ratio.value > 0.0 {
      ratio := row.ratio.value;
    }
    var discount := 1.0;
    missing := row.channel !in discounts || discounts[row.channel] <= 0.0;
    if !missing {
      discount := discounts[row.channel];
    }
    line := Agg(1, row.prompt, row.completion, row.cacheTokens,
                LogCost(row.quota, ratio, discount), Revenue(row.quota));
  }

  /** The loop body: one log into the totals and the three maps. */
  method AddLog(acc: Acc, discounts: map<int, real>, row: Log) returns (more: Acc)
    ensures more == Next(acc, discounts, row)
  {
    var line, missing := PriceLog(discounts, row);
    more := acc.(total := Plus(acc.total, line), unmatched := acc.unmatched || missing);
    var date := row.createdAt / DAY;
    more := more.(byDate := more.byDate[date := Plus(Entry(more.byDate, date), line)]);
    if row.channel !in more.byChannel {
      more := more.(names := more.names[row.channel := row.channelName]);
    }
    more := more.(byChannel := more.byChannel[row.channel := Plus(Entry(more.byChannel, row.channel), line)]);
    var model := if row.model == "" then "[unknown]" else row.model;
    more := more.(byModel := more.byModel[model := Plus(Entry(more.byModel, model), line)]);
  }

  /** The single pass. */
  method AddLogs(discounts: map<int, real>, logs: seq<Log>) returns (acc: Acc)
    ensures acc == Fold(discounts, logs)
  {
    acc := Acc(ZERO, map[], map[], map[], map[], false);
    var i := 0;
    while i < |logs|
      invariant 0 <= i <= |logs| && acc == Fold(discounts, logs[..i])
    {
      FoldSnoc(discounts, logs[..i], logs[i]);
      PrefixSnoc(logs, i);
      acc := AddLog(acc, discounts, logs[i]);
      i := i + 1;
    }
    assert logs[..i] == logs;
  }

  /** CalcUpstreamStatement: logs is the result of its query over the vendor's channels. */
  method CalcUpstreamStatement(vendor: string, channels: set<int>, discounts: map<int, real>,
                               start: int, end: int, logs: seq<Log>) returns (s: Statement)
    ensures s == if channels == {}
                 then Statement(vendor, start, end, ZERO, 0.0, 0.0, NoChannels, map[], map[], map[], map[])
                 else StatementOf(vendor, start, end, discounts, logs)
  {
    if channels == {} {
      return Statement(vendor, start, end, ZERO, 0.0, 0.0, NoChannels, map[], map[], map[], map[]);
    }
    var acc := AddLogs(discounts, logs);
    s := StatementFrom(acc, vendor, start, end);
  }

  /** The statement describes its logs: totals, three groupings, first channel names, profit and rate. */
  lemma StatementDescribes(vendor: string, start: int, end: int, discounts: map<int, real>, logs: seq<Log>)
    ensures Describes(StatementOf(vendor, start, end, discounts, logs), discounts, logs)
  {
    FoldSoFar(discounts, logs);
    AccDescribes(Fold(discounts, logs), vendor, start, end, discounts, logs);
  }

  /** One row more in every map. */
  lemma Pass(logs: seq<Log>, l: Log, discounts: map<int, real>,
             byDate: map<int, Agg>, byChannel: map<int, Agg>, byModel: map<string, Agg>)
    requires Groups(byDate, logs, DateKey(), LineOf(discounts))
    requires Groups(byChannel, logs, ChannelKey(), LineOf(discounts))
    requires Groups(byModel, logs, ModelKey(), LineOf(discounts))
    ensures Total(logs + [l], LineOf(discounts)) == Plus(Total(logs, LineOf(discounts)), Line(discounts, l))
    ensures Groups(byDate[l.createdAt / DAY := Plus(Entry(byDate, l.createdAt / DAY), Line(discounts, l))],
                   logs + [l], DateKey(), LineOf(discounts))
    ensures Groups(byChannel[l.channel := Plus(Entry(byChannel, l.channel), Line(discounts, l))],
                   logs + [l], ChannelKey(), LineOf(discounts))
    ensures Groups(byModel[ModelName(l) := Plus(Entry(byModel, ModelName(l)), Line(discounts, l))],
                   logs + [l], ModelKey(), LineOf(discounts))
    ensures AnyUnmatched(discounts, logs + [l]) <==> AnyUnmatched(discounts, logs) || Unmatched(discounts, l.channel)
  {
    TotalSnoc(logs, l, LineOf(discounts));
    GroupsSnoc(byDate, logs, l, DateKey(), LineOf(discounts));
    GroupsSnoc(byChannel, logs, l, ChannelKey(), LineOf(discounts));
    GroupsSnoc(byModel, logs, l, ModelKey(), LineOf(discounts));
    assert l in logs + [l];
    assert forall x :: x in logs + [l] <==> x in logs || x == l;
  }

  lemma NamesPass(logs: seq<Log>, l: Log, discounts: map<int, real>, byChannel: map<int, Agg>, names: map<int, string>)
    requires Groups(byChannel, logs, ChannelKey(), LineOf(discounts))
    requires names.Keys == byChannel.Keys && forall c :: c in names ==> names[c] == FirstName(logs, c)
    ensures var more := if l.channel in byChannel then names else names[l.channel := l.channelName];
            forall c :: c in more ==> more[c] == FirstName(logs + [l], c)
  {
    var more := if l.channel in byChannel then names else names[l.channel := l.channelName];
    forall c | c in more ensures more[c] == FirstName(logs + [l], c) {
      FirstNameSnoc(logs, l, c);
      if c in byChannel {
        var x :| x in logs && ChannelKey()(x).Some? && ChannelKey()(x).value == c;
        assert x.channel == c;
      } else {
        forall x | x in logs ensures x.channel != c {
          assert ChannelKey()(x) == Some(x.channel);
        }
      }
    }
  }

  // ----- properties of a statement -----

  function Prompts(): Log -> int {
    (l: Log) => l.prompt
  }

  function Completions(): Log -> int {
    (l: Log) => l.completion
  }

  function CacheTokens(): Log -> int {
    (l: Log) => l.cacheTokens
  }

  function Quotas(): Log -> int {
    (l: Log) => l.quota
  }

  /** The columns of any total. */
  lemma {:induction false} TotalMeans(discounts: map<int, real>, logs: seq<Log>)
    ensures var t := Total(logs, LineOf(discounts));
            && t.requests == |logs| && t.prompt == Sum(logs, Prompts()) && t.completion == Sum(logs, Completions())
            && t.cache == Sum(logs, CacheTokens()) && t.revenue * 500000.0 == Sum(logs, Quotas()) as real
  {
    if logs != [] {
      TotalMeans(discounts, logs[..|logs| - 1]);
    }
  }

  function OnDay(d: int): Log -> bool {
    (l: Log) => 86400 * d <= l.createdAt < 86400 * (d + 1)
  }

  function OnChannel(c: int): Log -> bool {
    (l: Log) => l.channel == c
  }

  /** Logs without a model come under a name of their own. */
  function OfModel(name: string): Log -> bool {
    (l: Log) => l.model == name || (l.model == "" && name == "[unknown]")
  }

  lemma DayBounds(at: int, d: int)
    ensures at / DAY == d <==> 86400 * d <= at < 86400 * (d + 1)
  {
  }

  lemma DayEntry(m: map<int, Agg>, discounts: map<int, real>, logs: seq<Log>, day: int)
    requires Groups(m, logs, DateKey(), LineOf(discounts))
    ensures Entry(m, day) == Total(Select(logs, OnDay(day)), LineOf(discounts))
  {
    forall i | 0 <= i < |logs| ensures OnDay(day)(logs[i]) <==> DateKey()(logs[i]) == Some(day) {
      DayBounds(logs[i].createdAt, day);
    }
    KeyTotalSelects(logs, DateKey(), LineOf(discounts), day, OnDay(day));
    EntryIsTotal(m, logs, DateKey(), LineOf(discounts), day);
  }

  lemma ChannelEntry(m: map<int, Agg>, discounts: map<int, real>, logs: seq<Log>, channel: int)
    requires Groups(m, logs, ChannelKey(), LineOf(discounts))
    ensures Entry(m, channel) == Total(Select(logs, OnChannel(channel)), LineOf(discounts))
  {
    KeyTotalSelects(logs, ChannelKey(), LineOf(discounts), channel, OnChannel(channel));
    EntryIsTotal(m, logs, ChannelKey(), LineOf(discounts), channel);
  }

  lemma ModelEntry(m: map<string, Agg>, discounts: map<int, real>, logs: seq<Log>, model: string)
    requires model != "" && Groups(m, logs, ModelKey(), LineOf(discounts))
    ensures Entry(m, model) == Total(Select(logs, OfModel(model)), LineOf(discounts))
  {
    KeyTotalSelects(logs, ModelKey(), LineOf(discounts), model, OfModel(model));
    EntryIsTotal(m, logs, ModelKey(), LineOf(discounts), model);
  }

  /** Every entry of a breakdown is the total of the logs of its date, channel or model. */
  lemma EntriesAreTotals(vendor: string, start: int, end: int, discounts: map<int, real>, logs: seq<Log>, s: Statement,
                         day: int, channel: int, model: string)
    requires model != "" && s == StatementOf(vendor, start, end, discounts, logs)
    ensures Entry(s.byDate, day) == Total(Select(logs, OnDay(day)), LineOf(discounts))
    ensures Entry(s.byChannel, channel) == Total(Select(logs, OnChannel(channel)), LineOf(discounts))
    ensures Entry(s.byModel, model) == Total(Select(logs, OfModel(model)), LineOf(discounts))
  {
    StatementDescribes(vendor, start, end, discounts, logs);
    DayEntry(s.byDate, discounts, logs, day);
    ChannelEntry(s.byChannel, discounts, logs, channel);
    ModelEntry(s.byModel, discounts, logs, model);
  }

  /** Requests, tokens, cost and revenue of each breakdown add up to the totals, in whatever order it is listed. */
  lemma BreakdownsConserve(vendor: string, start: int, end: int, discounts: map<int, real>, logs: seq<Log>,
                           dates: seq<int>, channels: seq<int>, models: seq<string>, s: Statement)
    requires s == StatementOf(vendor, start, end, discounts, logs)
    requires Listing(dates, s.byDate.Keys) && Listing(channels, s.byChannel.Keys) && Listing(models, s.byModel.Keys)
    ensures SumEntries(s.byDate, dates) == SumEntries(s.byChannel, channels) == SumEntries(s.byModel, models) == s.total
  {
    StatementDescribes(vendor, start, end, discounts, logs);
    Conserved(s.byDate, dates, logs, DateKey(), LineOf(discounts));
    AllKeyed(logs, DateKey(), LineOf(discounts));
    Conserved(s.byChannel, channels, logs, ChannelKey(), LineOf(discounts));
    AllKeyed(logs, ChannelKey(), LineOf(discounts));
    Conserved(s.byModel, models, logs, ModelKey(), LineOf(discounts));
    AllKeyed(logs, ModelKey(), LineOf(discounts));
  }

  lemma SameSums(a: Acc, b: Acc, discounts: map<int, real>, xs: seq<Log>, ys: seq<Log>)
    requires SumsSoFar(a, discounts, xs) && SumsSoFar(b, discounts, ys) && multiset(xs) == multiset(ys)
    ensures a.(names := b.names) == b
  {
    TotalPermuted(xs, ys, LineOf(discounts));
    GroupsPermuted(a.byDate, b.byDate, xs, ys, DateKey(), LineOf(discounts));
    GroupsPermuted(a.byChannel, b.byChannel, xs, ys, ChannelKey(), LineOf(discounts));
    GroupsPermuted(a.byModel, b.byModel, xs, ys, ModelKey(), LineOf(discounts));
    assert forall x :: x in xs ==> x in multiset(xs);
    assert forall y :: y in ys ==> y in multiset(ys);
  }

  lemma FoldsAgree(discounts: map<int, real>, xs: seq<Log>, ys: seq<Log>)
    requires multiset(xs) == multiset(ys)
    ensures Fold(discounts, xs).(names := Fold(discounts, ys).names) == Fold(discounts, ys)
  {
    FoldSoFar(discounts, xs);
    FoldSoFar(discounts, ys);
    SameSums(Fold(discounts, xs), Fold(discounts, ys), discounts, xs, ys);
  }

  lemma SameFrom(a: Acc, b: Acc, vendor: string, start: int, end: int)
    requires a.(names := b.names) == b
    ensures StatementFrom(a, vendor, start, end).(names := StatementFrom(b, vendor, start, end).names)
         == StatementFrom(b, vendor, start, end)
  {
  }

  /** The order in which the logs arrive changes nothing but, possibly, the channel names. */
  lemma OrderIrrelevant(vendor: string, start: int, end: int, discounts: map<int, real>, xs: seq<Log>, ys: seq<Log>)
    requires multiset(xs) == multiset(ys)
    ensures var s, t := StatementOf(vendor, start, end, discounts, xs), StatementOf(vendor, start, end, discounts, ys);
            s.(names := t.names) == t
  {
    FoldsAgree(discounts, xs, ys);
    SameFrom(Fold(discounts, xs), Fold(discounts, ys), vendor, start, end);
  }

  /** Every channel carries a single name over the logs. */
  ghost predicate OneNamePerChannel(logs: seq<Log>) {
    forall x, y :: x in logs && y in logs && x.channel == y.channel ==> x.channelName == y.channelName
  }

  ghost predicate NamesOrderFree(logs: seq<Log>) {
    forall ys: seq<Log>, c: int :: multiset(ys) == multiset(logs) ==> FirstName(ys, c) == FirstName(logs, c)
  }

  lemma {:induction false} FirstNameFrom(logs: seq<Log>, channel: int)
    ensures (exists x :: x in logs && x.channel == channel && x.channelName == FirstName(logs, channel))
         || ((forall x :: x in logs ==> x.channel != channel) && FirstName(logs, channel) == "")
  {
    if logs != [] && logs[0].channel != channel {
      FirstNameFrom(logs[1..], channel);
      assert logs == [logs[0]] + logs[1..];
    }
  }

  lemma MoveToFront(logs: seq<Log>, l: Log) returns (ys: seq<Log>)
    requires l in logs
    ensures multiset(ys) == multiset(logs) && ys != [] && ys[0] == l
  {
    var i :| 0 <= i < |logs| && logs[i] == l;
    ys := [l] + (logs[..i] + logs[i + 1..]);
    RemoveAt(logs, i);
  }

  /** The channel names are independent of the log order exactly when no channel has two names. */
  lemma NamesOrderFreeIff(logs: seq<Log>)
    ensures NamesOrderFree(logs) <==> OneNamePerChannel(logs)
  {
    if NamesOrderFree(logs) {
      forall x, y | x in logs && y in logs && x.channel == y.channel ensures x.channelName == y.channelName {
        var xs := MoveToFront(logs, x);
        var ys := MoveToFront(logs, y);
        assert FirstName(xs, x.channel) == FirstName(logs, x.channel) == FirstName(ys, x.channel);
      }
    }
    if OneNamePerChannel(logs) {
      forall ys: seq<Log>, c: int | multiset(ys) == multiset(logs) ensures FirstName(ys, c) == FirstName(logs, c) {
        FirstNameFrom(ys, c);
        FirstNameFrom(logs, c);
        assert forall y :: y in ys <==> y in multiset(ys);
        assert forall x :: x in logs <==> x in multiset(logs);
      }
    }
  }

  // ----- splitting the period -----

  /** The statement query: both ends of the period are inclusive. */
  function InPeriod(start: int, end: int, channels: set<int>): Log -> bool {
    (l: Log) => l.kind == CONSUME && start <= l.createdAt <= end && l.channel in channels
  }

  predicate MergedMap<K>(m: map<K, Agg>, m1: map<K, Agg>, m2: map<K, Agg>) {
    m.Keys == m1.Keys + m2.Keys && forall k :: k in m ==> m[k] == Plus(Entry(m1, k), Entry(m2, k))
  }

  predicate Merged(s: Statement, s1: Statement, s2: Statement) {
    && s.total == Plus(s1.total, s2.total) && s.profit == s1.profit + s2.profit
    && MergedMap(s.byDate, s1.byDate, s2.byDate)
    && MergedMap(s.byChannel, s1.byChannel, s2.byChannel)
    && MergedMap(s.byModel, s1.byModel, s2.byModel)
  }

  lemma LogsMerge(s: Statement, s1: Statement, s2: Statement, discounts: map<int, real>,
                  xs: seq<Log>, ys: seq<Log>, zs: seq<Log>)
    requires Describes(s, discounts, xs) && Describes(s1, discounts, ys) && Describes(s2, discounts, zs)
    requires multiset(xs) == multiset(ys) + multiset(zs)
    ensures Merged(s, s1, s2)
  {
    var val := LineOf(discounts);
    assert multiset(xs) == multiset(ys + zs);
    TotalPermuted(xs, ys + zs, val);
    TotalConcat(ys, zs, val);
    GroupsMerge(s.byDate, s1.byDate, s2.byDate, xs, ys, zs, DateKey(), val);
    GroupsMerge(s.byChannel, s1.byChannel, s2.byChannel, xs, ys, zs, ChannelKey(), val);
    GroupsMerge(s.byModel, s1.byModel, s2.byModel, xs, ys, zs, ModelKey(), val);
  }

  /** Statements over [a, b] and [b + 1, c] merge entry by entry into the statement over [a, c]. */
  lemma PeriodsMerge(vendor: string, table: seq<Log>, channels: set<int>, discounts: map<int, real>,
                     a: int, b: int, c: int, xs: seq<Log>, ys: seq<Log>, zs: seq<Log>)
    requires a <= b + 1 && b <= c
    requires Returned(xs, table, InPeriod(a, c, channels))
    requires Returned(ys, table, InPeriod(a, b, channels))
    requires Returned(zs, table, InPeriod(b + 1, c, channels))
    ensures Merged(StatementOf(vendor, a, c, discounts, xs), StatementOf(vendor, a, b, discounts, ys),
                   StatementOf(vendor, b + 1, c, discounts, zs))
  {
    SelectSplit(table, InPeriod(a, c, channels), InPeriod(a, b, channels), InPeriod(b + 1, c, channels));
    StatementDescribes(vendor, a, c, discounts, xs);
    StatementDescribes(vendor, a, b, discounts, ys);
    StatementDescribes(vendor, b + 1, c, discounts, zs);
    LogsMerge(StatementOf(vendor, a, c, discounts, xs), StatementOf(vendor, a, b, discounts, ys),
              StatementOf(vendor, b + 1, c, discounts, zs), discounts, xs, ys, zs);
  }
}
