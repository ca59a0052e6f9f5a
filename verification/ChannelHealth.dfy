/** Channel health: the roll-up of minute rows, and the raw aggregate over the logs that it stands in for. */
module ChannelHealth {
  import opened Options
  import opened MinuteBuckets
  import G = Grouping

  datatype Latency = Latency(p50: int, p95: int, p99: int)

  /** A row of the detail query. */
  datatype Detail = Detail(channel: int, requests: int, latency: Latency)

  datatype Channel = Channel(balance: real, status: int)

  datatype Health = Health(bucket: int, requests: int, errors: int, successes: int, prompt: int, completion: int,
                           latency: Latency, rate: real, balance: real, status: string)

  function StatusName(status: int): string {
    match status
    case 1 => "enabled"
    case 2 => "manual_disabled"
    case 3 => "auto_disabled"
    case _ => "unknown"
  }

  function HealthOf(s: Counts, latency: Latency, ch: Option<Channel>, bucket: int): Health
    requires s.requests != 0
  {
    Health(bucket, s.requests, s.errors, s.successes, s.prompt, s.completion, latency,
           s.errors as real / s.requests as real,
           if ch.Some? then ch.value.balance else 0.0,
           if ch.Some? then StatusName(ch.value.status) else "enabled")
  }

  function Look<V>(m: map<int, V>, c: int): Option<V> {
    if c in m then Some(m[c]) else None
  }

  function LatencyOr0(m: map<int, Latency>, c: int): Latency {
    if c in m then m[c] else Latency(0, 0, 0)
  }

  /** One health row per channel with requests. */
  function HealthRows(sums: map<int, Counts>, latencies: map<int, Latency>, channels: map<int, Channel>, bucket: int)
    : map<int, Health>
  {
    map c | c in sums && sums[c].requests != 0 :: HealthOf(sums[c], LatencyOr0(latencies, c), Look(channels, c), bucket)
  }

  // ----- the two aggregations -----

  /** The detail query orders by channel, then by requests, most first. */
  predicate Ordered(details: seq<Detail>) {
    forall i, j :: 0 <= i < j < |details| && details[i].channel == details[j].channel ==>
      details[i].requests >= details[j].requests
  }

  ghost predicate Busiest(d: Detail, details: seq<Detail>) {
    d in details && forall e :: e in details && e.channel == d.channel ==> e.requests <= d.requests
  }

  /** The first detail of each channel is a busiest one. */
  method TopPerChannel(details: seq<Detail>) returns (top: map<int, Detail>)
    requires Ordered(details)
    ensures forall c :: c in top <==> exists d :: d in details && d.channel == c
    ensures forall c :: c in top ==> top[c].channel == c && Busiest(top[c], details)
  {
    top := map[];
    var i := 0;
    while i < |details|
      invariant 0 <= i <= |details|
      invariant forall c :: c in top ==> exists k :: 0 <= k < i && details[k] == top[c] && details[k].channel == c
      invariant forall k :: 0 <= k < i ==> details[k].channel in top
      invariant forall c, k :: c in top && 0 <= k < |details| && details[k].channel == c ==> details[k].requests <= top[c].requests
    {
      var d := details[i];
      if d.channel !in top {
        top := top[d.channel := d];
      }
      i := i + 1;
    }
  }

  method Assemble(sums: map<int, Counts>, latencies: map<int, Latency>, channels: map<int, Channel>, bucket: int)
    returns (out: map<int, Health>)
    ensures out == HealthRows(sums, latencies, channels, bucket)
  {
    out := map[];
    var left := sums.Keys;
    while left != {}
      invariant left <= sums.Keys
      invariant out == map c | c in sums && c !in left && sums[c].requests != 0 ::
                         HealthOf(sums[c], LatencyOr0(latencies, c), Look(channels, c), bucket)
      decreases left
    {
      Inhabited(left);
      var c :| c in left;
      left := left - {c};
      if sums[c].requests != 0 {
        var rate := sums[c].errors as real / sums[c].requests as real;
        var balance, status := 0.0, "enabled";
        if c in channels {
          balance, status := channels[c].balance, StatusName(channels[c].status);
        }
        var latency := Latency(0, 0, 0);
        if c in latencies {
          latency := latencies[c];
        }
        out := out[c := Health(bucket, sums[c].requests, sums[c].errors, sums[c].successes, sums[c].prompt,
                               sums[c].completion, latency, rate, balance, status)];
      }
    }
  }

  /** aggregateChannelHealthFromCache, given the results of its SUM and detail queries. */
  method AggregateFromCache(sums: map<int, Counts>, details: seq<Detail>, channels: map<int, Channel>, bucket: int)
    returns (out: map<int, Health>)
    requires Ordered(details)
    ensures forall c :: c in out <==> c in sums && sums[c].requests != 0
    ensures forall c :: c in out ==> Reports(out[c], sums[c], Look(channels, c), bucket)
    ensures exists latencies: map<int, Latency> ::
              && out == HealthRows(sums, latencies, channels, bucket)
              && (forall d :: d in details ==> d.channel in latencies)
              && forall c :: c in latencies ==> exists d :: Busiest(d, details) && d.channel == c && d.latency == latencies[c]
  {
    var top := TopPerChannel(details);
    var latencies := map c | c in top :: top[c].latency;
    forall c | c in latencies ensures exists d :: Busiest(d, details) && d.channel == c && d.latency == latencies[c] {
      assert Busiest(top[c], details);
    }
    out := Assemble(sums, latencies, channels, bucket);
  }

  /** One channel's figures, with the rate of its errors, and defaults for a channel that is gone. */
  predicate Reports(h: Health, s: Counts, ch: Option<Channel>, bucket: int) {
    && s.requests != 0 && h.bucket == bucket
    && h.requests == s.requests && h.errors == s.errors && h.successes == s.successes
    && h.prompt == s.prompt && h.completion == s.completion
    && h.rate == s.errors as real / s.requests as real
    && (ch.None? ==> h.balance == 0.0 && h.status == "enabled")
    && (ch.Some? ==> h.balance == ch.value.balance)
    && (ch.Some? && ch.value.status == 1 ==> h.status == "enabled")
    && (ch.Some? && ch.value.status == 2 ==> h.status == "manual_disabled")
    && (ch.Some? && ch.value.status == 3 ==> h.status == "auto_disabled")
    && (ch.Some? && !(1 <= ch.value.status <= 3) ==> h.status == "unknown")
  }

  // ----- the SUM query over the minute rows -----

  /** The keys that the query reads, in any order: minutes start to end, both included. */
  ghost predicate Scanned(ks: seq<Key>, table: Table, start: int, end: int) {
    G.Distinct(ks) && forall k :: k in ks <==> k in table && start <= k.bucket <= end && k.channel > 0
  }

  function SumOver(table: Table, ks: seq<Key>, channel: int): Counts {
    if ks == [] then ZERO
    else
      var k := ks[|ks| - 1];
      Plus(SumOver(table, ks[..|ks| - 1], channel),
           if k.channel == channel then RowOrZero(table, channel, k.bucket) else ZERO)
  }

  function ChannelsIn(ks: seq<Key>): set<int> {
    set k | k in ks :: k.channel
  }

  function Sums(table: Table, ks: seq<Key>): map<int, Counts> {
    map c | c in ChannelsIn(ks) :: SumOver(table, ks, c)
  }

  function MinuteAt(start: int, i: nat): int {
    start + 60 * i
  }

  function SumMinutes(f: int -> Counts, start: int, n: nat): Counts {
    if n == 0 then ZERO else Plus(SumMinutes(f, start, n - 1), f(MinuteAt(start, n - 1)))
  }

  function RowAt(table: Table, channel: int): int -> Counts {
    (b: int) => RowOrZero(table, channel, b)
  }

  /** The same sum, taken over n minutes one after the other. */
  function SumRange(table: Table, channel: int, start: int, n: nat): Counts {
    SumMinutes(RowAt(table, channel), start, n)
  }

  /** The part of the minute-by-minute sum whose keys are in ks. */
  function Part(table: Table, ks: seq<Key>, channel: int, start: int, n: nat): Counts {
    if n == 0 then ZERO
    else Plus(Part(table, ks, channel, start, n - 1),
              if Key(channel, MinuteAt(start, n - 1)) in ks then RowOrZero(table, channel, MinuteAt(start, n - 1)) else ZERO)
  }

  lemma {:induction false} PartSame(table: Table, ks: seq<Key>, k: Key, channel: int, start: int, n: nat)
    requires k.channel != channel || k.bucket >= MinuteAt(start, n)
    ensures Part(table, ks + [k], channel, start, n) == Part(table, ks, channel, start, n)
  {
    if n > 0 {
      PartSame(table, ks, k, channel, start, n - 1);
    }
  }

  lemma {:induction false} PartSnoc(table: Table, ks: seq<Key>, k: Key, i: nat, channel: int, start: int, n: nat)
    requires k !in ks && k == Key(channel, MinuteAt(start, i)) && i < n
    ensures Part(table, ks + [k], channel, start, n)
         == Plus(Part(table, ks, channel, start, n), RowOrZero(table, channel, k.bucket))
  {
    var rest, row := Part(table, ks, channel, start, n - 1), RowOrZero(table, channel, k.bucket);
    if i == n - 1 {
      PartSame(table, ks, k, channel, start, n - 1);
      assert Part(table, ks, channel, start, n) == Plus(rest, ZERO) == rest;
    } else {
      PartSnoc(table, ks, k, i, channel, start, n - 1);
      var last := Key(channel, MinuteAt(start, n - 1));
      assert last != k;
      Swapped(rest, row, if last in ks then RowOrZero(table, channel, last.bucket) else ZERO);
    }
  }

  lemma {:induction false} PartEmpty(table: Table, channel: int, start: int, n: nat)
    ensures Part(table, [], channel, start, n) == ZERO
  {
    if n > 0 {
      PartEmpty(table, channel, start, n - 1);
    }
  }

  lemma MinuteIndex(start: int, bucket: int, n: nat) returns (i: nat)
    requires start % MINUTE == 0 && bucket % MINUTE == 0 && start <= bucket < MinuteAt(start, n)
    ensures i < n && bucket == MinuteAt(start, i)
  {
    i := (bucket - start) / MINUTE;
  }

  lemma {:induction false} SumOverIsPart(table: Table, ks: seq<Key>, channel: int, start: int, n: nat)
    requires G.Distinct(ks) && start % MINUTE == 0
    requires forall k :: k in ks ==> start <= k.bucket < MinuteAt(start, n) && k.bucket % MINUTE == 0
    ensures SumOver(table, ks, channel) == Part(table, ks, channel, start, n)
  {
    if ks == [] {
      PartEmpty(table, channel, start, n);
    } else {
      var js, k := ks[..|ks| - 1], ks[|ks| - 1];
      assert ks == js + [k] && k in ks;
      SumOverIsPart(table, js, channel, start, n);
      if k.channel == channel {
        var i := MinuteIndex(start, k.bucket, n);
        PartSnoc(table, js, k, i, channel, start, n);
      } else {
        PartSame(table, js, k, channel, start, n);
      }
    }
  }

  lemma {:induction false} PartIsRange(table: Table, ks: seq<Key>, channel: int, start: int, n: nat, end: int)
    requires channel > 0 && Scanned(ks, table, start, end) && MinuteAt(start, n) <= end + MINUTE
    ensures Part(table, ks, channel, start, n) == SumRange(table, channel, start, n)
  {
    if n > 0 {
      PartIsRange(table, ks, channel, start, n - 1, end);
    }
  }

  lemma SumOverIsRange(table: Table, ks: seq<Key>, channel: int, start: int, n: nat)
    requires Aligned(table) && start % MINUTE == 0 && channel > 0 && Scanned(ks, table, start, MinuteAt(start, n) - MINUTE)
    ensures SumOver(table, ks, channel) == SumRange(table, channel, start, n)
  {
    SumOverIsPart(table, ks, channel, start, n);
    PartIsRange(table, ks, channel, start, n, MinuteAt(start, n) - MINUTE);
  }

  // ----- the roll-up against the logs -----

  lemma {:induction false} TallySplit(logs: seq<Log>, channel: int, a: int, b: int, c: int)
    requires a <= b <= c
    ensures Tally(logs, channel, a, c) == Plus(Tally(logs, channel, a, b), Tally(logs, channel, b, c))
  {
    if logs != [] {
      TallySplit(logs[..|logs| - 1], channel, a, b, c);
    }
  }

  lemma {:induction false} TallyNothing(logs: seq<Log>, channel: int, a: int)
    ensures Tally(logs, channel, a, a) == ZERO
  {
    if logs != [] {
      TallyNothing(logs[..|logs| - 1], channel, a);
    }
  }

  predicate ExactAt(table: Table, logs: seq<Log>, channel: int, bucket: int) {
    RowOrZero(table, channel, bucket) == Tally(logs, channel, bucket, bucket + MINUTE)
  }

  /** The rows of n minutes are exact. */
  ghost predicate Exact(table: Table, logs: seq<Log>, channel: int, start: int, n: nat) {
    forall i: nat :: i < n ==> ExactAt(table, logs, channel, MinuteAt(start, i))
  }

  lemma NextMinute(table: Table, logs: seq<Log>, channel: int, start: int, n: nat, mid: int)
    requires mid == MinuteAt(start, n) && ExactAt(table, logs, channel, mid)
    requires SumRange(table, channel, start, n) == Tally(logs, channel, start, mid)
    ensures SumRange(table, channel, start, n + 1) == Tally(logs, channel, start, mid + MINUTE)
  {
    TallySplit(logs, channel, start, mid, mid + MINUTE);
  }

  lemma RangeIsTally(table: Table, logs: seq<Log>, channel: int, start: int, n: nat)
    requires Exact(table, logs, channel, start, n)
    ensures SumRange(table, channel, start, n) == Tally(logs, channel, start, MinuteAt(start, n))
  {
    TallyNothing(logs, channel, start);
    var i := 0;
    while i < n
      invariant 0 <= i <= n && SumRange(table, channel, start, i) == Tally(logs, channel, start, MinuteAt(start, i))
    {
      NextMinute(table, logs, channel, start, i, MinuteAt(start, i));
      i := i + 1;
    }
  }

  /** No tick of the minute missed one of its logs. */
  ghost predicate AllSeen(events: seq<Event>, channel: int, bucket: int) {
    !Active(Unseen(events, channel, bucket), channel, bucket, bucket + MINUTE)
  }

  lemma ExactAtIffSeen(events: seq<Event>, channel: int, bucket: int)
    requires channel >= 0
    ensures ExactAt(After(events), LogsOf(events), channel, bucket) <==> AllSeen(events, channel, bucket)
  {
    NeverOverCounts(events, channel, bucket, RowOrZero(After(events), channel, bucket),
                    Tally(LogsOf(events), channel, bucket, bucket + MINUTE));
  }

  lemma ExactFromSeen(table: Table, logs: seq<Log>, events: seq<Event>, channel: int, start: int, n: nat)
    requires channel >= 0 && table == After(events) && logs == LogsOf(events)
    ensures Exact(table, logs, channel, start, n) <==> forall i: nat :: i < n ==> AllSeen(events, channel, MinuteAt(start, i))
  {
    forall i: nat | i < n
      ensures ExactAt(table, logs, channel, MinuteAt(start, i)) <==> AllSeen(events, channel, MinuteAt(start, i))
    {
      ExactAtIffSeen(events, channel, MinuteAt(start, i));
    }
  }

  /** On a reachable cache the rows are exact precisely when no tick missed a log of their minutes. */
  lemma ExactIffSeen(events: seq<Event>, channel: int, start: int, n: nat)
    requires channel >= 0
    ensures Exact(After(events), LogsOf(events), channel, start, n)
       <==> forall i: nat :: i < n ==> AllSeen(events, channel, MinuteAt(start, i))
  {
    ExactFromSeen(After(events), LogsOf(events), events, channel, start, n);
  }

  predicate SameHealth(a: Health, b: Health) {
    a.(latency := b.latency) == b
  }

  lemma SumsMatch(table: Table, logs: seq<Log>, ks: seq<Key>, start: int, n: nat, c: int)
    requires Aligned(table) && Scanned(ks, table, start, MinuteAt(start, n) - MINUTE) && start % MINUTE == 0
    requires c > 0 && Exact(table, logs, c, start, n)
    ensures c in Sums(table, ks) ==> Sums(table, ks)[c] == Tally(logs, c, start, MinuteAt(start, n))
    ensures c !in Sums(table, ks) ==> Tally(logs, c, start, MinuteAt(start, n)).requests == 0
    ensures c in Grouped(logs, start, MinuteAt(start, n)) <==> Tally(logs, c, start, MinuteAt(start, n)).requests > 0
    ensures Tally(logs, c, start, MinuteAt(start, n)).requests >= 0
  {
    SumOverIsRange(table, ks, c, start, n);
    RangeIsTally(table, logs, c, start, n);
    if c !in ChannelsIn(ks) {
      SumOfNone(table, ks, c);
    }
    NotActive(logs, c, start, MinuteAt(start, n));
    Inactive(logs, c, start, MinuteAt(start, n));
  }

  lemma ChannelMatches(table: Table, logs: seq<Log>, ks: seq<Key>, start: int, n: nat, bucket: int, c: int,
                       rolled: map<int, Health>, raw: map<int, Health>,
                       tops: map<int, Latency>, percentiles: map<int, Latency>, channels: map<int, Channel>)
    requires Aligned(table) && Scanned(ks, table, start, bucket)
    requires start % MINUTE == 0 && bucket + MINUTE == MinuteAt(start, n)
    requires c > 0 && Exact(table, logs, c, start, n)
    requires rolled == HealthRows(Sums(table, ks), tops, channels, bucket)
    requires raw == HealthRows(Grouped(logs, start, bucket + MINUTE), percentiles, channels, bucket)
    ensures c in rolled <==> c in raw
    ensures c in rolled ==> SameHealth(rolled[c], raw[c])
  {
    SumsMatch(table, logs, ks, start, n, c);
  }

  /**
   * When the rows are exact, the roll-up over the n minutes from start to bucket is the raw aggregate over
   * [start, bucket + 60): the minute that begins at bucket is included.
   */
  lemma RollUpIsRaw(table: Table, logs: seq<Log>, ks: seq<Key>, start: int, n: nat, bucket: int,
                    rolled: map<int, Health>, raw: map<int, Health>,
                    tops: map<int, Latency>, percentiles: map<int, Latency>, channels: map<int, Channel>)
    requires Aligned(table) && Scanned(ks, table, start, bucket)
    requires start % MINUTE == 0 && bucket + MINUTE == MinuteAt(start, n)
    requires forall c :: c > 0 ==> Exact(table, logs, c, start, n)
    requires rolled == HealthRows(Sums(table, ks), tops, channels, bucket)
    requires raw == HealthRows(Grouped(logs, start, bucket + MINUTE), percentiles, channels, bucket)
    ensures rolled.Keys == raw.Keys && forall c :: c in rolled ==> SameHealth(rolled[c], raw[c])
  {
    forall c | c in rolled.Keys + raw.Keys ensures c in rolled && c in raw && SameHealth(rolled[c], raw[c]) {
      PositiveChannels(table, logs, ks, start, bucket, c);
      ChannelMatches(table, logs, ks, start, n, bucket, c, rolled, raw, tops, percentiles, channels);
    }
  }

  /** The raw aggregate counts logs: errors of kind 5, successes of kind 2, a channel whenever it has any log at all. */
  lemma RawDescribes(logs: seq<Log>, start: int, end: int, bucket: int, raw: map<int, Health>,
                     percentiles: map<int, Latency>, channels: map<int, Channel>, c: int)
    requires raw == HealthRows(Grouped(logs, start, end), percentiles, channels, bucket) && c > 0
    ensures var hits := G.Select(logs, InWindow(c, start, end));
            && (c in raw <==> hits != [])
            && (c in raw ==>
                 && raw[c].requests == |hits| && raw[c].errors == |G.Select(hits, OfKind(5))|
                 && raw[c].successes == |G.Select(hits, OfKind(2))|
                 && raw[c].prompt == G.Sum(hits, Prompts()) && raw[c].completion == G.Sum(hits, Completions())
                 && raw[c].rate == |G.Select(hits, OfKind(5))| as real / |hits| as real)
  {
    TallyDescribes(logs, c, start, end);
    NotActive(logs, c, start, end);
    Inactive(logs, c, start, end);
  }

  lemma PositiveChannels(table: Table, logs: seq<Log>, ks: seq<Key>, start: int, bucket: int, c: int)
    requires Scanned(ks, table, start, bucket)
    requires c in Sums(table, ks) || c in Grouped(logs, start, bucket + MINUTE)
    ensures c > 0
  {
  }

  lemma {:induction false} SumOfNone(table: Table, ks: seq<Key>, channel: int)
    requires channel !in ChannelsIn(ks)
    ensures SumOver(table, ks, channel) == ZERO
  {
    if ks != [] {
      var js, k := ks[..|ks| - 1], ks[|ks| - 1];
      assert ks == js + [k] && k in ks;
      assert k.channel in ChannelsIn(ks);
      forall c | c in ChannelsIn(js) ensures c in ChannelsIn(ks) {
        var j :| j in js && j.channel == c;
        assert j in ks;
      }
      SumOfNone(table, js, channel);
    }
  }

  /** Against the fallback, which stops before bucket, the roll-up has the minute of bucket in addition. */
  lemma RollUpBeyondFallback(table: Table, logs: seq<Log>, channel: int, start: int, n: nat)
    requires Exact(table, logs, channel, start, n + 1)
    ensures var bucket := MinuteAt(start, n);
            SumRange(table, channel, start, n + 1)
            == Plus(Tally(logs, channel, start, bucket), Tally(logs, channel, bucket, bucket + MINUTE))
  {
    RangeIsTally(table, logs, channel, start, n);
  }

  lemma Appended(whole: Counts, a: Counts, b: Counts, c: Counts)
    requires whole == Plus(a, b)
    ensures Plus(whole, c) == Plus(a, Plus(b, c))
  {
  }

  lemma {:induction false} MinutesSplit(f: int -> Counts, start: int, m: nat, n: nat, at: int)
    requires at == MinuteAt(start, m)
    ensures SumMinutes(f, start, m + n) == Plus(SumMinutes(f, start, m), SumMinutes(f, at, n))
  {
    if n > 0 {
      MinutesSplit(f, start, m, n - 1, at);
      Appended(SumMinutes(f, start, m + n - 1), SumMinutes(f, start, m), SumMinutes(f, at, n - 1), f(MinuteAt(at, n - 1)));
    }
  }

  lemma Swapped(a: Counts, b: Counts, c: Counts)
    ensures Plus(Plus(a, c), b) == Plus(Plus(a, b), c)
  {
  }

  lemma MinutesOverlap(f: int -> Counts, start: int, m: nat, n: nat, bucket: int)
    requires bucket == MinuteAt(start, m)
    ensures Plus(SumMinutes(f, start, m + 1), SumMinutes(f, bucket, n + 1)) == Plus(SumMinutes(f, start, m + (n + 1)), f(bucket))
  {
    MinutesSplit(f, start, m, n + 1, bucket);
    Swapped(SumMinutes(f, start, m), SumMinutes(f, bucket, n + 1), f(bucket));
  }

  /** Roll-ups of consecutive buckets both count the minute at which they meet. */
  lemma RollUpsOverlap(table: Table, channel: int, start: int, m: nat, n: nat, bucket: int)
    requires bucket == MinuteAt(start, m)
    ensures Plus(SumRange(table, channel, start, m + 1), SumRange(table, channel, bucket, n + 1))
         == Plus(SumRange(table, channel, start, m + (n + 1)), RowOrZero(table, channel, bucket))
  {
    MinutesOverlap(RowAt(table, channel), start, m, n, bucket);
  }

  // ----- the rolled-up error rate -----

  /** The error rate a minute row carries. */
  function MinuteRate(c: Counts): real {
    if c.requests > 0 then c.errors as real / c.requests as real else 0.0
  }

  predicate Sane(c: Counts) {
    0 <= c.errors <= c.requests
  }

  lemma Cross(e: int, r: int, rate: real)
    requires r > 0
    ensures e as real / r as real > rate <==> e as real > rate * r as real
    ensures e as real / r as real < rate <==> e as real < rate * r as real
  {
    var q := e as real / r as real;
    assert q * r as real == e as real;
    if q > rate {
      Above(q, rate, r as real);
    } else if q < rate {
      Above(rate, q, r as real);
    }
  }

  lemma Above(x: real, y: real, n: real)
    requires x > y && n > 0.0
    ensures x * n > y * n
  {
  }

  predicate Beyond(c: Counts, rate: real) {
    && c.requests >= 0 && c.errors as real >= rate * c.requests as real
    && (c.requests > 0 ==> c.errors as real > rate * c.requests as real)
  }

  predicate Within(c: Counts, rate: real) {
    && c.requests >= 0 && c.errors as real <= rate * c.requests as real
    && (c.requests > 0 ==> (c.errors as real) < rate * c.requests as real)
  }

  lemma Together(a: Counts, b: Counts, rate: real)
    ensures Beyond(a, rate) && Beyond(b, rate) ==> Beyond(Plus(a, b), rate)
    ensures Within(a, rate) && Within(b, rate) ==> Within(Plus(a, b), rate)
  {
    assert rate * (a.requests + b.requests) as real == rate * a.requests as real + rate * b.requests as real;
  }

  lemma RowBeyond(c: Counts, rate: real)
    requires Sane(c) && (c.requests > 0 ==> MinuteRate(c) > rate)
    ensures Beyond(c, rate)
  {
    if c.requests > 0 {
      Cross(c.errors, c.requests, rate);
    }
  }

  lemma RowWithin(c: Counts, rate: real)
    requires Sane(c) && (c.requests > 0 ==> MinuteRate(c) < rate)
    ensures Within(c, rate)
  {
    if c.requests > 0 {
      Cross(c.errors, c.requests, rate);
    }
  }

  lemma SumOverSnoc(table: Table, js: seq<Key>, k: Key, channel: int)
    ensures SumOver(table, js + [k], channel)
         == if k.channel == channel then Plus(SumOver(table, js, channel), RowOrZero(table, channel, k.bucket))
            else SumOver(table, js, channel)
  {
    assert (js + [k])[..|js|] == js;
  }

  lemma {:induction false} AllAbove(table: Table, ks: seq<Key>, channel: int, rate: real)
    requires forall k :: k in ks ==> Sane(RowOrZero(table, k.channel, k.bucket))
    requires forall k :: Rated(table, ks, channel, k) ==> MinuteRate(RowOrZero(table, channel, k.bucket)) > rate
    ensures Beyond(SumOver(table, ks, channel), rate)
  {
    if ks != [] {
      var js, k := ks[..|ks| - 1], ks[|ks| - 1];
      assert ks == js + [k] && k in ks;
      assert forall j :: Rated(table, js, channel, j) ==> Rated(table, ks, channel, j);
      AllAbove(table, js, channel, rate);
      SumOverSnoc(table, js, k, channel);
      if k.channel == channel {
        var row := RowOrZero(table, channel, k.bucket);
        assert row.requests > 0 ==> Rated(table, ks, channel, k);
        RowBeyond(row, rate);
        Together(SumOver(table, js, channel), row, rate);
      }
    }
  }

  lemma {:induction false} AllBelow(table: Table, ks: seq<Key>, channel: int, rate: real)
    requires forall k :: k in ks ==> Sane(RowOrZero(table, k.channel, k.bucket))
    requires forall k :: Rated(table, ks, channel, k) ==> MinuteRate(RowOrZero(table, channel, k.bucket)) < rate
    ensures Within(SumOver(table, ks, channel), rate)
  {
    if ks != [] {
      var js, k := ks[..|ks| - 1], ks[|ks| - 1];
      assert ks == js + [k] && k in ks;
      assert forall j :: Rated(table, js, channel, j) ==> Rated(table, ks, channel, j);
      AllBelow(table, js, channel, rate);
      SumOverSnoc(table, js, k, channel);
      if k.channel == channel {
        var row := RowOrZero(table, channel, k.bucket);
        assert row.requests > 0 ==> Rated(table, ks, channel, k);
        RowWithin(row, rate);
        Together(SumOver(table, js, channel), row, rate);
      }
    }
  }

  ghost predicate Rated(table: Table, ks: seq<Key>, channel: int, k: Key) {
    k in ks && k.channel == channel && RowOrZero(table, channel, k.bucket).requests > 0
  }

  lemma SomeMinuteAtMost(table: Table, ks: seq<Key>, channel: int, s: Counts, rate: real)
    requires forall k :: k in ks ==> Sane(RowOrZero(table, k.channel, k.bucket))
    requires s == SumOver(table, ks, channel) && s.requests > 0 && rate == s.errors as real / s.requests as real
    ensures exists k :: Rated(table, ks, channel, k) && MinuteRate(RowOrZero(table, channel, k.bucket)) <= rate
  {
    Cross(s.errors, s.requests, rate);
    if forall k :: Rated(table, ks, channel, k) ==> MinuteRate(RowOrZero(table, channel, k.bucket)) > rate {
      AllAbove(table, ks, channel, rate);
    }
  }

  lemma SomeMinuteAtLeast(table: Table, ks: seq<Key>, channel: int, s: Counts, rate: real)
    requires forall k :: k in ks ==> Sane(RowOrZero(table, k.channel, k.bucket))
    requires s == SumOver(table, ks, channel) && s.requests > 0 && rate == s.errors as real / s.requests as real
    ensures exists k :: Rated(table, ks, channel, k) && MinuteRate(RowOrZero(table, channel, k.bucket)) >= rate
  {
    Cross(s.errors, s.requests, rate);
    if forall k :: Rated(table, ks, channel, k) ==> MinuteRate(RowOrZero(table, channel, k.bucket)) < rate {
      AllBelow(table, ks, channel, rate);
    }
  }

  /** The rolled-up error rate lies between the smallest and the largest rate of the non-empty minutes. */
  lemma RateBetween(table: Table, ks: seq<Key>, channel: int, s: Counts, rate: real)
    requires forall k :: k in ks ==> Sane(RowOrZero(table, k.channel, k.bucket))
    requires s == SumOver(table, ks, channel) && s.requests > 0 && rate == s.errors as real / s.requests as real
    ensures exists k :: Rated(table, ks, channel, k) && MinuteRate(RowOrZero(table, channel, k.bucket)) <= rate
    ensures exists k :: Rated(table, ks, channel, k) && MinuteRate(RowOrZero(table, channel, k.bucket)) >= rate
  {
    SomeMinuteAtMost(table, ks, channel, s, rate);
    SomeMinuteAtLeast(table, ks, channel, s, rate);
  }

  /** Rows of a reachable cache are sane. */
  lemma ReachableRowsSane(events: seq<Event>, channel: int, bucket: int)
    requires channel >= 0
    ensures Sane(RowOrZero(After(events), channel, bucket))
  {
    RowIsLastTick(events, channel, bucket);
    if SeenBy(events, channel, bucket).Some? {
      ErrorsAndSuccesses(SeenBy(events, channel, bucket).value, channel, bucket, bucket + MINUTE);
    }
  }
}
