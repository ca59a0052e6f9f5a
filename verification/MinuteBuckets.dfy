/** One-minute summaries of an append-only log, refreshed by a tick that may run any number of times per minute. */
module MinuteBuckets {
  import opened Options
  import G = Grouping

  const CONSUME := 2
  const ERROR := 5
  const REFUND := 6
  const MINUTE := 60

  datatype Log = Log(channel: int, kind: int, quota: int, prompt: int, completion: int, createdAt: int)

  datatype Counts = Counts(requests: int, errors: int, successes: int, quota: int, prompt: int, completion: int)

  const ZERO := Counts(0, 0, 0, 0, 0, 0)

  function Plus(a: Counts, b: Counts): Counts {
    Counts(a.requests + b.requests, a.errors + b.errors, a.successes + b.successes, a.quota + b.quota,
           a.prompt + b.prompt, a.completion + b.completion)
  }

  function One(l: Log): Counts {
    Counts(1, if l.kind == ERROR then 1 else 0, if l.kind == CONSUME then 1 else 0,
           if l.kind == CONSUME || l.kind == REFUND then l.quota else 0, l.prompt, l.completion)
  }

  /** Channel 0 stands for all channels. */
  predicate Counted(l: Log, channel: int, start: int, end: int) {
    start <= l.createdAt < end && (channel == 0 || l.channel == channel)
  }

  /** The aggregate of a channel's logs in [start, end). */
  function Tally(logs: seq<Log>, channel: int, start: int, end: int): Counts {
    if logs == [] then ZERO
    else
      var before, l := Tally(logs[..|logs| - 1], channel, start, end), logs[|logs| - 1];
      if Counted(l, channel, start, end) then Plus(before, One(l)) else before
  }

  // ----- what a tally counts -----

  /** The logs of a window and a channel; channel 0 stands for all. */
  function InWindow(channel: int, start: int, end: int): Log -> bool {
    (l: Log) => start <= l.createdAt < end && (channel == 0 || l.channel == channel)
  }

  function OfKind(kind: int): Log -> bool {
    (l: Log) => l.kind == kind
  }

  function ChargedOrRefunded(): Log -> bool {
    (l: Log) => l.kind == 2 || l.kind == 6
  }

  function Quotas(): Log -> int {
    (l: Log) => l.quota
  }

  function Prompts(): Log -> int {
    (l: Log) => l.prompt
  }

  function Completions(): Log -> int {
    (l: Log) => l.completion
  }

  /** Errors are the logs of kind 5, successes those of kind 2; quota comes from kinds 2 and 6, tokens from all. */
  predicate Describes(t: Counts, logs: seq<Log>) {
    && t.requests == |logs|
    && t.errors == |G.Select(logs, OfKind(5))| && t.successes == |G.Select(logs, OfKind(2))|
    && t.quota == G.Sum(G.Select(logs, ChargedOrRefunded()), Quotas())
    && t.prompt == G.Sum(logs, Prompts()) && t.completion == G.Sum(logs, Completions())
  }

  lemma SumSnoc(logs: seq<Log>, l: Log, column: Log -> int)
    ensures G.Sum(logs + [l], column) == G.Sum(logs, column) + column(l)
  {
    assert (logs + [l])[..|logs|] == logs;
  }

  lemma KindSnoc(logs: seq<Log>, l: Log, kind: int)
    ensures |G.Select(logs + [l], OfKind(kind))| == |G.Select(logs, OfKind(kind))| + (if l.kind == kind then 1 else 0)
  {
    G.SelectSnoc(logs, l, OfKind(kind));
  }

  lemma QuotaSnoc(logs: seq<Log>, l: Log)
    ensures G.Sum(G.Select(logs + [l], ChargedOrRefunded()), Quotas())
         == G.Sum(G.Select(logs, ChargedOrRefunded()), Quotas()) + (if l.kind == 2 || l.kind == 6 then l.quota else 0)
  {
    G.SelectSnoc(logs, l, ChargedOrRefunded());
    SumSnoc(G.Select(logs, ChargedOrRefunded()), l, Quotas());
  }

  lemma DescribesSnoc(t: Counts, logs: seq<Log>, l: Log)
    requires Describes(t, logs)
    ensures Describes(Plus(t, One(l)), logs + [l])
  {
    KindSnoc(logs, l, 5);
    KindSnoc(logs, l, 2);
    QuotaSnoc(logs, l);
    SumSnoc(logs, l, Prompts());
    SumSnoc(logs, l, Completions());
  }

  /** A tally describes the logs of its channel and window. */
  lemma {:induction false} TallyDescribes(logs: seq<Log>, channel: int, start: int, end: int)
    ensures Describes(Tally(logs, channel, start, end), G.Select(logs, InWindow(channel, start, end)))
  {
    if logs != [] {
      var n := |logs| - 1;
      TallyDescribes(logs[..n], channel, start, end);
      var hits := G.Select(logs[..n], InWindow(channel, start, end));
      if InWindow(channel, start, end)(logs[n]) {
        DescribesSnoc(Tally(logs[..n], channel, start, end), hits, logs[n]);
      } else {
        assert hits + [] == hits;
      }
    }
  }

  datatype Key = Key(channel: int, bucket: int)

  type Table = map<Key, Counts>

  function RowOrZero(table: Table, channel: int, bucket: int): Counts {
    if Key(channel, bucket) in table then table[Key(channel, bucket)] else ZERO
  }

  function FloorToBucket(ts: int, bucket: int): int
    requires bucket > 0
  {
    ts / bucket * bucket
  }

  lemma FloorBounds(ts: int, bucket: int)
    requires bucket > 0
    ensures FloorToBucket(ts, bucket) <= ts < FloorToBucket(ts, bucket) + bucket
    ensures FloorToBucket(ts, bucket) % bucket == 0
  {
    assert ts == ts / bucket * bucket + ts % bucket;
    MultipleMod(ts / bucket, bucket);
  }

  lemma MultipleMod(q: int, n: int)
    requires n > 0
    ensures (q * n) % n == 0
  {
    var r := (q * n) % n;
    var d := q - (q * n) / n;
    assert q * n == (q * n) / n * n + r;
    assert d * n == r;
    if d >= 1 {
      NotBelow(d, n);
    } else if d <= -1 {
      NotBelow(-d, n);
    }
  }

  lemma NotBelow(d: int, n: int)
    requires d >= 1 && n > 0
    ensures d * n >= n
  {
  }

  ghost predicate Active(logs: seq<Log>, channel: int, start: int, end: int) {
    exists l :: l in logs && Counted(l, channel, start, end)
  }

  function ActiveChannels(logs: seq<Log>, start: int, end: int): set<int> {
    set l | l in logs && start <= l.createdAt < end && l.channel > 0 :: l.channel
  }

  /** GROUP BY channel_id: a channel's aggregate, if it has logs in the window. */
  function Grouped(logs: seq<Log>, start: int, end: int): map<int, Counts> {
    map c | c in ActiveChannels(logs, start, end) :: Tally(logs, c, start, end)
  }

  /** The keys of one minute's rows: all channels together under 0, and the channels found. */
  function RowKeys(found: map<int, Counts>, bucket: int): set<Key> {
    (set c | c in found :: Key(c, bucket)) + {Key(0, bucket)}
  }

  function Upserted(table: Table, found: map<int, Counts>, global: Counts, bucket: int): Table {
    map k | k in table.Keys + RowKeys(found, bucket) ::
      if k == Key(0, bucket) then global
      else if k.bucket == bucket && k.channel in found then found[k.channel]
      else table[k]
  }

  /** The rows of some of the channels found are stored. */
  function Stored(table: Table, found: map<int, Counts>, done: set<int>, bucket: int): Table
    requires done <= found.Keys
  {
    map k | k in table.Keys + (set c | c in done :: Key(c, bucket)) ::
      if k.bucket == bucket && k.channel in done then found[k.channel] else table[k]
  }

  lemma StoredMore(table: Table, found: map<int, Counts>, done: set<int>, c: int, bucket: int)
    requires done <= found.Keys && c in found
    ensures Stored(table, found, done + {c}, bucket) == Stored(table, found, done, bucket)[Key(c, bucket) := found[c]]
  {
  }

  lemma StoredAll(table: Table, found: map<int, Counts>, global: Counts, bucket: int)
    ensures Upserted(table, found, global, bucket)
         == Stored(table, found, found.Keys, bucket)[Key(0, bucket) := global]
  {
  }

  /** The table after a tick whose first query sees the logs of one moment, and whose second those of a later one. */
  function Refreshed(table: Table, first: seq<Log>, second: seq<Log>, bucket: int): Table {
    Upserted(table, Grouped(second, bucket, bucket + MINUTE), Tally(first, 0, bucket, bucket + MINUTE), bucket)
  }

  lemma TallySnoc(logs: seq<Log>, l: Log, channel: int, start: int, end: int)
    ensures Tally(logs + [l], channel, start, end)
         == if Counted(l, channel, start, end) then Plus(Tally(logs, channel, start, end), One(l))
            else Tally(logs, channel, start, end)
  {
    assert (logs + [l])[..|logs|] == logs;
  }

  lemma ActiveSnoc(logs: seq<Log>, l: Log, start: int, end: int)
    ensures ActiveChannels(logs + [l], start, end)
         == ActiveChannels(logs, start, end) + (if start <= l.createdAt < end && l.channel > 0 then {l.channel} else {})
  {
    assert forall x :: x in logs + [l] <==> x in logs || x == l;
    assert l in logs + [l];
  }

  lemma GroupedSnoc(logs: seq<Log>, l: Log, start: int, end: int)
    ensures var found := Grouped(logs, start, end);
            Grouped(logs + [l], start, end)
            == if start <= l.createdAt < end && l.channel > 0
               then found[l.channel := Plus(if l.channel in found then found[l.channel] else ZERO, One(l))] else found
  {
    ActiveSnoc(logs, l, start, end);
    var all := Grouped(logs + [l], start, end);
    forall c | c in all ensures Tally(logs + [l], c, start, end)
        == if Counted(l, c, start, end) then Plus(Tally(logs, c, start, end), One(l)) else Tally(logs, c, start, end)
    {
      TallySnoc(logs, l, c, start, end);
    }
    if start <= l.createdAt < end && l.channel > 0 && l.channel !in Grouped(logs, start, end) {
      NotActive(logs, l.channel, start, end);
      Inactive(logs, l.channel, start, end);
    }
  }

  lemma NotActive(logs: seq<Log>, channel: int, start: int, end: int)
    requires channel > 0
    ensures channel in ActiveChannels(logs, start, end) <==> Active(logs, channel, start, end)
  {
  }

  lemma {:induction false} Inactive(logs: seq<Log>, channel: int, start: int, end: int)
    ensures Active(logs, channel, start, end) <==> Tally(logs, channel, start, end).requests > 0
    ensures !Active(logs, channel, start, end) ==> Tally(logs, channel, start, end) == ZERO
    ensures Tally(logs, channel, start, end).requests >= 0
  {
    if logs != [] {
      var before, l := logs[..|logs| - 1], logs[|logs| - 1];
      Inactive(before, channel, start, end);
      assert logs == before + [l];
      assert forall x :: x in logs <==> x in before || x == l;
    }
  }

  lemma Inhabited(s: set<int>)
    requires s != {}
    ensures exists c :: c in s
  {
    assert (forall c :: c !in s) ==> s == {};
  }

  /** An active channel's row describes its logs; any other channel's row stays as it is. */
  predicate ChannelRow(before: Table, after: Table, logs: seq<Log>, c: int, b: int) {
    var hits := G.Select(logs, InWindow(c, b, b + 60));
    if hits == [] then SameRow(before, after, Key(c, b)) else Key(c, b) in after && Describes(after[Key(c, b)], hits)
  }

  /** The rows of minute b describe its logs, the global row those of the first query; all others stay as they are. */
  ghost predicate MinuteRows(before: Table, after: Table, first: seq<Log>, second: seq<Log>, b: int) {
    && Key(0, b) in after && Describes(after[Key(0, b)], G.Select(first, InWindow(0, b, b + 60)))
    && (forall c :: c > 0 ==> ChannelRow(before, after, second, c, b))
    && (forall k: Key :: k.bucket != b ==> SameRow(before, after, k))
  }

  predicate SameRow(before: Table, after: Table, k: Key) {
    (k in after <==> k in before) && (k in after ==> after[k] == before[k])
  }

  lemma ActiveIffHits(logs: seq<Log>, c: int, start: int, end: int)
    requires c > 0
    ensures c in ActiveChannels(logs, start, end) <==> G.Select(logs, InWindow(c, start, end)) != []
  {
    NotActive(logs, c, start, end);
    Inactive(logs, c, start, end);
    TallyDescribes(logs, c, start, end);
  }

  lemma RefreshedChannel(before: Table, first: seq<Log>, second: seq<Log>, c: int, b: int)
    requires c > 0
    ensures ChannelRow(before, Refreshed(before, first, second, b), second, c, b)
  {
    ActiveIffHits(second, c, b, b + 60);
    TallyDescribes(second, c, b, b + 60);
  }

  lemma RefreshedRows(before: Table, first: seq<Log>, second: seq<Log>, b: int)
    ensures MinuteRows(before, Refreshed(before, first, second, b), first, second, b)
  {
    TallyDescribes(first, 0, b, b + 60);
    forall c | c > 0 ensures ChannelRow(before, Refreshed(before, first, second, b), second, c, b) {
      RefreshedChannel(before, first, second, c, b);
    }
  }

  class SummaryCache {
    var rows: Table

    constructor ()
      ensures rows == map[]
    {
      rows := map[];
    }

    /** aggregateLogsSummaryByChannel: the logs of one window, grouped by channel. */
    static method ByChannel(logs: seq<Log>, start: int, end: int) returns (found: map<int, Counts>)
      ensures found == Grouped(logs, start, end)
      ensures forall c :: c in found <==> c > 0 && G.Select(logs, InWindow(c, start, end)) != []
      ensures forall c :: c in found ==> Describes(found[c], G.Select(logs, InWindow(c, start, end)))
    {
      found := map[];
      var i := 0;
      while i < |logs|
        invariant 0 <= i <= |logs| && found == Grouped(logs[..i], start, end)
      {
        var l := logs[i];
        GroupedSnoc(logs[..i], l, start, end);
        assert logs[..i + 1] == logs[..i] + [l];
        if start <= l.createdAt < end && l.channel > 0 {
          found := found[l.channel := Plus(if l.channel in found then found[l.channel] else ZERO, One(l))];
        }
        i := i + 1;
      }
      assert logs[..i] == logs;
      forall c | c > 0
        ensures c in found <==> G.Select(logs, InWindow(c, start, end)) != []
        ensures c in found ==> Describes(found[c], G.Select(logs, InWindow(c, start, end)))
      {
        ActiveIffHits(logs, c, start, end);
        TallyDescribes(logs, c, start, end);
      }
    }

    /** UpsertLogsSummary: replaces or inserts the rows of one minute. */
    method Upsert(found: map<int, Counts>, global: Counts, bucket: int)
      modifies this
      ensures rows == Upserted(old(rows), found, global, bucket)
    {
      var left := found.Keys;
      while left != {}
        invariant left <= found.Keys && rows == Stored(old(rows), found, found.Keys - left, bucket)
        decreases left
      {
        Inhabited(left);
        var c :| c in left;
        StoredMore(old(rows), found, found.Keys - left, c, bucket);
        left := left - {c};
        assert found.Keys - left == found.Keys - (left + {c}) + {c};
        rows := rows[Key(c, bucket) := found[c]];
      }
      StoredAll(old(rows), found, global, bucket);
      assert found.Keys - left == found.Keys;
      rows := rows[Key(0, bucket) := global];
    }

    /** syncLogsSummary: the global query over the logs of one moment, then the per-channel query over those of another. */
    method Sync(first: seq<Log>, second: seq<Log>, now: int)
      modifies this
      ensures rows == Refreshed(old(rows), first, second, FloorToBucket(now, MINUTE))
      ensures MinuteRows(old(rows), rows, first, second, now / 60 * 60)
    {
      var bucket := FloorToBucket(now, MINUTE);
      var global := Tally(first, 0, bucket, bucket + MINUTE);
      var found := ByChannel(second, bucket, bucket + MINUTE);
      ghost var next := Refreshed(rows, first, second, bucket);
      assert next == Upserted(rows, found, global, bucket);
      RefreshedRows(rows, first, second, bucket);
      Upsert(found, global, bucket);
    }
  }

  // ----- whole runs -----

  /** Logs may arrive between the two queries of a tick. */
  datatype Event = Append(log: Log) | Tick(now: int, between: seq<Log>)

  function LogsOf(events: seq<Event>): seq<Log> {
    if events == [] then []
    else
      var before, e := LogsOf(events[..|events| - 1]), events[|events| - 1];
      before + if e.Append? then [e.log] else e.between
  }

  /** The logs that a query of a tick sees: those of the first query for the global row, else those of the second. */
  function Visible(before: seq<Log>, between: seq<Log>, channel: int): seq<Log> {
    if channel == 0 then before else before + between
  }

  /** The cache after events. */
  function After(events: seq<Event>): Table {
    if events == [] then map[]
    else
      var before, e := events[..|events| - 1], events[|events| - 1];
      if e.Append? then After(before)
      else Refreshed(After(before), LogsOf(before), LogsOf(before) + e.between, FloorToBucket(e.now, MINUTE))
  }

  /** The logs that the last tick of a minute saw for a channel. */
  function SeenBy(events: seq<Event>, channel: int, bucket: int): Option<seq<Log>> {
    if events == [] then None
    else
      var before, e := events[..|events| - 1], events[|events| - 1];
      if e.Tick? && FloorToBucket(e.now, MINUTE) == bucket then Some(Visible(LogsOf(before), e.between, channel))
      else SeenBy(before, channel, bucket)
  }

  function TallySeen(events: seq<Event>, channel: int, bucket: int): Counts {
    var seen := SeenBy(events, channel, bucket);
    if seen.Some? then Tally(seen.value, channel, bucket, bucket + MINUTE) else ZERO
  }

  lemma {:induction false} SeenPrefix(events: seq<Event>, channel: int, bucket: int)
    ensures SeenBy(events, channel, bucket).Some? ==> SeenBy(events, channel, bucket).value <= LogsOf(events)
  {
    if events != [] {
      SeenPrefix(events[..|events| - 1], channel, bucket);
    }
  }

  /** Appending logs only adds to a tally. */
  lemma {:induction false} TallyGrows(early: seq<Log>, late: seq<Log>, channel: int, start: int, end: int)
    requires early <= late
    ensures Tally(late, channel, start, end)
         == Plus(Tally(early, channel, start, end), Tally(late[|early|..], channel, start, end))
    decreases |late|
  {
    var rest := late[|early|..];
    if rest == [] {
      assert early == late;
    } else {
      var shorter := late[..|late| - 1];
      TallyGrows(early, shorter, channel, start, end);
      assert shorter[|early|..] == rest[..|rest| - 1];
    }
  }

  lemma RefreshedRow(table: Table, first: seq<Log>, between: seq<Log>, at: int, c: int, b: int)
    requires c >= 0
    ensures var logs := Visible(first, between, c);
            RowOrZero(Refreshed(table, first, first + between, at), c, b)
            == if b == at && (c == 0 || Active(logs, c, at, at + MINUTE)) then Tally(logs, c, at, at + MINUTE)
               else RowOrZero(table, c, b)
  {
    if c > 0 {
      NotActive(first + between, c, at, at + MINUTE);
    }
  }

  lemma TickRow(before: seq<Event>, between: seq<Log>, at: int, channel: int, bucket: int)
    requires channel >= 0 && RowOrZero(After(before), channel, bucket) == TallySeen(before, channel, bucket)
    ensures RowOrZero(Refreshed(After(before), LogsOf(before), LogsOf(before) + between, at), channel, bucket)
         == if at == bucket then Tally(Visible(LogsOf(before), between, channel), channel, bucket, bucket + MINUTE)
            else TallySeen(before, channel, bucket)
  {
    RefreshedRow(After(before), LogsOf(before), between, at, channel, bucket);
    var logs := Visible(LogsOf(before), between, channel);
    if !Active(logs, channel, bucket, bucket + MINUTE) {
      Inactive(logs, channel, bucket, bucket + MINUTE);
      assert forall l :: l in LogsOf(before) ==> l in logs;
      StillEmpty(before, channel, bucket);
    }
  }

  /** A row is exactly the tally of the logs that its query saw in the last tick of its minute. */
  lemma {:induction false} RowIsLastTick(events: seq<Event>, channel: int, bucket: int)
    requires channel >= 0
    ensures RowOrZero(After(events), channel, bucket) == TallySeen(events, channel, bucket)
  {
    if events != [] {
      var before, e := events[..|events| - 1], events[|events| - 1];
      RowIsLastTick(before, channel, bucket);
      if e.Tick? {
        TickRow(before, e.between, FloorToBucket(e.now, MINUTE), channel, bucket);
      }
    }
  }

  /** So its errors, successes, quota and tokens are those of the logs of its minute among the ones seen. */
  lemma RowDescribes(events: seq<Event>, channel: int, bucket: int)
    requires channel >= 0 && SeenBy(events, channel, bucket).Some?
    ensures var seen := SeenBy(events, channel, bucket).value;
            Describes(RowOrZero(After(events), channel, bucket), G.Select(seen, InWindow(channel, bucket, bucket + 60)))
  {
    RowIsLastTick(events, channel, bucket);
    TallyDescribes(SeenBy(events, channel, bucket).value, channel, bucket, bucket + 60);
  }

  /** A channel without logs now had none at any earlier tick. */
  lemma StillEmpty(events: seq<Event>, channel: int, bucket: int)
    requires !Active(LogsOf(events), channel, bucket, bucket + MINUTE)
    ensures Tally(LogsOf(events), channel, bucket, bucket + MINUTE) == ZERO
    ensures TallySeen(events, channel, bucket) == ZERO
  {
    Inactive(LogsOf(events), channel, bucket, bucket + MINUTE);
    SeenPrefix(events, channel, bucket);
    var seen := SeenBy(events, channel, bucket);
    if seen.Some? {
      TallyGrows(seen.value, LogsOf(events), channel, bucket, bucket + MINUTE);
      Inactive(seen.value, channel, bucket, bucket + MINUTE);
      Inactive(LogsOf(events)[|seen.value|..], channel, bucket, bucket + MINUTE);
    }
  }

  function Rest(seen: Option<seq<Log>>, logs: seq<Log>): seq<Log> {
    if seen.Some? && |seen.value| <= |logs| then logs[|seen.value|..] else logs
  }

  /** The logs that no tick of this minute has seen for a channel. */
  function Unseen(events: seq<Event>, channel: int, bucket: int): seq<Log> {
    Rest(SeenBy(events, channel, bucket), LogsOf(events))
  }

  lemma {:induction false} ErrorsAndSuccesses(logs: seq<Log>, channel: int, start: int, end: int)
    ensures var t := Tally(logs, channel, start, end);
            t.errors >= 0 && t.successes >= 0 && t.errors + t.successes <= t.requests
  {
    if logs != [] {
      ErrorsAndSuccesses(logs[..|logs| - 1], channel, start, end);
    }
  }

  lemma SeenAndRest(seen: Option<seq<Log>>, logs: seq<Log>, channel: int, start: int, end: int)
    requires seen.Some? ==> seen.value <= logs
    ensures Tally(logs, channel, start, end)
         == Plus(if seen.Some? then Tally(seen.value, channel, start, end) else ZERO,
                 Tally(Rest(seen, logs), channel, start, end))
  {
    if seen.Some? {
      TallyGrows(seen.value, logs, channel, start, end);
    }
  }

  /** A row and the unseen logs make up the minute. */
  lemma RowAndUnseen(events: seq<Event>, channel: int, bucket: int)
    requires channel >= 0
    ensures Tally(LogsOf(events), channel, bucket, bucket + MINUTE)
         == Plus(RowOrZero(After(events), channel, bucket), Tally(Unseen(events, channel, bucket), channel, bucket, bucket + MINUTE))
  {
    RowIsLastTick(events, channel, bucket);
    SeenPrefix(events, channel, bucket);
    SeenAndRest(SeenBy(events, channel, bucket), LogsOf(events), channel, bucket, bucket + MINUTE);
  }

  lemma Lacking(full: Counts, row: Counts, rest: Counts)
    requires full == Plus(row, rest) && rest.errors >= 0 && rest.successes >= 0 && rest.errors + rest.successes <= rest.requests
    ensures row.requests <= full.requests && row.errors <= full.errors && row.successes <= full.successes
    ensures row == full <==> rest == ZERO
  {
  }

  /**
   * Cached rows never over-count their minute, and a row is exact precisely when the minute got no log,
   * on that channel, after its last tick.
   */
  lemma NeverOverCounts(events: seq<Event>, channel: int, bucket: int, row: Counts, full: Counts)
    requires channel >= 0 && row == RowOrZero(After(events), channel, bucket)
    requires full == Tally(LogsOf(events), channel, bucket, bucket + MINUTE)
    ensures row.requests <= full.requests && row.errors <= full.errors && row.successes <= full.successes
    ensures row == full <==> !Active(Unseen(events, channel, bucket), channel, bucket, bucket + MINUTE)
  {
    RowAndUnseen(events, channel, bucket);
    ErrorsAndSuccesses(Unseen(events, channel, bucket), channel, bucket, bucket + MINUTE);
    Inactive(Unseen(events, channel, bucket), channel, bucket, bucket + MINUTE);
    Lacking(full, row, Tally(Unseen(events, channel, bucket), channel, bucket, bucket + MINUTE));
  }

  /** Every bucket in the table is the start of a minute, and no channel is negative. */
  ghost predicate Aligned(table: Table) {
    forall k :: k in table ==> k.bucket % MINUTE == 0 && k.channel >= 0
  }

  lemma {:induction false} AlwaysAligned(events: seq<Event>)
    ensures Aligned(After(events))
  {
    if events != [] {
      AlwaysAligned(events[..|events| - 1]);
      if events[|events| - 1].Tick? {
        FloorBounds(events[|events| - 1].now, MINUTE);
      }
    }
  }
}
