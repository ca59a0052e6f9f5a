/** The batched read of each channel's newest minute rows, which fetches once from a single lower bound. */
module ChannelSummary {
  import opened MinuteBuckets

  type Entry = (Key, Counts)

  ghost predicate IsTop(table: Table, channel: int, bucket: int) {
    Key(channel, bucket) in table && forall b :: Key(channel, b) in table ==> b <= bucket
  }

  function Threshold(top: int, n: int): int {
    top - (n - 1) * MINUTE
  }

  /** One of the n minute slots that end at top. */
  predicate InSlots(bucket: int, top: int, n: int) {
    exists i :: 0 <= i < n && bucket == top - i * MINUTE
  }

  /** The slots are the whole minutes from top back to n - 1 minutes before. */
  lemma SlotsMean(bucket: int, top: int, n: int)
    ensures InSlots(bucket, top, n) <==> top - 60 * (n - 1) <= bucket <= top && (top - bucket) % 60 == 0
  {
    if top - 60 * (n - 1) <= bucket <= top && (top - bucket) % 60 == 0 {
      var i := (top - bucket) / 60;
      assert bucket == top - i * MINUTE;
    }
  }

  predicate Ascending(list: seq<Entry>) {
    forall i, j :: 0 <= i < j < |list| ==> list[i].0.bucket < list[j].0.bucket
  }

  /** Exactly the channel's rows in its newest n slots, oldest first. */
  ghost predicate NewestSlots(list: seq<Entry>, table: Table, channel: int, top: int, n: int) {
    && Ascending(list)
    && forall e :: e in list <==> e.0 in table && table[e.0] == e.1 && e.0.channel == channel && InSlots(e.0.bucket, top, n)
  }

  // ----- queries -----

  /** The newest bucket of every channel. */
  ghost predicate TopsOf(tops: map<int, int>, table: Table) {
    && (forall c :: c in tops ==> c > 0 && IsTop(table, c, tops[c]))
    && (forall k :: k in table && k.channel > 0 ==> k.channel in tops)
  }

  lemma TopsAreOne(table: Table, tops: map<int, int>, others: map<int, int>)
    requires TopsOf(tops, table) && TopsOf(others, table)
    ensures tops == others
  {
    forall c | c in tops.Keys + others.Keys ensures c in tops && c in others && tops[c] == others[c] {
      assert c in tops ==> Key(c, tops[c]) in table;
      assert c in others ==> Key(c, others[c]) in table;
    }
  }

  /** MAX(bucket_ts) per channel. */
  method Tops(table: Table) returns (tops: map<int, int>)
    ensures TopsOf(tops, table)
  {
    tops := map[];
    var left := table.Keys;
    while left != {}
      invariant left <= table.Keys
      invariant forall c :: c in tops ==> c > 0 && Key(c, tops[c]) in table
      invariant forall k :: k in table && k !in left && k.channel > 0 ==> k.channel in tops && k.bucket <= tops[k.channel]
      decreases left
    {
      var k :| k in left;
      left := left - {k};
      if k.channel > 0 && (k.channel !in tops || k.bucket > tops[k.channel]) {
        tops := tops[k.channel := k.bucket];
      }
    }
  }

  predicate Before(a: Key, b: Key) {
    a.channel < b.channel || (a.channel == b.channel && a.bucket < b.bucket)
  }

  predicate Sorted(rows: seq<Entry>) {
    forall i, j :: 0 <= i < j < |rows| ==> Before(rows[i].0, rows[j].0)
  }

  function Place(rows: seq<Entry>, k: Key): (i: nat)
    ensures i <= |rows|
    ensures forall j :: 0 <= j < i ==> Before(rows[j].0, k)
    ensures i < |rows| ==> !Before(rows[i].0, k)
  {
    if rows == [] || !Before(rows[0].0, k) then 0 else 1 + Place(rows[1..], k)
  }

  lemma PlaceAhead(rows: seq<Entry>, i: nat, k: Key, j: nat)
    requires Sorted(rows) && i <= j < |rows| && !Before(rows[i].0, k) && rows[i].0 != k
    ensures Before(k, rows[j].0)
  {
    assert i < j ==> Before(rows[i].0, rows[j].0);
  }

  lemma PlaceMembers(rows: seq<Entry>, i: nat, e: Entry)
    requires i <= |rows|
    ensures forall x :: x in rows[..i] + [e] + rows[i..] <==> x in rows || x == e
  {
    assert rows == rows[..i] + rows[i..];
  }

  lemma PlaceSorts(rows: seq<Entry>, i: nat, e: Entry)
    requires Sorted(rows) && i <= |rows| && (forall x :: x in rows ==> x.0 != e.0)
    requires forall j :: 0 <= j < i ==> Before(rows[j].0, e.0)
    requires i < |rows| ==> !Before(rows[i].0, e.0)
    ensures Sorted(rows[..i] + [e] + rows[i..])
  {
    var more := rows[..i] + [e] + rows[i..];
    forall j | i <= j < |rows| ensures Before(e.0, rows[j].0) {
      assert rows[i] in rows;
      PlaceAhead(rows, i, e.0, j);
    }
    forall a, b | 0 <= a < b < |more| ensures Before(more[a].0, more[b].0) {
      var x, y := if a < i then a else a - 1, if b < i then b else b - 1;
      assert a == i || more[a] == rows[x];
      assert b == i || more[b] == rows[y];
    }
  }

  /** The rows from a bucket on, ordered by channel and bucket. */
  method RowsFrom(table: Table, minTS: int) returns (rows: seq<Entry>)
    ensures Sorted(rows)
    ensures forall e :: e in rows <==> e.0 in table && table[e.0] == e.1 && e.0.channel > 0 && e.0.bucket >= minTS
  {
    rows := [];
    var left := table.Keys;
    while left != {}
      invariant left <= table.Keys && Sorted(rows)
      invariant forall e :: e in rows <==>
                  e.0 in table && e.0 !in left && table[e.0] == e.1 && e.0.channel > 0 && e.0.bucket >= minTS
      decreases left
    {
      var k :| k in left;
      if k.channel > 0 && k.bucket >= minTS {
        var i := Place(rows, k);
        PlaceSorts(rows, i, (k, table[k]));
        PlaceMembers(rows, i, (k, table[k]));
        rows := rows[..i] + [(k, table[k])] + rows[i..];
      }
      left := left - {k};
    }
  }

  // ----- the batched read -----

  /** The running minimum over the thresholds in the order in which they are visited. */
  function RunningMin(ts: seq<int>): int {
    if ts == [] then -1
    else
      var m, t := RunningMin(ts[..|ts| - 1]), ts[|ts| - 1];
      if m == -1 || t < m then t else m
  }

  lemma RunningSnoc(ts: seq<int>, t: int)
    ensures RunningMin(ts + [t]) == if RunningMin(ts) == -1 || t < RunningMin(ts) then t else RunningMin(ts)
  {
    assert (ts + [t])[..|ts|] == ts;
  }

  /** Every channel once. */
  ghost predicate OrderOf(order: seq<int>, channels: set<int>) {
    && (forall c :: c in order <==> c in channels)
    && (forall i, j :: 0 <= i < j < |order| ==> order[i] != order[j])
  }

  function Thresholds(tops: map<int, int>, n: int, order: seq<int>): seq<int> {
    seq(|order|, i requires 0 <= i < |order| => if order[i] in tops then Threshold(tops[order[i]], n) else 0)
  }

  lemma VisitMore(tops: map<int, int>, n: int, order: seq<int>, seen: set<int>, c: int)
    requires OrderOf(order, seen) && c in tops && c !in seen
    ensures OrderOf(order + [c], seen + {c})
    ensures var m := RunningMin(Thresholds(tops, n, order));
            RunningMin(Thresholds(tops, n, order + [c]))
            == if m == -1 || Threshold(tops[c], n) < m then Threshold(tops[c], n) else m
  {
    assert Thresholds(tops, n, order + [c]) == Thresholds(tops, n, order) + [Threshold(tops[c], n)];
    RunningSnoc(Thresholds(tops, n, order), Threshold(tops[c], n));
  }

  /** The running minimum, started at the sentinel -1. */
  method LowerBound(tops: map<int, int>, n: int) returns (minTS: int, ghost order: seq<int>)
    ensures minTS == RunningMin(Thresholds(tops, n, order)) && OrderOf(order, tops.Keys)
    ensures (forall c :: c in tops ==> Threshold(tops[c], n) != -1) ==>
              forall c :: c in tops ==> minTS <= Threshold(tops[c], n)
    ensures tops != map[] ==> exists c :: c in tops && minTS == Threshold(tops[c], n)
  {
    minTS, order := -1, [];
    var left := tops.Keys;
    while left != {}
      invariant left <= tops.Keys && OrderOf(order, tops.Keys - left)
      invariant minTS == RunningMin(Thresholds(tops, n, order))
      invariant left == tops.Keys ==> minTS == -1
      invariant left != tops.Keys ==> exists c :: c in tops && minTS == Threshold(tops[c], n)
      invariant (forall c :: c in tops ==> Threshold(tops[c], n) != -1) ==>
                  forall c :: c in tops && c !in left ==> minTS <= Threshold(tops[c], n)
      decreases left
    {
      Inhabited(left);
      var c :| c in left;
      left := left - {c};
      var threshold := tops[c] - (n - 1) * MINUTE;
      VisitMore(tops, n, order, tops.Keys - left - {c}, c);
      order := order + [c];
      if minTS == -1 || threshold < minTS {
        minTS := threshold;
      }
    }
  }

  /** The wanted buckets of a channel: its newest one and the n - 1 slots before it. */
  method Slots(top: int, n: int) returns (slots: set<int>)
    requires n > 0
    ensures forall b :: b in slots <==> InSlots(b, top, n)
  {
    slots := {};
    var i := 0;
    while i < n
      invariant 0 <= i <= n && forall b :: b in slots <==> InSlots(b, top, i)
    {
      assert InSlots(top - i * MINUTE, top, i + 1);
      slots := slots + {top - i * MINUTE};
      i := i + 1;
    }
  }

  method WantedBuckets(tops: map<int, int>, n: int) returns (wanted: map<int, set<int>>)
    requires n > 0
    ensures wanted.Keys == tops.Keys
    ensures forall c, b :: c in tops ==> (b in wanted[c] <==> InSlots(b, tops[c], n))
  {
    wanted := map[];
    var left := tops.Keys;
    while left != {}
      invariant left <= tops.Keys && wanted.Keys == tops.Keys - left
      invariant forall c, b :: c in wanted ==> (b in wanted[c] <==> InSlots(b, tops[c], n))
      decreases left
    {
      Inhabited(left);
      var c :| c in left;
      left := left - {c};
      var slots := Slots(tops[c], n);
      wanted := wanted[c := slots];
    }
  }

  function Listed(result: map<int, seq<Entry>>, c: int): seq<Entry> {
    if c in result then result[c] else []
  }

  predicate Wanted(wanted: map<int, set<int>>, k: Key) {
    k.channel in wanted && k.bucket in wanted[k.channel]
  }

  function Kept(rows: seq<Entry>, wanted: map<int, set<int>>, c: int): seq<Entry> {
    if rows == [] then []
    else
      var r := rows[|rows| - 1];
      Kept(rows[..|rows| - 1], wanted, c) + (if r.0.channel == c && Wanted(wanted, r.0) then [r] else [])
  }

  lemma {:induction false} KeptIs(rows: seq<Entry>, wanted: map<int, set<int>>, c: int)
    requires Sorted(rows)
    ensures Ascending(Kept(rows, wanted, c))
    ensures forall e :: e in Kept(rows, wanted, c) <==> e in rows && e.0.channel == c && Wanted(wanted, e.0)
  {
    if rows != [] {
      var before, r := rows[..|rows| - 1], rows[|rows| - 1];
      KeptIs(before, wanted, c);
      assert forall e :: e in rows <==> e in before || e == r;
      assert forall e :: e in before ==> Before(e.0, r.0);
      var kept := Kept(before, wanted, c);
      forall i | 0 <= i < |kept| ensures r.0.channel == c ==> kept[i].0.bucket < r.0.bucket {
        assert kept[i] in before;
      }
    }
  }

  /** Keeps the wanted rows, per channel and in order. */
  method Distribute(rows: seq<Entry>, wanted: map<int, set<int>>) returns (result: map<int, seq<Entry>>)
    ensures forall c :: Listed(result, c) == Kept(rows, wanted, c) && (c in result ==> result[c] != [])
  {
    result := map[];
    var i := 0;
    while i < |rows|
      invariant 0 <= i <= |rows|
      invariant forall c :: Listed(result, c) == Kept(rows[..i], wanted, c) && (c in result ==> result[c] != [])
    {
      var r := rows[i];
      assert rows[..i + 1][..i] == rows[..i];
      if r.0.channel in wanted && r.0.bucket in wanted[r.0.channel] {
        result := result[r.0.channel := Listed(result, r.0.channel) + [r]];
      }
      i := i + 1;
    }
    assert rows[..i] == rows;
  }

  ghost predicate Correct(result: map<int, seq<Entry>>, table: Table, n: int) {
    && (forall c :: c in result <==> c > 0 && exists b :: IsTop(table, c, b))
    && (forall c, top :: c in result && IsTop(table, c, top) ==> NewestSlots(result[c], table, c, top, n))
  }

  /** A wanted row lies before the bucket from which the rows are fetched. */
  ghost predicate LosesRow(table: Table, tops: map<int, int>, n: int, minTS: int) {
    exists k :: k in table && k.channel in tops && InSlots(k.bucket, tops[k.channel], n) && k.bucket < minTS
  }

  /** Some order of visits makes the running minimum lose a wanted row. */
  ghost predicate CanLoseRow(table: Table, tops: map<int, int>, n: int) {
    exists order :: OrderOf(order, tops.Keys) && LosesRow(table, tops, n, RunningMin(Thresholds(tops, n, order)))
  }

  /** ListLatestChannelSummary. */
  method ListLatest(table: Table, count: int) returns (result: map<int, seq<Entry>>)
    ensures var n := if count <= 0 then 5 else count;
            forall tops :: TopsOf(tops, table) && !CanLoseRow(table, tops, n) ==> Correct(result, table, n)
  {
    var n := if count <= 0 then 5 else count;
    var tops := Tops(table);
    if tops == map[] {
      assert Correct(map[], table, n);
      return map[];
    }
    var minTS, order := LowerBound(tops, n);
    var rows := RowsFrom(table, minTS);
    var wanted := WantedBuckets(tops, n);
    result := Distribute(rows, wanted);
    forall others | TopsOf(others, table) && !CanLoseRow(table, others, n) ensures Correct(result, table, n) {
      TopsAreOne(table, tops, others);
      ReadIsCorrect(table, n, tops, minTS, rows, wanted, result);
    }
  }

  lemma ReadIsCorrect(table: Table, n: int, tops: map<int, int>, minTS: int, rows: seq<Entry>,
                      wanted: map<int, set<int>>, result: map<int, seq<Entry>>)
    requires n > 0 && TopsOf(tops, table) && !LosesRow(table, tops, n, minTS)
    requires forall e :: e in rows <==> e.0 in table && table[e.0] == e.1 && e.0.channel > 0 && e.0.bucket >= minTS
    requires wanted.Keys == tops.Keys && forall c, b :: c in tops ==> (b in wanted[c] <==> InSlots(b, tops[c], n))
    requires Sorted(rows)
    requires forall c :: Listed(result, c) == Kept(rows, wanted, c) && (c in result ==> result[c] != [])
    ensures Correct(result, table, n)
  {
    forall c ensures Ascending(Listed(result, c))
             ensures forall e :: e in Listed(result, c) <==> e in rows && e.0.channel == c && Wanted(wanted, e.0)
    {
      KeptIs(rows, wanted, c);
    }
    forall c | c in tops ensures c in result && NewestSlots(result[c], table, c, tops[c], n) {
      forall e ensures e in Listed(result, c) <==>
                 e.0 in table && table[e.0] == e.1 && e.0.channel == c && InSlots(e.0.bucket, tops[c], n)
      {
        if e.0 in table && e.0.channel == c && InSlots(e.0.bucket, tops[c], n) {
          assert e.0.bucket >= minTS;
        }
      }
      assert tops[c] == tops[c] - 0 * MINUTE;
      assert InSlots(tops[c], tops[c], n);
      assert (Key(c, tops[c]), table[Key(c, tops[c])]) in Listed(result, c);
    }
    forall c | c in result ensures c in tops {
      assert result[c][0] in Listed(result, c);
    }
  }

  // ----- when a row can be lost -----

  lemma {:induction false} RunningAtLeast(ts: seq<int>)
    requires forall t :: t in ts ==> t >= -1
    ensures RunningMin(ts) >= -1
  {
    if ts != [] {
      var before, t := ts[..|ts| - 1], ts[|ts| - 1];
      assert t in ts && forall u :: u in before ==> u in ts;
      RunningAtLeast(before);
    }
  }

  /** The running minimum is the minimum, unless the sentinel occurs and is the smallest threshold. */
  lemma {:induction false} RunningIsMin(ts: seq<int>, low: int)
    requires -1 !in ts || (low in ts && low < -1)
    ensures forall t :: t in ts ==> RunningMin(ts) <= t
    ensures ts != [] ==> RunningMin(ts) in ts
  {
    if ts != [] {
      var before, t := ts[..|ts| - 1], ts[|ts| - 1];
      assert ts == before + [t];
      if -1 !in ts || low in before {
        RunningIsMin(before, low);
      } else if u :| u in before && u < -1 {
        RunningIsMin(before, u);
      } else {
        RunningAtLeast(before);
      }
    }
  }

  /** Visited last but one, the threshold -1 is taken for the start, and the last threshold replaces it. */
  lemma SentinelForgets(rest: seq<int>, last: int)
    requires forall t :: t in rest ==> t >= -1
    ensures RunningMin(rest + [-1] + [last]) == last
  {
    RunningAtLeast(rest);
    RunningSnoc(rest, -1);
    RunningSnoc(rest + [-1], last);
  }

  lemma {:induction false} SomeOrder(channels: set<int>) returns (order: seq<int>)
    ensures OrderOf(order, channels)
  {
    if channels == {} {
      order := [];
    } else {
      Inhabited(channels);
      var c :| c in channels;
      var rest := SomeOrder(channels - {c});
      order := rest + [c];
    }
  }

  /** The sentinel occurs among the thresholds, none is smaller, and a wanted row lies before some threshold. */
  ghost predicate SentinelHides(table: Table, tops: map<int, int>, n: int) {
    && (exists c :: c in tops && Threshold(tops[c], n) == -1)
    && (forall c :: c in tops ==> Threshold(tops[c], n) >= -1)
    && (exists d :: d in tops && LosesRow(table, tops, n, Threshold(tops[d], n)))
  }

  lemma HiddenIsLost(table: Table, tops: map<int, int>, n: int)
    requires SentinelHides(table, tops, n)
    ensures CanLoseRow(table, tops, n)
  {
    var c :| c in tops && Threshold(tops[c], n) == -1;
    var d :| d in tops && LosesRow(table, tops, n, Threshold(tops[d], n));
    var k :| k in table && k.channel in tops && InSlots(k.bucket, tops[k.channel], n) && k.bucket < Threshold(tops[d], n);
    assert k.bucket >= Threshold(tops[k.channel], n) >= -1;
    var order := ForgetfulOrder(tops, n, c, d);
  }

  /** Visiting d last, right behind a channel at the sentinel, leaves the threshold of d. */
  lemma ForgetfulOrder(tops: map<int, int>, n: int, c: int, d: int) returns (order: seq<int>)
    requires c in tops && d in tops && c != d && Threshold(tops[c], n) == -1
    requires forall k :: k in tops ==> Threshold(tops[k], n) >= -1
    ensures OrderOf(order, tops.Keys) && RunningMin(Thresholds(tops, n, order)) == Threshold(tops[d], n)
  {
    var rest := SomeOrder(tops.Keys - {c, d});
    order := rest + [c] + [d];
    assert Thresholds(tops, n, order) == Thresholds(tops, n, rest) + [-1] + [Threshold(tops[d], n)];
    forall t | t in Thresholds(tops, n, rest) ensures t >= -1 {
      var i :| 0 <= i < |rest| && t == Thresholds(tops, n, rest)[i];
      assert rest[i] in rest;
    }
    SentinelForgets(Thresholds(tops, n, rest), Threshold(tops[d], n));
  }

  lemma LostIsHidden(table: Table, tops: map<int, int>, n: int, order: seq<int>)
    requires OrderOf(order, tops.Keys) && LosesRow(table, tops, n, RunningMin(Thresholds(tops, n, order)))
    ensures SentinelHides(table, tops, n)
  {
    var ts := Thresholds(tops, n, order);
    var k :| k in table && k.channel in tops && InSlots(k.bucket, tops[k.channel], n) && k.bucket < RunningMin(ts);
    var low := Threshold(tops[k.channel], n);
    assert k.bucket >= low;
    assert k.channel in order;
    VisitedThresholds(tops, n, order);
    if t :| t in ts && t < -1 {
      RunningIsMin(ts, t);
    } else if -1 !in ts {
      RunningIsMin(ts, low);
    } else {
      RunningIsOne(ts);
    }
  }

  lemma VisitedThresholds(tops: map<int, int>, n: int, order: seq<int>)
    requires OrderOf(order, tops.Keys)
    ensures forall c :: c in tops ==> Threshold(tops[c], n) in Thresholds(tops, n, order)
    ensures forall t :: t in Thresholds(tops, n, order) ==> exists c :: c in tops && t == Threshold(tops[c], n)
  {
    var ts := Thresholds(tops, n, order);
    forall c | c in tops ensures Threshold(tops[c], n) in ts {
      var i :| 0 <= i < |order| && order[i] == c;
      assert ts[i] == Threshold(tops[c], n);
    }
    forall t | t in ts ensures exists c :: c in tops && t == Threshold(tops[c], n) {
      var i :| 0 <= i < |ts| && ts[i] == t;
      assert order[i] in tops;
    }
  }

  lemma {:induction false} RunningIsOne(ts: seq<int>)
    requires ts != []
    ensures RunningMin(ts) in ts
  {
    if |ts| > 1 {
      var before := ts[..|ts| - 1];
      RunningIsOne(before);
      assert forall t :: t in before ==> t in ts;
    }
  }

  /** Exactly then some order of visits loses a wanted row. */
  lemma CanLoseIff(table: Table, tops: map<int, int>, n: int)
    ensures CanLoseRow(table, tops, n) <==> SentinelHides(table, tops, n)
  {
    if order :| OrderOf(order, tops.Keys) && LosesRow(table, tops, n, RunningMin(Thresholds(tops, n, order))) {
      LostIsHidden(table, tops, n, order);
    }
    if SentinelHides(table, tops, n) {
      HiddenIsLost(table, tops, n);
    }
  }

  lemma AlignedCannotLose(table: Table, tops: map<int, int>, n: int)
    requires Aligned(table) && TopsOf(tops, table)
    ensures !CanLoseRow(table, tops, n)
  {
    forall c | c in tops ensures Threshold(tops[c], n) != -1 {
      assert Key(c, tops[c]) in table;
    }
    CanLoseIff(table, tops, n);
  }

  /** On every cache that the minute ticks can fill no order loses a row: a minute never ends at the sentinel. */
  lemma RightOnEveryRun(events: seq<Event>, tops: map<int, int>, n: int)
    requires TopsOf(tops, After(events))
    ensures !CanLoseRow(After(events), tops, n)
  {
    AlwaysAligned(events);
    AlignedCannotLose(After(events), tops, n);
  }

  /** Off the minute grid rows can be lost: newest buckets 239 and 1000, with five slots. */
  lemma SentinelCanCollide()
    ensures var table, tops := map[Key(1, 239) := ZERO, Key(2, 1000) := ZERO], map[1 := 239, 2 := 1000];
            TopsOf(tops, table) && CanLoseRow(table, tops, 5)
  {
    var table, tops := map[Key(1, 239) := ZERO, Key(2, 1000) := ZERO], map[1 := 239, 2 := 1000];
    assert Key(1, 239) in table && Key(2, 1000) in table;
    assert Threshold(tops[1], 5) == -1;
    assert InSlots(239, 239, 5) by {
      assert 239 == 239 - 0 * MINUTE;
    }
    assert LosesRow(table, tops, 5, Threshold(tops[2], 5));
    CanLoseIff(table, tops, 5);
  }
}
