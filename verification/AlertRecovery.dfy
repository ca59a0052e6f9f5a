/** Which alerts fire on a snapshot, and which firing alerts the resolver clears on the same snapshot. */
module AlertRecovery {
  import opened Options
  import opened Decimals

  // ----- thresholds -----

  datatype Op = Gt | Lt | Ge | Le | Eq | NoOp

  datatype Threshold = Threshold(op: Op, value: real)

  predicate Hit(t: Threshold, x: real) {
    match t.op
    case Gt => x > t.value
    case Lt => x < t.value
    case Ge => x >= t.value
    case Le => x <= t.value
    case Eq => x == t.value
    case NoOp => false
  }

  /** At every value exactly one of <, = and > hits; the others are unions of these, and > is upward closed. */
  lemma ThresholdLaws(v: real, x: real, y: real)
    ensures Hit(Threshold(Eq, v), x) <==> v == x
    ensures Hit(Threshold(Ge, v), x) <==> Hit(Threshold(Gt, v), x) || Hit(Threshold(Eq, v), x)
    ensures Hit(Threshold(Le, v), x) <==> !Hit(Threshold(Gt, v), x)
    ensures Hit(Threshold(Lt, v), x) <==> !Hit(Threshold(Ge, v), x)
    ensures !Hit(Threshold(Gt, v), v) && Hit(Threshold(Gt, v), v + 1.0) && !Hit(Threshold(NoOp, v), x)
    ensures Hit(Threshold(Gt, v), x) && x <= y ==> Hit(Threshold(Gt, v), y)
    ensures Hit(Threshold(Gt, v), x) <==> Hit(Threshold(Lt, x), v)
  {
  }

  // ----- the snapshot -----

  /** A channel's latest health row. */
  datatype Row = Row(channel: int, requests: int, rate: real, balance: real, p95: int)

  datatype Hourly = Hourly(channel: int, p95: int)

  datatype UserLog = UserLog(user: int, kind: int, createdAt: int)

  const ERROR := 5
  const WINDOW := 300

  /** One row per channel, and error rates that are rates. */
  predicate Latest(rows: seq<Row>) {
    && (forall i, j :: 0 <= i < j < |rows| ==> rows[i].channel != rows[j].channel)
    && (forall r :: r in rows ==> 0.0 <= r.rate <= 1.0)
  }

  function RowOf(rows: seq<Row>, channel: int): Option<Row> {
    if rows == [] then None else if rows[0].channel == channel then Some(rows[0]) else RowOf(rows[1..], channel)
  }

  lemma {:induction false} RowOfMember(rows: seq<Row>, r: Row)
    requires r in rows && forall i, j :: 0 <= i < j < |rows| ==> rows[i].channel != rows[j].channel
    ensures RowOf(rows, r.channel) == Some(r)
  {
    if rows[0] != r {
      assert r in rows[1..];
      var i :| 0 <= i < |rows[1..]| && rows[1..][i] == r;
      assert rows[i + 1] == r;
      RowOfMember(rows[1..], r);
    }
  }

  // ----- firing -----

  /** Fires at every hit that is not suppressed; firing suppresses the channel. */
  method FireEach(rows: seq<Row>, hits: Row -> bool, suppressed: set<int>) returns (fired: seq<int>)
    ensures forall c :: c in fired <==> c !in suppressed && exists r :: r in rows && r.channel == c && hits(r)
    ensures forall i, j :: 0 <= i < j < |fired| ==> fired[i] != fired[j]
  {
    fired := [];
    var quiet := suppressed;
    var i := 0;
    while i < |rows|
      invariant 0 <= i <= |rows|
      invariant forall c :: c in fired <==> c !in suppressed && exists r :: r in rows[..i] && r.channel == c && hits(r)
      invariant forall c :: c in quiet <==> c in suppressed || c in fired
      invariant forall a, b :: 0 <= a < b < |fired| ==> fired[a] != fired[b]
    {
      var r := rows[i];
      assert forall x :: x in rows[..i + 1] <==> x in rows[..i] || x == r;
      if hits(r) && r.channel !in quiet {
        fired := fired + [r.channel];
        quiet := quiet + {r.channel};
      }
      i := i + 1;
    }
    assert rows[..i] == rows;
  }

  function RateHits(t: Threshold): Row -> bool {
    (r: Row) => r.requests != 0 && Hit(t, r.rate)
  }

  function BalanceHits(t: Threshold): Row -> bool {
    (r: Row) => Hit(t, r.balance)
  }

  method EvalErrorRate(rows: seq<Row>, t: Threshold, suppressed: set<int>) returns (fired: seq<int>)
    ensures forall c :: c in fired <==>
              c !in suppressed && exists r :: r in rows && r.channel == c && r.requests != 0 && Hit(t, r.rate)
    ensures forall i, j :: 0 <= i < j < |fired| ==> fired[i] != fired[j]
  {
    fired := FireEach(rows, RateHits(t), suppressed);
  }

  method EvalBalanceLow(rows: seq<Row>, t: Threshold, suppressed: set<int>) returns (fired: seq<int>)
    ensures forall c :: c in fired <==> c !in suppressed && exists r :: r in rows && r.channel == c && Hit(t, r.balance)
    ensures forall i, j :: 0 <= i < j < |fired| ==> fired[i] != fired[j]
  {
    fired := FireEach(rows, BalanceHits(t), suppressed);
  }

  // ----- the latency baseline -----

  predicate Sampled(h: Hourly, channel: int) {
    h.channel == channel && h.p95 > 0
  }

  function SumP95(hourly: seq<Hourly>, channel: int): int {
    if hourly == [] then 0
    else
      var h := hourly[|hourly| - 1];
      SumP95(hourly[..|hourly| - 1], channel) + (if Sampled(h, channel) then h.p95 else 0)
  }

  function Samples(hourly: seq<Hourly>, channel: int): nat {
    if hourly == [] then 0
    else Samples(hourly[..|hourly| - 1], channel) + (if Sampled(hourly[|hourly| - 1], channel) then 1 else 0)
  }

  /** The average of a channel's positive hourly values; 0 without any. */
  function Baseline(hourly: seq<Hourly>, channel: int): real {
    if Samples(hourly, channel) == 0 then 0.0 else SumP95(hourly, channel) as real / Samples(hourly, channel) as real
  }

  /** A channel's positive hourly values. */
  function Positives(hourly: seq<Hourly>, channel: int): seq<int> {
    if hourly == [] then []
    else
      var h := hourly[|hourly| - 1];
      Positives(hourly[..|hourly| - 1], channel) + (if h.channel == channel && h.p95 > 0 then [h.p95] else [])
  }

  function SumOf(xs: seq<int>): int {
    if xs == [] then 0 else SumOf(xs[..|xs| - 1]) + xs[|xs| - 1]
  }

  lemma {:induction false} SamplesArePositives(hourly: seq<Hourly>, channel: int)
    ensures Samples(hourly, channel) == |Positives(hourly, channel)|
    ensures SumP95(hourly, channel) == SumOf(Positives(hourly, channel))
  {
    if hourly != [] {
      var before, h := Positives(hourly[..|hourly| - 1], channel), hourly[|hourly| - 1];
      SamplesArePositives(hourly[..|hourly| - 1], channel);
      assert (before + [h.p95])[..|before|] == before && before + [] == before;
    }
  }

  lemma {:induction false} SumBetween(xs: seq<int>, low: int, high: int)
    requires forall i :: 0 <= i < |xs| ==> low <= xs[i] <= high
    ensures low * |xs| <= SumOf(xs) <= high * |xs|
  {
    if xs != [] {
      SumBetween(xs[..|xs| - 1], low, high);
      assert low * |xs| == low * (|xs| - 1) + low && high * |xs| == high * (|xs| - 1) + high;
    }
  }

  lemma QuotientBetween(low: int, high: int, s: int, n: int)
    requires n > 0 && low * n <= s <= high * n
    ensures low as real <= s as real / n as real <= high as real
  {
    var q, m := s as real / n as real, n as real;
    assert q * m == s as real;
    if q < low as real {
      ScaleLess(q, low as real, m);
    } else if q > high as real {
      ScaleLess(high as real, q, m);
    }
  }

  lemma ScaleLess(x: real, y: real, n: real)
    requires x < y && n > 0.0
    ensures x * n < y * n
  {
  }

  /** The baseline is the sum of the positive values over their number; without any it is 0. */
  lemma BaselineIsAverage(hourly: seq<Hourly>, channel: int)
    ensures var ps := Positives(hourly, channel);
            Baseline(hourly, channel) == if ps == [] then 0.0 else SumOf(ps) as real / |ps| as real
  {
    SamplesArePositives(hourly, channel);
  }

  lemma AverageBetween(ps: seq<int>, low: int, high: int)
    requires ps != [] && forall i :: 0 <= i < |ps| ==> low <= ps[i] <= high
    ensures low as real <= SumOf(ps) as real / |ps| as real <= high as real
  {
    SumBetween(ps, low, high);
    QuotientBetween(low, high, SumOf(ps), |ps|);
  }

  /** So it lies between any bounds of these values. */
  lemma BaselineBetween(hourly: seq<Hourly>, channel: int, low: int, high: int)
    requires Positives(hourly, channel) != []
    requires forall i :: 0 <= i < |Positives(hourly, channel)| ==> low <= Positives(hourly, channel)[i] <= high
    ensures low as real <= Baseline(hourly, channel) <= high as real
  {
    BaselineIsAverage(hourly, channel);
    AverageBetween(Positives(hourly, channel), low, high);
  }

  lemma {:induction false} SumPositive(hourly: seq<Hourly>, channel: int)
    ensures SumP95(hourly, channel) >= Samples(hourly, channel)
  {
    if hourly != [] {
      SumPositive(hourly[..|hourly| - 1], channel);
    }
  }

  lemma BaselinePositive(hourly: seq<Hourly>, channel: int)
    ensures Baseline(hourly, channel) > 0.0 <==> Samples(hourly, channel) > 0
  {
    SumPositive(hourly, channel);
    if Samples(hourly, channel) > 0 {
      var s, n := SumP95(hourly, channel) as real, Samples(hourly, channel) as real;
      assert (s / n) * n == s;
    }
  }

  /** The evaluator's map: sums and counts in one pass, averages in a second one. */
  method Baselines(hourly: seq<Hourly>) returns (baseline: map<int, real>)
    ensures forall c :: c in baseline <==> Samples(hourly, c) > 0
    ensures forall c :: c in baseline ==> baseline[c] == Baseline(hourly, c)
  {
    baseline := map[];
    var counts: map<int, nat> := map[];
    var i := 0;
    while i < |hourly|
      invariant 0 <= i <= |hourly| && baseline.Keys == counts.Keys
      invariant forall c :: c in baseline <==> Samples(hourly[..i], c) > 0
      invariant forall c :: c in baseline ==>
                  baseline[c] == SumP95(hourly[..i], c) as real && counts[c] == Samples(hourly[..i], c)
    {
      var h := hourly[i];
      forall c ensures Samples(hourly[..i + 1], c) == Samples(hourly[..i], c) + (if Sampled(h, c) then 1 else 0)
               ensures SumP95(hourly[..i + 1], c) == SumP95(hourly[..i], c) + (if Sampled(h, c) then h.p95 else 0)
      {
        assert hourly[..i + 1][..i] == hourly[..i];
      }
      if h.p95 > 0 {
        NoSamplesNoSum(hourly[..i], h.channel);
        var before, seen := if h.channel in baseline then baseline[h.channel] else 0.0,
                            if h.channel in counts then counts[h.channel] else 0;
        baseline := baseline[h.channel := before + h.p95 as real];
        counts := counts[h.channel := seen + 1];
      }
      i := i + 1;
    }
    assert hourly[..i] == hourly;
    baseline := map c | c in baseline :: baseline[c] / counts[c] as real;
  }

  lemma {:induction false} NoSamplesNoSum(hourly: seq<Hourly>, channel: int)
    ensures Samples(hourly, channel) == 0 ==> SumP95(hourly, channel) == 0
  {
    if hourly != [] {
      NoSamplesNoSum(hourly[..|hourly| - 1], channel);
    }
  }

  function Multiplier(t: Threshold): real {
    if t.value <= 0.0 then 1.5 else t.value
  }

  function P95Hits(hourly: seq<Hourly>, t: Threshold): Row -> bool {
    (r: Row) => Samples(hourly, r.channel) > 0 && r.p95 as real > Baseline(hourly, r.channel) * Multiplier(t)
  }

  /** Without a positive multiplier the rule means 1.5; its operator plays no part. */
  lemma DefaultMultiplier(hourly: seq<Hourly>, t: Threshold, op: Op, r: Row)
    ensures t.value <= 0.0 ==> (P95Hits(hourly, t)(r) <==> P95Hits(hourly, Threshold(op, 1.5))(r))
    ensures t.value > 0.0 ==> (P95Hits(hourly, t)(r) <==>
              Positives(hourly, r.channel) != [] && r.p95 as real > Baseline(hourly, r.channel) * t.value)
  {
    SamplesArePositives(hourly, r.channel);
  }

  method EvalP95(rows: seq<Row>, hourly: seq<Hourly>, t: Threshold, suppressed: set<int>) returns (fired: seq<int>)
    ensures forall c :: c in fired <==> c !in suppressed && exists r :: r in rows && r.channel == c && P95Hits(hourly, t)(r)
  {
    var mult := t.value;
    if mult <= 0.0 {
      mult := 1.5;
    }
    var baseline := Baselines(hourly);
    var hits := (r: Row) => r.channel in baseline && baseline[r.channel] > 0.0
                            && r.p95 as real > baseline[r.channel] * mult;
    forall r: Row ensures hits(r) == P95Hits(hourly, t)(r) {
      BaselinePositive(hourly, r.channel);
    }
    fired := FireEach(rows, hits, suppressed);
  }

  // ----- user errors -----

  predicate Counted(l: UserLog, user: int, end: int) {
    l.user == user && l.kind == ERROR && end - WINDOW <= l.createdAt < end
  }

  function Errors(logs: seq<UserLog>, user: int, end: int): nat {
    if logs == [] then 0
    else Errors(logs[..|logs| - 1], user, end) + (if Counted(logs[|logs| - 1], user, end) then 1 else 0)
  }

  /** Only an error of the user in the five minutes before end adds to the count. */
  lemma ErrorsSnoc(logs: seq<UserLog>, l: UserLog, user: int, end: int)
    ensures Errors(logs + [l], user, end)
         == Errors(logs, user, end) + (if l.user == user && l.kind == 5 && end - 300 <= l.createdAt < end then 1 else 0)
    ensures Errors([], user, end) == 0
  {
    assert (logs + [l])[..|logs|] == logs;
  }

  /** Conversion to an integer, towards zero. */
  function Trunc(v: real): int {
    if v >= 0.0 then v.Floor else -((-v).Floor)
  }

  /** Users of the tier with at least one error, and at least as many as the truncated threshold. */
  predicate UserHits(logs: seq<UserLog>, tier: set<int>, t: Threshold, end: int, user: int) {
    user in tier && Errors(logs, user, end) >= 1 && Errors(logs, user, end) >= Trunc(t.value)
  }

  /** The grouped error counts of the window. */
  method ErrorCounts(logs: seq<UserLog>, end: int) returns (counts: map<int, nat>)
    ensures forall u :: u in counts <==> Errors(logs, u, end) > 0
    ensures forall u :: u in counts ==> counts[u] == Errors(logs, u, end)
  {
    counts := map[];
    var i := 0;
    while i < |logs|
      invariant 0 <= i <= |logs|
      invariant forall u :: u in counts <==> Errors(logs[..i], u, end) > 0
      invariant forall u :: u in counts ==> counts[u] == Errors(logs[..i], u, end)
    {
      var l := logs[i];
      forall u ensures Errors(logs[..i + 1], u, end) == Errors(logs[..i], u, end) + (if Counted(l, u, end) then 1 else 0) {
        assert logs[..i + 1][..i] == logs[..i];
      }
      if Counted(l, l.user, end) {
        counts := counts[l.user := if l.user in counts then counts[l.user] + 1 else 1];
      }
      i := i + 1;
    }
    assert logs[..i] == logs;
  }

  method EvalUserErrors(logs: seq<UserLog>, tier: set<int>, t: Threshold, end: int, suppressed: set<int>)
    returns (fired: set<int>)
    ensures forall u :: u in fired <==>
              u !in suppressed && u in tier && Errors(logs, u, end) >= 1 && Errors(logs, u, end) >= Trunc(t.value)
  {
    var counts := ErrorCounts(logs, end);
    fired := set u | u in counts && counts[u] >= Trunc(t.value) && u in tier && u !in suppressed;
  }

  // ----- resolving -----

  function RateResolved(rows: seq<Row>, channel: int): bool {
    var r := RowOf(rows, channel);
    r.None? || r.value.rate < 0.20
  }

  function BalanceResolved(rows: seq<Row>, channel: int): bool {
    var r := RowOf(rows, channel);
    r.None? || r.value.balance >= 5.0
  }

  function P95Resolved(rows: seq<Row>, hourly: seq<Hourly>, channel: int): bool {
    var r := RowOf(rows, channel);
    r.None? || Baseline(hourly, channel) <= 0.0 || r.value.p95 as real <= Baseline(hourly, channel) * 1.5
  }

  /** A channel that is gone has recovered in every respect. */
  lemma GoneIsResolved(rows: seq<Row>, hourly: seq<Hourly>, channel: int)
    requires forall i :: 0 <= i < |rows| ==> rows[i].channel != channel
    ensures RateResolved(rows, channel) && BalanceResolved(rows, channel) && P95Resolved(rows, hourly, channel)
  {
    NoRow(rows, channel);
  }

  lemma {:induction false} NoRow(rows: seq<Row>, channel: int)
    requires forall i :: 0 <= i < |rows| ==> rows[i].channel != channel
    ensures RowOf(rows, channel) == None
  {
    if rows != [] {
      NoRow(rows[1..], channel);
    }
  }

  function UserResolved(logs: seq<UserLog>, user: int, end: int): bool {
    Errors(logs, user, end) < 3
  }

  /** The resolver's own baseline, by filtering the hourly rows for one channel. */
  method FilteredBaseline(hourly: seq<Hourly>, channel: int) returns (base: real)
    ensures base == Baseline(hourly, channel)
  {
    base := 0.0;
    var count, i := 0, 0;
    while i < |hourly|
      invariant 0 <= i <= |hourly| && count == Samples(hourly[..i], channel) && base == SumP95(hourly[..i], channel) as real
    {
      assert hourly[..i + 1][..i] == hourly[..i];
      if hourly[i].channel == channel && hourly[i].p95 > 0 {
        base := base + hourly[i].p95 as real;
        count := count + 1;
      }
      i := i + 1;
    }
    assert hourly[..i] == hourly;
    NoSamplesNoSum(hourly, channel);
    if count > 0 {
      base := base / count as real;
    }
  }

  method FindRow(rows: seq<Row>, channel: int) returns (r: Option<Row>)
    ensures r == RowOf(rows, channel)
  {
    var i := 0;
    while i < |rows|
      invariant 0 <= i <= |rows| && RowOf(rows, channel) == RowOf(rows[i..], channel)
    {
      if rows[i].channel == channel {
        return Some(rows[i]);
      }
      assert rows[i..][1..] == rows[i + 1..];
      i := i + 1;
    }
    r := None;
  }

  method CheckP95Resolved(rows: seq<Row>, hourly: seq<Hourly>, channel: int) returns (yes: bool)
    ensures yes == P95Resolved(rows, hourly, channel)
    ensures (forall i :: 0 <= i < |rows| ==> rows[i].channel != channel) ==> yes
    ensures Positives(hourly, channel) == [] ==> yes
  {
    SamplesArePositives(hourly, channel);
    if forall i :: 0 <= i < |rows| ==> rows[i].channel != channel {
      NoRow(rows, channel);
    }
    var base := FilteredBaseline(hourly, channel);
    var r := FindRow(rows, channel);
    yes := r.None? || base <= 0.0 || r.value.p95 as real <= base * 1.5;
  }

  // ----- which thresholds keep what they fire -----

  predicate SafeRate(t: Threshold) {
    match t.op
    case Gt => t.value >= 0.20
    case Ge => t.value >= 0.20
    case Lt => t.value <= 0.0
    case Le => t.value < 0.0
    case Eq => t.value >= 0.20 || t.value < 0.0
    case NoOp => true
  }

  predicate SafeBalance(t: Threshold) {
    match t.op
    case Gt => false
    case Ge => false
    case Lt => t.value <= 5.0
    case Le => t.value < 5.0
    case Eq => t.value < 5.0
    case NoOp => true
  }

  /** An error-rate hit that would be cleared at once. */
  ghost predicate RateFlaps(t: Threshold) {
    exists rows: seq<Row>, r: Row :: Latest(rows) && r in rows && RateHits(t)(r) && RateResolved(rows, r.channel)
  }

  function LowRate(t: Threshold): real {
    match t.op
    case Gt => if t.value < 0.0 then 0.0 else (t.value + 0.20) / 2.0
    case Lt => 0.0
    case Ge => if t.value < 0.0 then 0.0 else t.value
    case Le => 0.0
    case Eq => t.value
    case NoOp => 0.0
  }

  /** What an error-rate rule fires stays firing on the same snapshot exactly for the safe thresholds. */
  lemma RateKeptIff(t: Threshold)
    ensures !RateFlaps(t) <==> SafeRate(t)
  {
    if !SafeRate(t) {
      var r := Row(1, 1, LowRate(t), 0.0, 0);
      var rows := [r];
      assert r in rows && RowOf(rows, 1) == Some(r);
      assert RateHits(t)(r);
      assert forall x :: x in rows ==> x == r;
      assert Latest(rows);
    }
    if RateFlaps(t) {
      var rows: seq<Row>, r: Row :| Latest(rows) && r in rows && RateHits(t)(r) && RateResolved(rows, r.channel);
      RowOfMember(rows, r);
    }
  }

  ghost predicate BalanceFlaps(t: Threshold) {
    exists rows: seq<Row>, r: Row :: Latest(rows) && r in rows && BalanceHits(t)(r) && BalanceResolved(rows, r.channel)
  }

  function HighBalance(t: Threshold): real {
    match t.op
    case Gt => if t.value < 5.0 then 5.0 else t.value + 1.0
    case Lt => 5.0
    case Ge => if t.value < 5.0 then 5.0 else t.value
    case Le => 5.0
    case Eq => t.value
    case NoOp => 0.0
  }

  /** The same for balance rules. */
  lemma BalanceKeptIff(t: Threshold)
    ensures !BalanceFlaps(t) <==> SafeBalance(t)
  {
    if !SafeBalance(t) {
      var r := Row(1, 1, 0.0, HighBalance(t), 0);
      var rows := [r];
      assert r in rows && RowOf(rows, 1) == Some(r);
      assert BalanceHits(t)(r);
      assert forall x :: x in rows ==> x == r;
      assert Latest(rows);
    }
    if BalanceFlaps(t) {
      var rows: seq<Row>, r: Row :| Latest(rows) && r in rows && BalanceHits(t)(r) && BalanceResolved(rows, r.channel);
      RowOfMember(rows, r);
    }
  }

  ghost predicate P95Flaps(t: Threshold) {
    exists rows: seq<Row>, hourly: seq<Hourly>, r: Row ::
      Latest(rows) && r in rows && P95Hits(hourly, t)(r) && P95Resolved(rows, hourly, r.channel)
  }

  lemma ScaleUp(base: real, low: real, high: real)
    requires base > 0.0 && low <= high
    ensures base * low <= base * high
  {
  }

  lemma P95Kept(rows: seq<Row>, hourly: seq<Hourly>, t: Threshold, r: Row)
    requires Latest(rows) && r in rows && P95Hits(hourly, t)(r) && Multiplier(t) >= 1.5
    ensures !P95Resolved(rows, hourly, r.channel)
  {
    RowOfMember(rows, r);
    BaselinePositive(hourly, r.channel);
    ScaleUp(Baseline(hourly, r.channel), 1.5, Multiplier(t));
  }

  /** The same for latency rules: the multiplier, 1.5 when none is given, must be at least 1.5. */
  lemma P95KeptIff(t: Threshold)
    ensures !P95Flaps(t) <==> t.value <= 0.0 || t.value >= 1.5
  {
    if Multiplier(t) < 1.5 {
      var r := Row(1, 1, 0.0, 0.0, 3);
      var rows, hourly := [r], [Hourly(1, 2)];
      assert r in rows && RowOf(rows, 1) == Some(r);
      assert hourly[..0] == [];
      assert Samples(hourly, 1) == 1 && SumP95(hourly, 1) == 2;
      assert Baseline(hourly, 1) == 2.0;
      assert P95Hits(hourly, t)(r) && P95Resolved(rows, hourly, 1);
      assert forall x :: x in rows ==> x == r;
      assert Latest(rows);
    }
    if P95Flaps(t) {
      var rows: seq<Row>, hourly: seq<Hourly>, r: Row :|
        Latest(rows) && r in rows && P95Hits(hourly, t)(r) && P95Resolved(rows, hourly, r.channel);
      if Multiplier(t) >= 1.5 {
        P95Kept(rows, hourly, t, r);
      }
    }
  }

  ghost predicate UserFlaps(t: Threshold) {
    exists logs: seq<UserLog>, tier: set<int>, end: int, user: int ::
      UserHits(logs, tier, t, end, user) && UserResolved(logs, user, end)
  }

  lemma TwoErrors(user: int, end: int)
    ensures Errors([UserLog(user, ERROR, end - 1), UserLog(user, ERROR, end - 1)], user, end) == 2
  {
    var l := UserLog(user, ERROR, end - 1);
    assert [l][..0] == [];
    assert Errors([l], user, end) == 1;
    assert [l, l][..1] == [l];
  }

  /** The same for user rules, whatever their operator: the threshold must be at least 3. */
  lemma UserKeptIff(t: Threshold)
    ensures !UserFlaps(t) <==> t.value >= 3.0
  {
    if t.value < 3.0 {
      var l := UserLog(7, ERROR, 299);
      TwoErrors(7, 300);
      assert UserHits([l, l], {7}, t, 300, 7) && UserResolved([l, l], 7, 300);
    }
  }
}
