/** The resolver: which recovery check an alert gets, and what the check does to alerts fired in the same tick. */
module AlertResolver {
  import opened Options
  import opened Decimals
  import opened AlertRecovery
  import opened AlertStatus

  datatype History = History(name: string, subjectType: string, subjectID: string, createdAt: int, status: Status)

  datatype Snapshot = Snapshot(rows: seq<Row>, hourly: seq<Hourly>, logs: seq<UserLog>, now: int)

  datatype Kind = ErrorRate | BalanceLow | P95Degraded | UserErrors | Unknown

  /** tier holds the users that the rule's target selects. */
  datatype Rule = Rule(kind: Kind, name: string, threshold: Threshold, tier: set<int>)

  const HOUR := 3600

  predicate OccursAt(s: string, part: string, i: int) {
    0 <= i <= |s| - |part| && s[i..i + |part|] == part
  }

  predicate Contains(s: string, part: string) {
    exists i :: 0 <= i <= |s| - |part| && OccursAt(s, part, i)
  }

  /** The check that an alert's subject type and rule name select; the first match wins. */
  function Dispatch(subjectType: string, name: string): Kind {
    if subjectType == "channel" && Contains(name, "错误率") then ErrorRate
    else if subjectType == "channel" && Contains(name, "余额") then BalanceLow
    else if subjectType == "channel" && Contains(name, "P95") then P95Degraded
    else if subjectType == "user" then UserErrors
    else Unknown
  }

  /** A malformed subject is channel 0. */
  function ChannelOf(subjectID: string): int {
    var n := ReadInt(subjectID);
    if n.Some? then n.value else 0
  }

  function ErrorsOf(logs: seq<UserLog>, subjectID: string, end: int): nat {
    var n := ReadInt(subjectID);
    if n.Some? then Errors(logs, n.value, end) else 0
  }

  /** checkAlertResolved. */
  predicate Recovered(h: History, s: Snapshot) {
    match Dispatch(h.subjectType, h.name)
    case ErrorRate => RateResolved(s.rows, ChannelOf(h.subjectID))
    case BalanceLow => BalanceResolved(s.rows, ChannelOf(h.subjectID))
    case P95Degraded => P95Resolved(s.rows, s.hourly, ChannelOf(h.subjectID))
    case UserErrors => ErrorsOf(s.logs, h.subjectID, s.now) < 3
    case Unknown => h.createdAt < s.now - HOUR
  }

  function AfterCheck(h: History, s: Snapshot): History {
    if h.status.Firing? && Recovered(h, s) then h.(status := Resolved) else h
  }

  class AlertTable {
    var alerts: seq<History>

    /** resolveFiredAlerts: listed are the firing alerts that its query returned. */
    method ResolveFired(listed: seq<nat>, s: Snapshot)
      requires forall k :: 0 <= k < |listed| ==> listed[k] < |alerts| && alerts[listed[k]].status.Firing?
      modifies this
      ensures |alerts| == |old(alerts)|
      ensures forall i :: 0 <= i < |alerts| ==>
                alerts[i] == if i in listed && Recovered(old(alerts)[i], s) then old(alerts)[i].(status := Resolved)
                             else old(alerts)[i]
    {
      var rows, k := alerts, 0;
      while k < |listed|
        invariant 0 <= k <= |listed| && |alerts| == |old(alerts)|
        invariant forall i :: 0 <= i < |alerts| ==>
                    alerts[i] == if i in listed[..k] then AfterCheck(rows[i], s) else rows[i]
      {
        var id := listed[k];
        assert forall i :: i in listed[..k + 1] <==> i in listed[..k] || i == id;
        if Recovered(rows[id], s) {
          alerts := alerts[id := alerts[id].(status := Resolved)];
        }
        k := k + 1;
      }
      assert listed[..k] == listed;
    }
  }

  // ----- an alert in the tick that fired it -----

  function SubjectType(k: Kind): string {
    if k == UserErrors then "user" else "channel"
  }

  ghost predicate Fires(r: Rule, s: Snapshot, id: int) {
    match r.kind
    case ErrorRate => exists row :: row in s.rows && row.channel == id && RateHits(r.threshold)(row)
    case BalanceLow => exists row :: row in s.rows && row.channel == id && BalanceHits(r.threshold)(row)
    case P95Degraded => exists row :: row in s.rows && row.channel == id && P95Hits(s.hourly, r.threshold)(row)
    case UserErrors => UserHits(s.logs, r.tier, r.threshold, s.now, id)
    case Unknown => false
  }

  /** The alert that a rule creates for a subject. */
  function Created(r: Rule, id: int, s: Snapshot): History {
    History(r.name, SubjectType(r.kind), Signed(id), s.now, Firing)
  }

  /** The rule fires at or beyond the level at which the resolver considers things recovered. */
  predicate Safe(r: Rule) {
    match r.kind
    case ErrorRate => SafeRate(r.threshold)
    case BalanceLow => SafeBalance(r.threshold)
    case P95Degraded => r.threshold.value <= 0.0 || r.threshold.value >= 1.5
    case UserErrors => r.threshold.value >= 3.0
    case Unknown => true
  }

  /** The rule's name leads its alerts to the check of the rule's own kind. */
  predicate Selects(r: Rule) {
    Dispatch(SubjectType(r.kind), r.name) == r.kind
  }

  /**
   * On one snapshot, a safe rule whose name selects the matching check creates no alert that the resolver
   * then clears.
   */
  lemma SameTickKept(r: Rule, s: Snapshot, id: int)
    requires Latest(s.rows) && Fires(r, s, id) && Safe(r) && Selects(r)
    ensures AfterCheck(Created(r, id, s), s).status == Firing
  {
    ReadSigned(id);
    match r.kind
    case ErrorRate =>
      var row :| row in s.rows && row.channel == id && RateHits(r.threshold)(row);
      RateKeptIff(r.threshold);
      assert !RateResolved(s.rows, row.channel);
    case BalanceLow =>
      var row :| row in s.rows && row.channel == id && BalanceHits(r.threshold)(row);
      BalanceKeptIff(r.threshold);
      assert !BalanceResolved(s.rows, row.channel);
    case P95Degraded =>
      var row :| row in s.rows && row.channel == id && P95Hits(s.hourly, r.threshold)(row);
      P95Kept(s.rows, s.hourly, r.threshold, row);
    case UserErrors =>
    case Unknown =>
  }

  /** Some snapshot makes the rule fire an alert that the same tick clears. */
  ghost predicate Flaps(r: Rule) {
    exists s: Snapshot, id: int :: Latest(s.rows) && Fires(r, s, id) && AfterCheck(Created(r, id, s), s).status == Resolved
  }

  lemma FlapsFrom(r: Rule, s: Snapshot, id: int)
    requires Latest(s.rows) && Fires(r, s, id) && Recovered(Created(r, id, s), s)
    ensures Flaps(r)
  {
    assert AfterCheck(Created(r, id, s), s).status == Resolved;
  }

  lemma UnsafeFlaps(r: Rule)
    requires r.kind == ErrorRate || r.kind == BalanceLow
    requires Selects(r) && !Safe(r)
    ensures Flaps(r)
  {
    var rows, row;
    if r.kind == ErrorRate {
      RateKeptIff(r.threshold);
      rows, row :| Latest(rows) && row in rows && RateHits(r.threshold)(row) && RateResolved(rows, row.channel);
    } else {
      BalanceKeptIff(r.threshold);
      rows, row :| Latest(rows) && row in rows && BalanceHits(r.threshold)(row) && BalanceResolved(rows, row.channel);
    }
    ReadSigned(row.channel);
    FlapsFrom(r, Snapshot(rows, [], [], 0), row.channel);
  }

  lemma UnsafeP95Flaps(r: Rule)
    requires r.kind == P95Degraded && Selects(r) && !Safe(r)
    ensures Flaps(r)
  {
    P95KeptIff(r.threshold);
    var rows: seq<Row>, hourly: seq<Hourly>, row: Row :|
      Latest(rows) && row in rows && P95Hits(hourly, r.threshold)(row) && P95Resolved(rows, hourly, row.channel);
    ReadSigned(row.channel);
    FlapsFrom(r, Snapshot(rows, hourly, [], 0), row.channel);
  }

  lemma UnsafeUserFlaps(r: Rule)
    requires r.kind == UserErrors && Selects(r) && !Safe(r) && exists u :: u in r.tier
    ensures Flaps(r)
  {
    var user :| user in r.tier;
    var l := UserLog(user, ERROR, 299);
    TwoErrors(user, 300);
    ReadSigned(user);
    FlapsFrom(r, Snapshot([], [], [l, l], 300), user);
  }

  /** For rules whose name selects the matching check, safe thresholds are exactly those that never flap. */
  lemma NeverFlapsIff(r: Rule)
    requires Selects(r) && (r.kind == UserErrors ==> exists u :: u in r.tier)
    ensures !Flaps(r) <==> Safe(r)
  {
    if Safe(r) {
      if Flaps(r) {
        var s: Snapshot, id: int :|
          Latest(s.rows) && Fires(r, s, id) && AfterCheck(Created(r, id, s), s).status == Resolved;
        SameTickKept(r, s, id);
      }
    } else if r.kind == P95Degraded {
      UnsafeP95Flaps(r);
    } else if r.kind == UserErrors {
      UnsafeUserFlaps(r);
    } else {
      UnsafeFlaps(r);
    }
  }

  /** An alert that no check knows recovers once it is over an hour old, and only then. */
  lemma UnknownRecoversIff(h: History, s: Snapshot)
    requires h.subjectType != "user"
    requires h.subjectType != "channel" || !(Contains(h.name, "错误率") || Contains(h.name, "余额") || Contains(h.name, "P95"))
    ensures Recovered(h, s) <==> s.now - h.createdAt > 3600
  {
  }

  /** A channel alert whose subject is not a number is checked against channel 0. */
  lemma MalformedIsZero(h: History, s: Snapshot)
    requires h.subjectType == "channel" && ReadInt(h.subjectID) == None
    ensures Recovered(h, s) <==> Recovered(h.(subjectID := "0"), s)
  {
    assert "0"[..1] == "0";
    assert ReadInt("0") == Some(0);
  }

  /** Nor can a user alert whose subject is not a number find errors: it recovers at once. */
  lemma MalformedUserRecovers(h: History, s: Snapshot)
    requires h.subjectType == "user" && ReadInt(h.subjectID) == None
    ensures Recovered(h, s)
  {
    DifferentTypes();
  }

  /** Which rules their name leads to the right check: the first match wins, and user rules need no name. */
  lemma SelectsIff(r: Rule)
    ensures r.kind == ErrorRate ==> (Selects(r) <==> Contains(r.name, "错误率"))
    ensures r.kind == BalanceLow ==> (Selects(r) <==> Contains(r.name, "余额") && !Contains(r.name, "错误率"))
    ensures r.kind == P95Degraded ==>
              (Selects(r) <==> Contains(r.name, "P95") && !Contains(r.name, "余额") && !Contains(r.name, "错误率"))
    ensures r.kind == UserErrors ==> Selects(r)
  {
    DifferentTypes();
  }

  lemma DifferentTypes()
    ensures "user" != "channel"
  {
    assert "user"[0] == 'u';
  }
}
