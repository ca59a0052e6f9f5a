/** Suppression of repeated alerts, by keys that expire or by looking at the stored alerts. */
module AlertSuppression {
  import opened AlertStatus

  const HOUR := 3600

  /** A rule and the duration that its condition names, in seconds; 0 when it names none. */
  datatype Rule = Rule(id: int, duration: int)

  /** duration is the one that the alert's rule named when it fired. */
  datatype Alert = Alert(rule: int, subject: string, at: int, duration: int, status: Status)

  /** The quiet time: the duration, at least an hour. */
  function Span(duration: int): int {
    if duration < HOUR then HOUR else duration
  }

  type Subject = (int, string)

  function SubjectOf(a: Alert): Subject {
    (a.rule, a.subject)
  }

  /**
   * keys maps a suppressed subject to the second at which its key expires; acks holds, for each acknowledging
   * request that has read its alert and found it unresolved, the alert that it is about to update.
   */
  datatype State = State(keys: map<Subject, int>, alerts: seq<Alert>, acks: map<nat, nat>)

  const EMPTY := State(map[], [], map[])

  datatype Event =
    | Consider(at: int, rule: Rule, subject: string)
    | ReadAck(request: nat, id: nat)
    | WriteAck(request: nat)
    | Resolve(id: nat)

  predicate Recent(a: Alert, r: Rule, subject: string, at: int) {
    SubjectOf(a) == (r.id, subject) && Active(a.status) && a.at >= at - Span(r.duration)
  }

  predicate Suppressed(redis: bool, s: State, r: Rule, subject: string, at: int) {
    if redis then (r.id, subject) in s.keys && at < s.keys[(r.id, subject)]
    else exists a :: a in s.alerts && Recent(a, r, subject, at)
  }

  /** Every still active alert of the subject is older than the rule's duration, and older than an hour. */
  ghost predicate AllQuiet(alerts: seq<Alert>, r: Rule, subject: string, at: int) {
    forall a :: a in alerts && a.rule == r.id && a.subject == subject && a.status in {Firing, Acknowledged, Escalated} ==>
      at - a.at > r.duration && at - a.at > 3600
  }

  /** The update of one row's status, whatever it was; an absent row is left alone. */
  function Updated(alerts: seq<Alert>, id: nat, status: Status): seq<Alert> {
    if id < |alerts| then alerts[id := alerts[id].(status := status)] else alerts
  }

  function Step(redis: bool, s: State, e: Event): State {
    match e
    case Consider(at, r, subject) =>
      if Suppressed(redis, s, r, subject, at) then s
      else s.(keys := if redis then s.keys[(r.id, subject) := at + Span(r.duration)] else s.keys,
              alerts := s.alerts + [Alert(r.id, subject, at, r.duration, Firing)])
    case ReadAck(request, id) =>
      if id < |s.alerts| && s.alerts[id].status != Resolved then s.(acks := s.acks[request := id])
      else s.(acks := s.acks - {request})
    case WriteAck(request) =>
      if request in s.acks
      then s.(alerts := Updated(s.alerts, s.acks[request], Acknowledged), acks := s.acks - {request})
      else s
    case Resolve(id) => s.(alerts := Updated(s.alerts, id, Resolved))
  }

  function After(redis: bool, events: seq<Event>): State {
    if events == [] then EMPTY else Step(redis, After(redis, events[..|events| - 1]), events[|events| - 1])
  }

  datatype Answer = Done | NotFound | AlreadyResolved

  class AlertStore {
    const redis: bool
    var keys: map<Subject, int>
    var alerts: seq<Alert>
    var acks: map<nat, nat>

    constructor (redis: bool)
      ensures this.redis == redis && Now() == EMPTY
    {
      this.redis := redis;
      keys, alerts, acks := map[], [], map[];
    }

    function Now(): State
      reads this
    {
      State(keys, alerts, acks)
    }

    method ShouldSuppress(r: Rule, subject: string, at: int) returns (yes: bool)
      ensures yes == Suppressed(redis, Now(), r, subject, at)
      ensures redis ==> (yes <==> (r.id, subject) in keys && at < keys[(r.id, subject)])
      ensures !redis ==> (yes <==> !AllQuiet(alerts, r, subject, at))
    {
      if redis {
        return (r.id, subject) in keys && at < keys[(r.id, subject)];
      }
      var dur := r.duration;
      if dur < HOUR {
        dur := HOUR;
      }
      var since, n, i := at - dur, 0, 0;
      while i < |alerts|
        invariant 0 <= i <= |alerts| && n >= 0
        invariant n > 0 <==> exists a :: a in alerts[..i] && Recent(a, r, subject, at)
      {
        assert forall a :: a in alerts[..i + 1] <==> a in alerts[..i] || a == alerts[i];
        assert alerts[i] in alerts[..i + 1];
        assert forall a :: a in alerts[..i] && Recent(a, r, subject, at) ==> a in alerts[..i + 1];
        if (alerts[i].rule, alerts[i].subject) == (r.id, subject) && Active(alerts[i].status) && alerts[i].at >= since {
          n := n + 1;
        }
        i := i + 1;
      }
      assert alerts[..i] == alerts;
      yes := n > 0;
    }

    method MarkSuppressed(r: Rule, subject: string, at: int)
      modifies this
      ensures alerts == old(alerts) && acks == old(acks)
      ensures keys == if redis then old(keys)[(r.id, subject) := at + (if r.duration < 3600 then 3600 else r.duration)]
                      else old(keys)
    {
      if redis {
        keys := keys[(r.id, subject) := at + Span(r.duration)];
      }
    }

    method FireAlert(r: Rule, subject: string, at: int)
      modifies this
      ensures keys == old(keys) && acks == old(acks) && alerts == old(alerts) + [Alert(r.id, subject, at, r.duration, Firing)]
    {
      alerts := alerts + [Alert(r.id, subject, at, r.duration, Firing)];
    }

    /** One hit in an evaluation loop. */
    method Hit(r: Rule, subject: string, at: int)
      modifies this
      ensures Now() == Step(redis, old(Now()), Consider(at, r, subject))
      ensures !redis ==>
                alerts == if AllQuiet(old(alerts), r, subject, at) then old(alerts) + [Alert(r.id, subject, at, r.duration, Firing)]
                          else old(alerts)
    {
      var yes := ShouldSuppress(r, subject, at);
      if !yes {
        FireAlert(r, subject, at);
        MarkSuppressed(r, subject, at);
      }
    }

    /** The table update: any status, whatever the row's status is. */
    method UpdateStatus(id: nat, status: Status)
      modifies this
      ensures keys == old(keys) && acks == old(acks) && alerts == Updated(old(alerts), id, status)
      ensures |alerts| == |old(alerts)|
      ensures forall i :: 0 <= i < |alerts| ==>
                alerts[i] == if i == id then old(alerts)[i].(status := status) else old(alerts)[i]
    {
      if id < |alerts| {
        alerts := alerts[id := alerts[id].(status := status)];
      }
    }

    /** The first half of the acknowledging handler: it refuses an absent and a resolved alert. */
    method ReadForAck(request: nat, id: nat) returns (answer: Answer)
      modifies this
      ensures Now() == Step(redis, old(Now()), ReadAck(request, id))
      ensures answer == if id >= |alerts| then NotFound else if alerts[id].status == Resolved then AlreadyResolved else Done
      ensures alerts == old(alerts) && acks == if answer.Done? then old(acks)[request := id] else old(acks) - {request}
    {
      acks := acks - {request};
      if id >= |alerts| {
        return NotFound;
      }
      if alerts[id].status == Resolved {
        return AlreadyResolved;
      }
      acks := acks[request := id];
      return Done;
    }

    /** The second half, which does not look at the status again. */
    method FinishAck(request: nat)
      requires request in acks
      modifies this
      ensures Now() == Step(redis, old(Now()), WriteAck(request))
      ensures acks == old(acks) - {request} && alerts == Updated(old(alerts), old(acks)[request], Acknowledged)
    {
      UpdateStatus(acks[request], Acknowledged);
      acks := acks - {request};
    }

    /** ackAlert without anything in between. */
    method Acknowledge(request: nat, id: nat) returns (answer: Answer)
      modifies this
      ensures Now() == Step(redis, Step(redis, old(Now()), ReadAck(request, id)), WriteAck(request))
      ensures answer.Done? <==> id < |old(alerts)| && old(alerts)[id].status != Resolved
      ensures alerts == if answer.Done? then Updated(old(alerts), id, Acknowledged) else old(alerts)
    {
      answer := ReadForAck(request, id);
      if answer.Done? {
        FinishAck(request);
      }
    }

    /** resolveAlert, and the resolver's update: resolved whatever the status was. */
    method ResolveAlert(id: nat) returns (answer: Answer)
      modifies this
      ensures Now() == Step(redis, old(Now()), Resolve(id))
      ensures answer == if id < |old(alerts)| then Done else NotFound
    {
      if id >= |alerts| {
        return NotFound;
      }
      UpdateStatus(id, Resolved);
      return Done;
    }
  }

  // ----- spacing with expiring keys -----

  /** By then an alert's own duration is over, and so is an hour. */
  predicate QuietOver(a: Alert, at: int) {
    at - a.at >= a.duration && at - a.at >= 3600
  }

  predicate Spaced(alerts: seq<Alert>) {
    forall i, j :: 0 <= i < j < |alerts| && SubjectOf(alerts[i]) == SubjectOf(alerts[j]) ==> QuietOver(alerts[i], alerts[j].at)
  }

  /** Each alert's quiet time is covered by its subject's key. */
  predicate Covered(s: State) {
    forall a :: a in s.alerts ==> SubjectOf(a) in s.keys && a.at + Span(a.duration) <= s.keys[SubjectOf(a)]
  }

  lemma UpdateCovered(s: State, t: State, id: nat, status: Status)
    requires Spaced(s.alerts) && Covered(s) && t.keys == s.keys && t.alerts == Updated(s.alerts, id, status)
    ensures Spaced(t.alerts) && Covered(t)
  {
    forall a | a in t.alerts ensures SubjectOf(a) in t.keys && a.at + Span(a.duration) <= t.keys[SubjectOf(a)] {
      var i :| 0 <= i < |t.alerts| && t.alerts[i] == a;
      assert s.alerts[i] in s.alerts;
    }
  }

  lemma RedisStep(s: State, e: Event)
    requires Spaced(s.alerts) && Covered(s)
    ensures Spaced(Step(true, s, e).alerts) && Covered(Step(true, s, e))
  {
    var t := Step(true, s, e);
    if e.Consider? {
      if !Suppressed(true, s, e.rule, e.subject, e.at) {
        FiredCovered(s, e);
      }
    } else if e.WriteAck? && e.request in s.acks {
      UpdateCovered(s, t, s.acks[e.request], Acknowledged);
    } else if e.Resolve? {
      UpdateCovered(s, t, e.id, Resolved);
    }
  }

  lemma FiredCovered(s: State, e: Event)
    requires Spaced(s.alerts) && Covered(s) && e.Consider? && !Suppressed(true, s, e.rule, e.subject, e.at)
    ensures Spaced(Step(true, s, e).alerts) && Covered(Step(true, s, e))
  {
    var t := Step(true, s, e);
    forall i, j | 0 <= i < j < |t.alerts| && SubjectOf(t.alerts[i]) == SubjectOf(t.alerts[j])
      ensures QuietOver(t.alerts[i], t.alerts[j].at)
    {
      assert s.alerts[i] in s.alerts;
    }
  }

  /** With the expiring keys, two alerts of one rule and subject are never closer than the quiet time of the first. */
  lemma {:induction false} RedisSpacing(events: seq<Event>)
    ensures Spaced(After(true, events).alerts) && Covered(After(true, events))
  {
    if events != [] {
      RedisSpacing(events[..|events| - 1]);
      RedisStep(After(true, events[..|events| - 1]), events[|events| - 1]);
    }
  }

  /** Hence at least an hour, over any run. */
  lemma AnHourApart(events: seq<Event>, i: nat, j: nat)
    requires i < j < |After(true, events).alerts|
    requires SubjectOf(After(true, events).alerts[i]) == SubjectOf(After(true, events).alerts[j])
    ensures After(true, events).alerts[j].at - After(true, events).alerts[i].at >= HOUR
  {
    RedisSpacing(events);
  }

  /** Each key expires when the quiet time of one of its subject's alerts is over. */
  ghost predicate Attained(s: State) {
    forall k :: k in s.keys ==> exists i :: 0 <= i < |s.alerts| && Expires(s, i, k)
  }

  ghost predicate Expires(s: State, i: nat, k: Subject)
    requires i < |s.alerts| && k in s.keys
  {
    SubjectOf(s.alerts[i]) == k && s.keys[k] == s.alerts[i].at + Span(s.alerts[i].duration)
  }

  lemma AttainedStep(s: State, e: Event)
    requires Attained(s)
    ensures Attained(Step(true, s, e))
  {
    var t := Step(true, s, e);
    forall k | k in t.keys ensures exists i :: 0 <= i < |t.alerts| && Expires(t, i, k) {
      if k in s.keys && t.keys[k] == s.keys[k] {
        var i :| 0 <= i < |s.alerts| && Expires(s, i, k);
        assert Expires(t, i, k);
      } else {
        assert Expires(t, |s.alerts|, k);
      }
    }
  }

  lemma {:induction false} KeysAttained(events: seq<Event>)
    ensures Attained(After(true, events))
  {
    if events != [] {
      KeysAttained(events[..|events| - 1]);
      AttainedStep(After(true, events[..|events| - 1]), events[|events| - 1]);
    }
  }

  /**
   * With the keys, on every run: a hit creates an alert exactly when the quiet time of every earlier alert of its
   * subject is over, whatever became of these alerts.
   */
  lemma KeyedFiresIff(events: seq<Event>, r: Rule, subject: string, at: int)
    ensures var s := After(true, events);
            Step(true, s, Consider(at, r, subject)).alerts
            == if forall a :: a in s.alerts && a.rule == r.id && a.subject == subject ==>
                 at - a.at >= a.duration && at - a.at >= 3600
               then s.alerts + [Alert(r.id, subject, at, r.duration, Firing)] else s.alerts
  {
    var s, k := After(true, events), (r.id, subject);
    RedisSpacing(events);
    KeysAttained(events);
    if k in s.keys && at < s.keys[k] {
      var i :| 0 <= i < |s.alerts| && Expires(s, i, k);
      assert s.alerts[i] in s.alerts;
    }
  }

  // ----- spacing from the stored alerts -----

  predicate Keeps(earlier: Alert, later: Alert) {
    SubjectOf(earlier) == SubjectOf(later) && Active(earlier.status) ==>
      later.at - earlier.at > later.duration && later.at - earlier.at > 3600
  }

  /** An alert that is still active keeps later ones of its subject beyond their quiet time. */
  predicate ActiveSpaced(alerts: seq<Alert>) {
    forall i, j :: 0 <= i < j < |alerts| ==> Keeps(alerts[i], alerts[j])
  }

  predicate Follows(earlier: Alert, later: Alert) {
    SubjectOf(earlier) == SubjectOf(later) && (later.at - earlier.at <= later.duration || later.at - earlier.at <= 3600)
  }

  /** A later alert of the same subject came within its quiet time. */
  predicate Followed(alerts: seq<Alert>, id: nat)
    requires id < |alerts|
  {
    exists j :: id < j < |alerts| && Follows(alerts[id], alerts[j])
  }

  /** The update makes an alert active again that was not, although another one followed it closely. */
  predicate Crowds(alerts: seq<Alert>, id: nat, status: Status) {
    id < |alerts| && Active(status) && !Active(alerts[id].status) && Followed(alerts, id)
  }

  /** The raw update keeps the spacing exactly unless it crowds. */
  lemma UpdateKeepsIff(alerts: seq<Alert>, id: nat, status: Status)
    requires ActiveSpaced(alerts)
    ensures ActiveSpaced(Updated(alerts, id, status)) <==> !Crowds(alerts, id, status)
  {
    if id < |alerts| {
      var more := Updated(alerts, id, status);
      if Crowds(alerts, id, status) {
        var j :| id < j < |alerts| && Follows(alerts[id], alerts[j]);
        assert !Keeps(more[id], more[j]);
      } else {
        forall i, j | 0 <= i < j < |more| ensures Keeps(more[i], more[j]) {
          assert Keeps(alerts[i], alerts[j]);
          assert i == id && Active(status) && !Active(alerts[id].status) ==> !Follows(alerts[id], alerts[j]);
        }
      }
    }
  }

  /**
   * Without the keys, in every state: a hit creates an alert exactly when every still active alert of its subject is
   * older than the rule's duration and older than an hour.
   */
  lemma StoredFiresIff(s: State, r: Rule, subject: string, at: int)
    ensures Step(false, s, Consider(at, r, subject)).alerts
         == if AllQuiet(s.alerts, r, subject, at) then s.alerts + [Alert(r.id, subject, at, r.duration, Firing)] else s.alerts
  {
    if a :| a in s.alerts && Recent(a, r, subject, at) {
      assert a.rule == r.id && a.subject == subject;
    }
    if a :| a in s.alerts && a.rule == r.id && a.subject == subject && a.status in {Firing, Acknowledged, Escalated}
            && !(at - a.at > r.duration && at - a.at > 3600) {
      assert Recent(a, r, subject, at);
    }
  }

  lemma FiredKeeps(s: State, e: Event)
    requires ActiveSpaced(s.alerts) && e.Consider?
    ensures ActiveSpaced(Step(false, s, e).alerts)
  {
    var t := Step(false, s, e);
    forall i, j | 0 <= i < j < |t.alerts| ensures Keeps(t.alerts[i], t.alerts[j]) {
      if j == |s.alerts| {
        assert s.alerts[i] in s.alerts;
        assert !Recent(s.alerts[i], e.rule, e.subject, e.at);
      } else {
        assert Keeps(s.alerts[i], s.alerts[j]);
      }
    }
  }

  /** The event is the late update of an alert that was resolved, and closely followed, since its request read it. */
  predicate LateAck(s: State, e: Event) {
    e.WriteAck? && e.request in s.acks && Crowds(s.alerts, s.acks[e.request], Acknowledged)
  }

  /** Of all events only such a late update breaks the spacing. */
  lemma StoredStepIff(s: State, e: Event)
    requires ActiveSpaced(s.alerts)
    ensures ActiveSpaced(Step(false, s, e).alerts) <==> !LateAck(s, e)
  {
    if e.Consider? {
      FiredKeeps(s, e);
    } else if e.WriteAck? && e.request in s.acks {
      UpdateKeepsIff(s.alerts, s.acks[e.request], Acknowledged);
    } else if e.Resolve? {
      UpdateKeepsIff(s.alerts, e.id, Resolved);
    }
  }

  /** The spacing held all along the run. */
  predicate AlwaysSpaced(events: seq<Event>) {
    events == [] || (AlwaysSpaced(events[..|events| - 1]) && ActiveSpaced(After(false, events).alerts))
  }

  predicate NoLateAck(events: seq<Event>) {
    events == []
    || (NoLateAck(events[..|events| - 1]) && !LateAck(After(false, events[..|events| - 1]), events[|events| - 1]))
  }

  /**
   * Without the keys, on every run: an alert that is still firing, acknowledged or escalated is followed by no other
   * of its subject within the quiet time, exactly as long as no late update occurs.
   */
  lemma {:induction false} StoredSpacingIff(events: seq<Event>)
    ensures AlwaysSpaced(events) <==> NoLateAck(events)
    ensures AlwaysSpaced(events) ==> ActiveSpaced(After(false, events).alerts)
  {
    if events != [] {
      var before := events[..|events| - 1];
      StoredSpacingIff(before);
      if AlwaysSpaced(before) {
        StoredStepIff(After(false, before), events[|events| - 1]);
      }
    }
  }

  // ----- handlers that are not interrupted -----

  /** Every acknowledging update directly follows its request's read. */
  predicate Uninterrupted(events: seq<Event>) {
    events == []
    || var n := |events| - 1;
       && Uninterrupted(events[..n])
       && (events[n].WriteAck? ==> n > 0 && events[n - 1].ReadAck? && events[n - 1].request == events[n].request)
  }

  /** The program writes no other status than these. */
  predicate Known(alerts: seq<Alert>) {
    forall a :: a in alerts ==> a.status.Firing? || a.status.Acknowledged? || a.status.Resolved?
  }

  lemma {:induction false} StatusesKnown(redis: bool, events: seq<Event>)
    ensures Known(After(redis, events).alerts)
  {
    if events != [] {
      var s, e := After(redis, events[..|events| - 1]), events[|events| - 1];
      StatusesKnown(redis, events[..|events| - 1]);
      var t := Step(redis, s, e);
      forall a | a in t.alerts ensures a.status.Firing? || a.status.Acknowledged? || a.status.Resolved? {
        var i :| 0 <= i < |t.alerts| && t.alerts[i] == a;
        if i < |s.alerts| {
          assert s.alerts[i] in s.alerts;
        }
      }
    }
  }

  lemma FreshReadNotLate(s: State, request: nat, id: nat)
    requires Known(s.alerts)
    ensures !LateAck(Step(false, s, ReadAck(request, id)), WriteAck(request))
  {
    if id < |s.alerts| {
      assert s.alerts[id] in s.alerts;
    }
  }

  /** The handler's own test rules late updates out when nothing comes between its read and its update. */
  lemma {:induction false} UninterruptedNotLate(events: seq<Event>)
    requires Uninterrupted(events)
    ensures NoLateAck(events)
  {
    if events != [] {
      var n := |events| - 1;
      UninterruptedNotLate(events[..n]);
      if events[n].WriteAck? {
        var before := events[..n];
        assert before[..|before| - 1] == events[..n - 1];
        StatusesKnown(false, events[..n - 1]);
        FreshReadNotLate(After(false, events[..n - 1]), events[n].request, events[n - 1].id);
      }
    }
  }

  /** So the stored alerts alone keep the spacing on every run of uninterrupted handlers. */
  lemma StoredSpacing(events: seq<Event>)
    requires Uninterrupted(events)
    ensures ActiveSpaced(After(false, events).alerts)
  {
    UninterruptedNotLate(events);
    StoredSpacingIff(events);
  }

  // ----- an interrupted handler -----

  /** A request reads an alert, which is resolved and followed by another before the request updates it. */
  function Race(r: Rule, subject: string, at: int, later: int): seq<Event> {
    [Consider(at, r, subject), ReadAck(0, 0), Resolve(0), Consider(later, r, subject)] + [WriteAck(0)]
  }

  lemma FourSteps(e1: Event, e2: Event, e3: Event, e4: Event)
    ensures After(false, [e1, e2, e3, e4])
         == Step(false, Step(false, Step(false, Step(false, EMPTY, e1), e2), e3), e4)
  {
    assert [e1, e2, e3, e4] == ([] + [e1] + [e2] + [e3]) + [e4];
    AfterSnoc([], e1);
    AfterSnoc([] + [e1], e2);
    AfterSnoc([] + [e1] + [e2], e3);
    AfterSnoc([] + [e1] + [e2] + [e3], e4);
  }

  lemma AfterSnoc(events: seq<Event>, e: Event)
    ensures After(false, events + [e]) == Step(false, After(false, events), e)
  {
    assert (events + [e])[..|events|] == events;
  }

  lemma TwoFired(r: Rule, subject: string, at: int, later: int)
    ensures After(false, [Consider(at, r, subject), ReadAck(0, 0), Resolve(0), Consider(later, r, subject)])
         == State(map[], [Alert(r.id, subject, at, r.duration, Resolved), Alert(r.id, subject, later, r.duration, Firing)],
                  map[0 := 0])
  {
    FourSteps(Consider(at, r, subject), ReadAck(0, 0), Resolve(0), Consider(later, r, subject));
    var first := Alert(r.id, subject, at, r.duration, Firing);
    assert Step(false, EMPTY, Consider(at, r, subject)) == State(map[], [first], map[]);
    assert Step(false, State(map[], [first], map[]), ReadAck(0, 0)) == State(map[], [first], map[0 := 0]);
    var resolved := first.(status := Resolved);
    assert Step(false, State(map[], [first], map[0 := 0]), Resolve(0)) == State(map[], [resolved], map[0 := 0]);
    assert !Suppressed(false, State(map[], [resolved], map[0 := 0]), r, subject, later);
  }

  /** For every rule, subject and distance within the quiet time the race leaves two active alerts that close. */
  lemma RaceBreaksSpacing(r: Rule, subject: string, at: int, later: int)
    requires at <= later && (later - at <= r.duration || later - at <= 3600)
    ensures !NoLateAck(Race(r, subject, at, later)) && !ActiveSpaced(After(false, Race(r, subject, at, later)).alerts)
  {
    var four := [Consider(at, r, subject), ReadAck(0, 0), Resolve(0), Consider(later, r, subject)];
    TwoFired(r, subject, at, later);
    AfterSnoc(four, WriteAck(0));
    var alerts := After(false, four).alerts;
    assert Follows(alerts[0], alerts[1]);
    assert LateAck(After(false, four), WriteAck(0));
    assert Race(r, subject, at, later)[..4] == four;
    var after := After(false, Race(r, subject, at, later)).alerts;
    assert !Keeps(after[0], after[1]);
  }
}
