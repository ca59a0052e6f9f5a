/**
 The realtime hub: registered clients, an index from topics to clients, and bounded send buffers.
 Registration, removal and broadcast are handled one at a time by the hub's loop; connecting,
 draining and direct sends come from other goroutines and interleave with them freely.
 */
module Hub {
  import opened Options

  type ClientId = nat
  type Topic = string

  datatype HubState = HubState(
    clients: set<ClientId>,
    byTopic: map<Topic, set<ClientId>>,
    nextId: ClientId,
    topics: map<ClientId, set<Topic>>,     // fixed before the client is handed to the hub
    pending: set<ClientId>,                // sent to the register channel, not yet handled
    closed: set<ClientId>,
    closes: map<ClientId, nat>,            // how often close(c.send) ran
    buffers: map<ClientId, seq<string>>,
    panicked: bool)                        // a send hit a closed channel

  datatype Event =
    | Connect(subscriptions: set<Topic>)
    | Register(c: ClientId)
    | Unregister(c: ClientId)
    | Broadcast(msg: string)
    | Drain(c: ClientId)
    | Send(c: ClientId, msg: string)       // the second half of sendRaw: its closed test lies behind

  function IndexAdd(index: map<Topic, set<ClientId>>, ts: set<Topic>, c: ClientId): map<Topic, set<ClientId>> {
    map t | t in index.Keys + ts :: (if t in index then index[t] else {}) + (if t in ts then {c} else {})
  }

  function IndexRemove(index: map<Topic, set<ClientId>>, ts: set<Topic>, c: ClientId): map<Topic, set<ClientId>> {
    map t | t in index && (t in ts ==> index[t] - {c} != {}) :: if t in ts then index[t] - {c} else index[t]
  }

  function Put(room: nat, buffer: seq<string>, msg: string): seq<string> {
    if |buffer| < room then buffer + [msg] else buffer
  }

  function PutAll(room: nat, buffers: map<ClientId, seq<string>>, to: set<ClientId>, msg: string): map<ClientId, seq<string>> {
    map c | c in buffers :: if c in to then Put(room, buffers[c], msg) else buffers[c]
  }

  /** room: capacity of a send channel.  Events that cannot happen leave the state as it is. */
  function Step(room: nat, s: HubState, e: Event): HubState {
    match e
    case Connect(subs) =>
      var c := s.nextId + 1;
      if c in s.topics then s else
      s.(nextId := c, topics := s.topics[c := subs], pending := s.pending + {c},
         buffers := s.buffers[c := []], closes := s.closes[c := 0])
    case Register(c) =>
      if c !in s.pending || c !in s.topics then s else
      s.(pending := s.pending - {c}, clients := s.clients + {c}, byTopic := IndexAdd(s.byTopic, s.topics[c], c))
    case Unregister(c) =>
      if c !in s.clients || c !in s.topics then s else
      CloseOnce(s.(clients := s.clients - {c}, byTopic := IndexRemove(s.byTopic, s.topics[c], c)), c)
    case Broadcast(msg) =>
      s.(panicked := s.panicked || s.clients * s.closed != {}, buffers := PutAll(room, s.buffers, s.clients - s.closed, msg))
    case Drain(c) =>
      if c !in s.buffers || s.buffers[c] == [] then s else s.(buffers := s.buffers[c := s.buffers[c][1..]])
    case Send(c, msg) =>
      if c !in s.buffers then s
      else if c in s.closed then s.(panicked := true)
      else s.(buffers := s.buffers[c := Put(room, s.buffers[c], msg)])
  }

  function CloseOnce(s: HubState, c: ClientId): HubState {
    if c in s.closed then s
    else s.(closed := s.closed + {c}, closes := s.closes[c := (if c in s.closes then s.closes[c] else 0) + 1])
  }

  function After(room: nat, s: HubState, es: seq<Event>): HubState {
    if es == [] then s else Step(room, After(room, s, es[..|es| - 1]), es[|es| - 1])
  }

  function Empty(): HubState {
    HubState({}, map[], 0, map[], {}, {}, map[], map[], false)
  }

  // ----- the index -----

  ghost predicate Indexed(s: HubState) {
    && (forall t, c :: (t in s.byTopic && c in s.byTopic[t]) <==>
                       (c in s.clients && c in s.topics && t in s.topics[c]))
    && (forall t :: t in s.byTopic ==> s.byTopic[t] != {})
  }

  ghost predicate Lifecycle(s: HubState) {
    && s.clients + s.pending + s.closed <= s.topics.Keys
    && s.topics.Keys == s.buffers.Keys == s.closes.Keys
    && s.pending !! s.clients && s.pending !! s.closed && s.clients !! s.closed
    && (forall c :: c in s.topics ==> c <= s.nextId)
    && (forall c :: c in s.closes ==> s.closes[c] == if c in s.closed then 1 else 0)
  }

  ghost predicate HubInv(s: HubState) {
    Indexed(s) && Lifecycle(s)
  }

  lemma IndexNoTopics(index: map<Topic, set<ClientId>>, c: ClientId)
    ensures IndexAdd(index, {}, c) == index == IndexRemove(index, {}, c)
  {
    assert IndexAdd(index, {}, c).Keys == index.Keys == IndexRemove(index, {}, c).Keys;
    assert forall t :: t in index ==> index[t] + {} == index[t];
  }

  lemma IndexAddTopic(index: map<Topic, set<ClientId>>, ts: set<Topic>, t: Topic, c: ClientId)
    requires t !in ts
    ensures var before := IndexAdd(index, ts, c);
            IndexAdd(index, ts + {t}, c) == before[t := (if t in before then before[t] else {}) + {c}]
  {
    var before, after := IndexAdd(index, ts, c), IndexAdd(index, ts + {t}, c);
    var updated := before[t := (if t in before then before[t] else {}) + {c}];
    assert after.Keys == before.Keys + {t} == updated.Keys;
    assert after[t] == updated[t];
    assert forall u :: u in before && u != t ==> after[u] == updated[u];
  }

  lemma IndexRemoveTopic(index: map<Topic, set<ClientId>>, ts: set<Topic>, t: Topic, c: ClientId)
    requires t !in ts
    ensures var before := IndexRemove(index, ts, c);
            IndexRemove(index, ts + {t}, c)
              == if t !in before then before
                 else if before[t] - {c} == {} then before - {t} else before[t := before[t] - {c}]
  {
    var before, after := IndexRemove(index, ts, c), IndexRemove(index, ts + {t}, c);
    assert forall u :: u in after <==> u in before && (u == t ==> index[t] - {c} != {});
  }

  lemma IndexAddKeeps(s: HubState, c: ClientId)
    requires HubInv(s) && c in s.pending
    ensures Indexed(s.(clients := s.clients + {c}, byTopic := IndexAdd(s.byTopic, s.topics[c], c)))
  {
    var index := IndexAdd(s.byTopic, s.topics[c], c);
    forall t | t in index ensures index[t] != {} {
      assert t in s.topics[c] ==> c in index[t];
    }
  }

  lemma IndexRemoveKeeps(s: HubState, c: ClientId)
    requires HubInv(s) && c in s.clients
    ensures Indexed(s.(clients := s.clients - {c}, byTopic := IndexRemove(s.byTopic, s.topics[c], c)))
  {
  }

  predicate Traffic(e: Event) {
    e.Broadcast? || e.Drain? || e.Send?
  }

  lemma LifecycleByTraffic(room: nat, s: HubState, e: Event)
    requires Lifecycle(s) && Traffic(e)
    ensures Lifecycle(Step(room, s, e))
  {
  }

  lemma LifecycleByHub(room: nat, s: HubState, e: Event)
    requires Lifecycle(s) && !Traffic(e)
    ensures Lifecycle(Step(room, s, e))
  {
  }

  lemma LifecycleStep(room: nat, s: HubState, e: Event)
    requires Lifecycle(s)
    ensures Lifecycle(Step(room, s, e))
  {
    if Traffic(e) {
      LifecycleByTraffic(room, s, e);
    } else {
      LifecycleByHub(room, s, e);
    }
  }

  lemma OnlySendPanics(room: nat, s: HubState, e: Event)
    requires s.clients !! s.closed && !e.Send?
    ensures Step(room, s, e).panicked == s.panicked
  {
  }

  lemma IndexedStep(room: nat, s: HubState, e: Event)
    requires HubInv(s)
    ensures Indexed(Step(room, s, e))
  {
    if e.Register? && e.c in s.pending {
      IndexAddKeeps(s, e.c);
    } else if e.Unregister? && e.c in s.clients {
      IndexRemoveKeeps(s, e.c);
    } else if e.Connect? {
      assert s.nextId + 1 !in s.topics;
    }
  }

  lemma HubInvStep(room: nat, s: HubState, e: Event)
    requires HubInv(s)
    ensures HubInv(Step(room, s, e))
  {
    IndexedStep(room, s, e);
    LifecycleStep(room, s, e);
  }

  lemma {:induction false} HubInvRun(room: nat, s: HubState, es: seq<Event>)
    requires HubInv(s)
    ensures HubInv(After(room, s, es))
  {
    if es != [] {
      HubInvRun(room, s, es[..|es| - 1]);
      HubInvStep(room, After(room, s, es[..|es| - 1]), es[|es| - 1]);
    }
  }

  /** After any run: the index is exact, no topic is empty, no registered client is closed, nobody is closed twice. */
  lemma HubConsistent(room: nat, es: seq<Event>)
    ensures var s := After(room, Empty(), es);
            && (forall t, c :: (t in s.byTopic && c in s.byTopic[t]) <==>
                               (c in s.clients && c in s.topics && t in s.topics[c]))
            && (forall t :: t in s.byTopic ==> s.byTopic[t] != {})
            && s.clients !! s.closed
            && (forall c :: c in s.closes ==> s.closes[c] <= 1)
  {
    HubInvRun(room, Empty(), es);
  }

  function Subscribers(s: HubState, t: Topic): set<ClientId> {
    if t in s.byTopic then s.byTopic[t] else {}
  }

  lemma FanOut(s: HubState, t: Topic)
    requires Indexed(s)
    ensures Subscribers(s, t) == set c | c in s.clients && c in s.topics && t in s.topics[c]
  {
  }

  /** Fan-out over the index reaches exactly the registered clients that subscribed to the topic. */
  lemma IndexedFanOut(room: nat, es: seq<Event>, t: Topic)
    ensures var s := After(room, Empty(), es);
            Subscribers(s, t) == set c | c in s.clients && c in s.topics && t in s.topics[c]
  {
    HubInvRun(room, Empty(), es);
    FanOut(After(room, Empty(), es), t);
  }

  // ----- what the buffers hold -----

  function BufferOf(s: HubState, c: ClientId): seq<string> {
    if c in s.buffers then s.buffers[c] else []
  }

  /** The message that the event puts into the client's open channel, if there is room. */
  function Accepts(room: nat, s: HubState, e: Event, c: ClientId): seq<string> {
    if c !in s.buffers || c in s.closed || |s.buffers[c]| >= room then []
    else if e.Broadcast? && c in s.clients then [e.msg]
    else if e.Send? && e.c == c then [e.msg]
    else []
  }

  /** The message that the client's writer takes out. */
  function Takes(s: HubState, e: Event, c: ClientId): seq<string> {
    if e == Drain(c) && c in s.buffers && s.buffers[c] != [] then [s.buffers[c][0]] else []
  }

  lemma BufferStep(room: nat, s: HubState, e: Event, c: ClientId)
    requires Lifecycle(s)
    ensures Takes(s, e, c) + BufferOf(Step(room, s, e), c) == BufferOf(s, c) + Accepts(room, s, e, c)
  {
  }

  function Accepted(room: nat, s: HubState, es: seq<Event>, c: ClientId): seq<string> {
    if es == [] then []
    else
      var n := |es| - 1;
      Accepted(room, s, es[..n], c) + Accepts(room, After(room, s, es[..n]), es[n], c)
  }

  function Written(room: nat, s: HubState, es: seq<Event>, c: ClientId): seq<string> {
    if es == [] then []
    else
      var n := |es| - 1;
      Written(room, s, es[..n], c) + Takes(After(room, s, es[..n]), es[n], c)
  }

  lemma Requeue(written: seq<string>, takes: seq<string>, before: seq<string>, after: seq<string>,
                accepted: seq<string>, accepts: seq<string>)
    requires written + before == accepted && takes + after == before + accepts
    ensures (written + takes) + after == accepted + accepts
  {
    assert written + (takes + after) == (written + before) + accepts;
  }

  /**
   Over any run and any interleaving: what the client's writer took out, followed by what is still buffered, is the
   sequence of the messages accepted for the client, in order, and the buffer never exceeds its room.
   */
  lemma {:induction false} DeliveredInOrder(room: nat, es: seq<Event>, c: ClientId)
    ensures Written(room, Empty(), es, c) + BufferOf(After(room, Empty(), es), c) == Accepted(room, Empty(), es, c)
    ensures |BufferOf(After(room, Empty(), es), c)| <= room
  {
    if es != [] {
      var n := |es| - 1;
      var s := After(room, Empty(), es[..n]);
      DeliveredInOrder(room, es[..n], c);
      HubInvRun(room, Empty(), es[..n]);
      BufferStep(room, s, es[n], c);
      Requeue(Written(room, Empty(), es[..n], c), Takes(s, es[n], c), BufferOf(s, c), BufferOf(Step(room, s, es[n]), c),
              Accepted(room, Empty(), es[..n], c), Accepts(room, s, es[n], c));
      RoomKept(room, s, es[n], c);
    }
  }

  lemma RoomKept(room: nat, s: HubState, e: Event, c: ClientId)
    requires |BufferOf(s, c)| <= room
    ensures |BufferOf(Step(room, s, e), c)| <= room
  {
  }

  // ----- sends on closed channels -----

  /** Whatever happened before, the broadcast branch of the hub's loop never sends on a closed channel. */
  lemma BroadcastNeverPanics(room: nat, es: seq<Event>, msg: string)
    ensures var s := After(room, Empty(), es);
            Step(room, s, Broadcast(msg)).panicked == s.panicked
  {
    HubInvRun(room, Empty(), es);
    OnlySendPanics(room, After(room, Empty(), es), Broadcast(msg));
  }

  /** Some unregister of c was handled while c was registered. */
  ghost predicate Removed(room: nat, s: HubState, es: seq<Event>, c: ClientId) {
    exists i :: 0 <= i < |es| && es[i] == Unregister(c) && c in After(room, s, es[..i]).clients
  }

  lemma RemovedSnoc(room: nat, s: HubState, es: seq<Event>, e: Event, c: ClientId)
    ensures Removed(room, s, es + [e], c)
       <==> Removed(room, s, es, c) || (e == Unregister(c) && c in After(room, s, es).clients)
  {
    var all := es + [e];
    assert forall i :: 0 <= i < |es| ==> all[i] == es[i] && all[..i] == es[..i];
    assert all[|es|] == e && all[..|es|] == es;
  }

  lemma ClosedByStep(room: nat, s: HubState, e: Event, c: ClientId)
    requires Lifecycle(s)
    ensures c in Step(room, s, e).closed <==> c in s.closed || (e == Unregister(c) && c in s.clients)
  {
  }

  lemma {:induction false} ClosedIffRemoved(room: nat, s: HubState, es: seq<Event>, c: ClientId)
    requires HubInv(s) && c !in s.closed
    ensures c in After(room, s, es).closed <==> Removed(room, s, es, c)
  {
    if es != [] {
      var n := |es| - 1;
      ClosedIffRemoved(room, s, es[..n], c);
      HubInvRun(room, s, es[..n]);
      assert es == es[..n] + [es[n]];
      RemovedSnoc(room, s, es[..n], es[n], c);
      ClosedByStep(room, After(room, s, es[..n]), es[n], c);
    }
  }

  /**
   sendRaw tests closed, unlocks and then sends.  The send hits a closed channel exactly when the
   hub removed the client while it was registered, between the test and the send.
   */
  lemma DirectSendPanicsIff(room: nat, s: HubState, es: seq<Event>, c: ClientId, msg: string)
    requires HubInv(s) && c in s.topics && c !in s.closed && !After(room, s, es).panicked
    ensures Step(room, After(room, s, es), Send(c, msg)).panicked <==> Removed(room, s, es, c)
  {
    ClosedIffRemoved(room, s, es, c);
    KnownStays(room, s, es, c);
    HubInvRun(room, s, es);
  }

  lemma KnownStep(room: nat, s: HubState, e: Event, c: ClientId)
    requires c in s.topics
    ensures c in Step(room, s, e).topics
  {
  }

  lemma {:induction false} KnownStays(room: nat, s: HubState, es: seq<Event>, c: ClientId)
    requires c in s.topics
    ensures c in After(room, s, es).topics
  {
    if es != [] {
      KnownStays(room, s, es[..|es| - 1], c);
      KnownStep(room, After(room, s, es[..|es| - 1]), es[|es| - 1], c);
    }
  }

  /** Such an interleaving exists, so the test in sendRaw does not make the send safe. */
  lemma DirectSendCanPanic(room: nat)
    ensures var s := After(room, Empty(), [Connect({"global"}), Register(1)]);
            && 1 !in s.closed && !s.panicked
            && Step(room, Step(room, s, Unregister(1)), Send(1, "tick")).panicked
  {
    var es := [Connect({"global"}), Register(1)];
    assert es[..1] == [Connect({"global"})] && es[..1][..0] == [];
    assert After(room, Empty(), es[..1]) == Step(room, Empty(), Connect({"global"}));
  }

  lemma ClientStep(room: nat, s: HubState, e: Event, c: ClientId)
    requires c in s.clients && e != Unregister(c)
    ensures c in Step(room, s, e).clients
  {
  }

  /** An unregister that overtakes its register is lost: the client stays until another one comes. */
  lemma {:induction false} OvertakenUnregister(room: nat, s: HubState, es: seq<Event>, c: ClientId)
    requires HubInv(s) && c in s.pending
    requires forall i :: 0 <= i < |es| ==> es[i] != Unregister(c)
    ensures c in After(room, Step(room, Step(room, s, Unregister(c)), Register(c)), es).clients
  {
    var t := Step(room, Step(room, s, Unregister(c)), Register(c));
    if es != [] {
      OvertakenUnregister(room, s, es[..|es| - 1], c);
      ClientStep(room, After(room, t, es[..|es| - 1]), es[|es| - 1], c);
    }
  }

  // ----- the hub as an object -----

  class HubObject {
    const room: nat
    var clients: set<ClientId>
    var byTopic: map<Topic, set<ClientId>>
    var nextId: ClientId
    var topics: map<ClientId, set<Topic>>
    var pending: set<ClientId>
    var closed: set<ClientId>
    var closes: map<ClientId, nat>
    var buffers: map<ClientId, seq<string>>
    var panicked: bool

    function State(): HubState
      reads this
    {
      HubState(clients, byTopic, nextId, topics, pending, closed, closes, buffers, panicked)
    }

    constructor (room: nat)
      ensures State() == Empty() && this.room == room
    {
      this.room := room;
      clients, byTopic, nextId, topics, pending := {}, map[], 0, map[], {};
      closed, closes, buffers, panicked := {}, map[], map[], false;
    }

    /** serveTopic: a fresh id, the subscriptions, then one send to the register channel. */
    method ServeTopic(subs: set<Topic>) returns (c: ClientId)
      requires forall c :: c in topics ==> c <= nextId
      modifies this
      ensures State() == Step(room, old(State()), Connect(subs))
      ensures c !in old(topics) && c in topics && topics[c] == subs && c in pending
    {
      nextId := nextId + 1;
      c := nextId;
      topics := topics[c := subs];
      buffers := buffers[c := []];
      closes := closes[c := 0];
      pending := pending + {c};
    }

    method AddToTopics(subs: set<Topic>, c: ClientId)
      modifies this`byTopic
      ensures byTopic == IndexAdd(old(byTopic), subs, c)
    {
      var todo := subs;
      ghost var done := {};
      IndexNoTopics(byTopic, c);
      while todo != {}
        invariant todo !! done && todo + done == subs
        invariant byTopic == IndexAdd(old(byTopic), done, c)
        decreases todo
      {
        var t :| t in todo;
        IndexAddTopic(old(byTopic), done, t, c);
        done := done + {t};
        todo := todo - {t};
        if t !in byTopic {
          byTopic := byTopic[t := {}];
        }
        byTopic := byTopic[t := byTopic[t] + {c}];
      }
      assert done == subs;
    }

    method RemoveFromTopics(subs: set<Topic>, c: ClientId)
      modifies this`byTopic
      ensures byTopic == IndexRemove(old(byTopic), subs, c)
    {
      var todo := subs;
      ghost var done := {};
      IndexNoTopics(byTopic, c);
      while todo != {}
        invariant todo !! done && todo + done == subs
        invariant byTopic == IndexRemove(old(byTopic), done, c)
        decreases todo
      {
        var t :| t in todo;
        IndexRemoveTopic(old(byTopic), done, t, c);
        done := done + {t};
        todo := todo - {t};
        if t in byTopic {
          byTopic := byTopic[t := byTopic[t] - {c}];
          if byTopic[t] == {} {
            byTopic := byTopic - {t};
          }
        }
      }
      assert done == subs;
    }

    method HandleRegister(c: ClientId)
      requires c in pending && c in topics
      modifies this
      ensures State() == Step(room, old(State()), Register(c))
      ensures clients == old(clients) + {c} && pending == old(pending) - {c}
      ensures forall t, d :: (t in byTopic && d in byTopic[t]) <==>
                             ((t in old(byTopic) && d in old(byTopic)[t]) || (d == c && t in topics[c]))
    {
      pending := pending - {c};
      clients := clients + {c};
      AddToTopics(topics[c], c);
    }

    method CloseSend(c: ClientId)
      modifies this`closed, this`closes
      ensures State() == CloseOnce(old(State()), c)
    {
      if c in closed {
        return;
      }
      closed := closed + {c};
      closes := closes[c := (if c in closes then closes[c] else 0) + 1];
    }

    method HandleUnregister(c: ClientId)
      requires clients <= topics.Keys
      modifies this
      ensures State() == Step(room, old(State()), Unregister(c))
      ensures c !in old(clients) ==> State() == old(State())
      ensures c in old(clients) ==> clients == old(clients) - {c} && closed == old(closed) + {c}
    {
      if c in clients {
        clients := clients - {c};
        RemoveFromTopics(topics[c], c);
        CloseSend(c);
      }
    }

    /** The broadcast branch, under the read lock: every buffer it writes to is open. */
    method HandleBroadcast(msg: string) returns (slow: set<ClientId>)
      requires clients !! closed && clients <= buffers.Keys
      modifies this`buffers
      ensures State() == Step(room, old(State()), Broadcast(msg))
      ensures slow == set c | c in clients && |old(buffers)[c]| >= room
      ensures buffers.Keys == old(buffers).Keys
      ensures forall c :: c in clients && |old(buffers)[c]| < room ==> buffers[c] == old(buffers)[c] + [msg]
      ensures forall c :: c in buffers && (c !in clients || |old(buffers)[c]| >= room) ==> buffers[c] == old(buffers)[c]
    {
      slow := {};
      var todo := clients;
      while todo != {}
        invariant todo <= clients
        invariant buffers == PutAll(room, old(buffers), clients - todo, msg)
        invariant slow == set c | c in clients - todo && |old(buffers)[c]| >= room
        decreases todo
      {
        var c :| c in todo;
        assert c !in closed;
        if |buffers[c]| < room {
          buffers := buffers[c := buffers[c] + [msg]];
        } else {
          slow := slow + {c};
        }
        todo := todo - {c};
      }
      assert clients * closed == {} && clients - closed == clients;
    }

    /** The second half of sendRaw, behind its test; slow asks for the client's removal. */
    method SendNow(c: ClientId, msg: string) returns (slow: bool)
      requires c in buffers
      modifies this`buffers, this`panicked
      ensures State() == Step(room, old(State()), Send(c, msg))
      ensures panicked <==> old(panicked) || c in closed
      ensures slow <==> c !in closed && |old(buffers)[c]| >= room
      ensures buffers == if c !in closed && !slow then old(buffers)[c := old(buffers)[c] + [msg]] else old(buffers)
    {
      slow := false;
      if c in closed {
        panicked := true;
      } else if |buffers[c]| < room {
        buffers := buffers[c := buffers[c] + [msg]];
      } else {
        slow := true;
        assert buffers == buffers[c := buffers[c]];
      }
    }

    /** sendRaw without anything in between: a closed client is left alone, and nothing panics. */
    method SendRaw(c: ClientId, msg: string) returns (slow: bool)
      requires c in buffers
      modifies this`buffers, this`panicked
      ensures panicked == old(panicked)
      ensures slow <==> c !in closed && |old(buffers)[c]| >= room
      ensures buffers == if c !in closed && !slow then old(buffers)[c := old(buffers)[c] + [msg]] else old(buffers)
    {
      if c in closed {
        return false;
      }
      slow := SendNow(c, msg);
    }

    /** writePump: the oldest message leaves the channel. */
    method TakeNext(c: ClientId) returns (msg: Option<string>)
      requires c in buffers
      modifies this`buffers
      ensures State() == Step(room, old(State()), Drain(c))
      ensures old(buffers)[c] == [] ==> msg == None && buffers == old(buffers)
      ensures old(buffers)[c] != [] ==>
                msg.Some? && [msg.value] + buffers[c] == old(buffers)[c] && buffers == old(buffers)[c := buffers[c]]
    {
      if buffers[c] == [] {
        return None;
      }
      msg := Some(buffers[c][0]);
      buffers := buffers[c := buffers[c][1..]];
    }

    /** BroadcastTick's snapshot of a topic's clients: each subscriber once. */
    method TopicClients(t: Topic) returns (list: seq<ClientId>)
      requires HubInv(State())
      ensures forall c :: c in list <==> c in clients && t in topics[c]
      ensures forall i, j :: 0 <= i < j < |list| ==> list[i] != list[j]
    {
      list := [];
      var todo := if t in byTopic then byTopic[t] else {};
      ghost var subs := todo;
      while todo != {}
        invariant todo <= subs
        invariant forall c :: c in list <==> c in subs - todo
        invariant forall i, j :: 0 <= i < j < |list| ==> list[i] != list[j]
        decreases todo
      {
        var c :| c in todo;
        assert c !in list;
        list := list + [c];
        todo := todo - {c};
      }
    }
  }
}
