/**
 The in-process limiter behind the WebSocket server: open connections per address and messages per
 address and minute, with lazy garbage collection of both tables.  Times are nanoseconds.
 */
module Limiter {
  const MINUTE: int := 60 * 1_000_000_000

  datatype Limits = Limits(maxConn: nat, maxMsg: nat)

  datatype Tables = Tables(ipConn: map<string, int>, ipConnSet: map<string, int>,
                           msgPerMin: map<string, int>, msgResetAt: map<string, int>)

  function Get(m: map<string, int>, k: string): int {
    if k in m then m[k] else 0
  }

  predicate StaleConn(s: Tables, ip: string, now: int) {
    ip in s.ipConnSet && now - s.ipConnSet[ip] > 2 * MINUTE
  }

  predicate StaleMsg(s: Tables, k: string, now: int) {
    k in s.msgResetAt && now > s.msgResetAt[k] + 2 * MINUTE
  }

  function Collected(s: Tables, now: int): Tables {
    Tables(map ip | ip in s.ipConn && !StaleConn(s, ip, now) :: s.ipConn[ip],
           map ip | ip in s.ipConnSet && !StaleConn(s, ip, now) :: s.ipConnSet[ip],
           map k | k in s.msgPerMin && !StaleMsg(s, k, now) :: s.msgPerMin[k],
           map k | k in s.msgResetAt && !StaleMsg(s, k, now) :: s.msgResetAt[k])
  }

  /** An entry survives collection exactly for two minutes after its stamp, or after the end of its window. */
  lemma CollectedIff(s: Tables, now: int, k: string)
    ensures k in Collected(s, now).ipConn <==> k in s.ipConn && (k in s.ipConnSet ==> now - s.ipConnSet[k] <= 120_000_000_000)
    ensures k in Collected(s, now).ipConnSet <==> k in s.ipConnSet && now - s.ipConnSet[k] <= 120_000_000_000
    ensures k in Collected(s, now).msgPerMin <==> k in s.msgPerMin && (k in s.msgResetAt ==> now - s.msgResetAt[k] <= 120_000_000_000)
    ensures k in Collected(s, now).msgResetAt <==> k in s.msgResetAt && now - s.msgResetAt[k] <= 120_000_000_000
    ensures k in Collected(s, now).ipConn ==> Collected(s, now).ipConn[k] == s.ipConn[k]
    ensures k in Collected(s, now).ipConnSet ==> Collected(s, now).ipConnSet[k] == s.ipConnSet[k]
    ensures k in Collected(s, now).msgPerMin ==> Collected(s, now).msgPerMin[k] == s.msgPerMin[k]
    ensures k in Collected(s, now).msgResetAt ==> Collected(s, now).msgResetAt[k] == s.msgResetAt[k]
  {
  }

  datatype Call = Conn(ip: string, now: int) | Drop(ip: string, now: int) | Msg(ip: string, now: int)

  function MsgKey(ip: string): string {
    "m:" + ip
  }

  function Answer(l: Limits, s: Tables, c: Call): bool {
    match c
    case Conn(ip, now) => Get(Collected(s, now).ipConn, ip) < l.maxConn
    case Drop(_, _) => true
    case Msg(ip, now) => Get(Opened(s, ip, now).msgPerMin, MsgKey(ip)) + 1 <= l.maxMsg
  }

  /** A message after the end of its window opens a new one. */
  function Opened(s: Tables, ip: string, now: int): Tables {
    var k := MsgKey(ip);
    if k !in s.msgResetAt || now > s.msgResetAt[k]
    then s.(msgPerMin := s.msgPerMin[k := 0], msgResetAt := s.msgResetAt[k := now + MINUTE])
    else s
  }

  function Apply(l: Limits, s: Tables, c: Call): Tables {
    match c
    case Conn(ip, now) =>
      var g := Collected(s, now);
      if Answer(l, s, c)
      then g.(ipConn := g.ipConn[ip := Get(g.ipConn, ip) + 1], ipConnSet := g.ipConnSet[ip := now])
      else g
    case Drop(ip, _) =>
      var n := Get(s.ipConn, ip) - 1;
      if n <= 0
      then s.(ipConn := s.ipConn - {ip}, ipConnSet := s.ipConnSet - {ip})
      else s.(ipConn := s.ipConn[ip := n])
    case Msg(ip, now) =>
      var o := Opened(s, ip, now);
      o.(msgPerMin := o.msgPerMin[MsgKey(ip) := Get(o.msgPerMin, MsgKey(ip)) + 1])
  }

  /** The limiter with its four maps, changed under one mutex. */
  class RateLimiter {
    const limits: Limits
    var ipConn: map<string, int>
    var ipConnSet: map<string, int>
    var msgPerMin: map<string, int>
    var msgResetAt: map<string, int>

    function State(): Tables
      reads this
    {
      Tables(ipConn, ipConnSet, msgPerMin, msgResetAt)
    }

    constructor (limits: Limits)
      ensures this.limits == limits && State() == Tables(map[], map[], map[], map[])
    {
      this.limits := limits;
      ipConn, ipConnSet, msgPerMin, msgResetAt := map[], map[], map[], map[];
    }

    method CollectConns(now: int)
      modifies this`ipConn, this`ipConnSet
      ensures ipConn == Collected(old(State()), now).ipConn
      ensures ipConnSet == Collected(old(State()), now).ipConnSet
    {
      ghost var s := State();
      var ips := ipConnSet.Keys;
      while ips != {}
        invariant ips <= ipConnSet.Keys <= s.ipConnSet.Keys
        invariant forall ip :: ip in s.ipConnSet ==> (ip in ipConnSet <==> ip in ips || !StaleConn(s, ip, now))
        invariant forall ip :: ip in ipConn <==> ip in s.ipConn && (ip in ips || !StaleConn(s, ip, now))
        invariant forall ip :: ip in ipConnSet ==> ipConnSet[ip] == s.ipConnSet[ip]
        invariant forall ip :: ip in ipConn ==> ipConn[ip] == s.ipConn[ip]
        decreases ips
      {
        var ip :| ip in ips;
        ips := ips - {ip};
        if now - ipConnSet[ip] > 2 * MINUTE {
          ipConn := ipConn - {ip};
          ipConnSet := ipConnSet - {ip};
        }
      }
    }

    method CollectMsgs(now: int)
      modifies this`msgPerMin, this`msgResetAt
      ensures msgPerMin == Collected(old(State()), now).msgPerMin
      ensures msgResetAt == Collected(old(State()), now).msgResetAt
    {
      ghost var s := State();
      var ks := msgResetAt.Keys;
      while ks != {}
        invariant ks <= msgResetAt.Keys <= s.msgResetAt.Keys
        invariant forall k :: k in s.msgResetAt ==> (k in msgResetAt <==> k in ks || !StaleMsg(s, k, now))
        invariant forall k :: k in msgPerMin <==> k in s.msgPerMin && (k in ks || !StaleMsg(s, k, now))
        invariant forall k :: k in msgResetAt ==> msgResetAt[k] == s.msgResetAt[k]
        invariant forall k :: k in msgPerMin ==> msgPerMin[k] == s.msgPerMin[k]
        decreases ks
      {
        var k :| k in ks;
        ks := ks - {k};
        if now > msgResetAt[k] + 2 * MINUTE {
          msgPerMin := msgPerMin - {k};
          msgResetAt := msgResetAt - {k};
        }
      }
    }

    method GcLocked(now: int)
      modifies this
      ensures State() == Collected(old(State()), now)
    {
      CollectConns(now);
      CollectMsgs(now);
    }

    method AllowConn(ip: string, now: int) returns (ok: bool)
      modifies this
      ensures State() == Apply(limits, old(State()), Conn(ip, now))
      ensures ok <==> Answer(limits, old(State()), Conn(ip, now))
      ensures var before := Collected(old(State()), now);
              && (ok <==> Get(before.ipConn, ip) < limits.maxConn)
              && ipConn == (if ok then before.ipConn[ip := Get(before.ipConn, ip) + 1] else before.ipConn)
              && ipConnSet == if ok then before.ipConnSet[ip := now] else before.ipConnSet
    {
      GcLocked(now);
      if Get(ipConn, ip) >= limits.maxConn {
        return false;
      }
      ipConn := ipConn[ip := Get(ipConn, ip) + 1];
      ipConnSet := ipConnSet[ip := now];
      return true;
    }

    method ReleaseConn(ip: string, ghost now: int)
      modifies this
      ensures State() == Apply(limits, old(State()), Drop(ip, now))
    {
      ipConn := ipConn[ip := Get(ipConn, ip) - 1];
      if ipConn[ip] <= 0 {
        ipConn := ipConn - {ip};
        ipConnSet := ipConnSet - {ip};
      }
    }

    method AllowMsg(ip: string, now: int) returns (ok: bool)
      modifies this
      ensures State() == Apply(limits, old(State()), Msg(ip, now))
      ensures ok <==> Answer(limits, old(State()), Msg(ip, now))
    {
      var k := "m:" + ip;
      if k !in msgResetAt || now > msgResetAt[k] {
        msgPerMin := msgPerMin[k := 0];
        msgResetAt := msgResetAt[k := now + MINUTE];
      }
      msgPerMin := msgPerMin[k := Get(msgPerMin, k) + 1];
      return msgPerMin[k] <= limits.maxMsg;
    }
  }

  // ----- histories -----

  predicate Monotone(calls: seq<Call>) {
    forall i, j :: 0 <= i <= j < |calls| ==> calls[i].now <= calls[j].now
  }

  function Run(l: Limits, calls: seq<Call>): Tables {
    if calls == [] then Tables(map[], map[], map[], map[])
    else Apply(l, Run(l, calls[..|calls| - 1]), calls[|calls| - 1])
  }

  /** The times at which the limiter let a message of the address through. */
  function Admitted(l: Limits, calls: seq<Call>, ip: string): seq<int> {
    if calls == [] then [] else
      var n := |calls| - 1;
      var c := calls[n];
      Admitted(l, calls[..n], ip) +
      (if c.Msg? && c.ip == ip && Answer(l, Run(l, calls[..n]), c) then [c.now] else [])
  }

  /** Reference: the history cut into windows of one minute, with no tables and no collection. */
  datatype Window = Window(start: int, tries: nat, kept: seq<int>)

  function Open(l: Limits, now: int): Window {
    Window(now, 1, if 1 <= l.maxMsg then [now] else [])
  }

  function Extend(l: Limits, w: Window, now: int): Window {
    Window(w.start, w.tries + 1, if w.tries + 1 <= l.maxMsg then w.kept + [now] else w.kept)
  }

  /** The windows after one more message. */
  function NextWindows(l: Limits, ws: seq<Window>, now: int): seq<Window> {
    if ws == [] || now > ws[|ws| - 1].start + 60_000_000_000 then ws + [Open(l, now)]
    else ws[|ws| - 1 := Extend(l, ws[|ws| - 1], now)]
  }

  function Windows(l: Limits, calls: seq<Call>, ip: string): seq<Window> {
    if calls == [] then [] else
      var n := |calls| - 1;
      var ws := Windows(l, calls[..n], ip);
      var c := calls[n];
      if !c.Msg? || c.ip != ip then ws
      else NextWindows(l, ws, c.now)
  }

  function Kept(ws: seq<Window>): seq<int> {
    if ws == [] then [] else Kept(ws[..|ws| - 1]) + ws[|ws| - 1].kept
  }

  /** The table entry of an address mirrors its last window, or was collected after that window closed. */
  ghost predicate Mirrors(s: Tables, ws: seq<Window>, ip: string, clock: int) {
    var k := MsgKey(ip);
    && (k in s.msgPerMin <==> k in s.msgResetAt)
    && (k in s.msgResetAt ==>
         ws != [] && s.msgResetAt[k] == ws[|ws| - 1].start + MINUTE && s.msgPerMin[k] == ws[|ws| - 1].tries)
    && (k !in s.msgResetAt ==> ws == [] || clock > ws[|ws| - 1].start + MINUTE)
  }

  lemma MsgKeyInjective(a: string, b: string)
    requires MsgKey(a) == MsgKey(b)
    ensures a == b
  {
    assert MsgKey(a)[2..] == a && MsgKey(b)[2..] == b;
  }

  lemma MirrorsStep(l: Limits, s: Tables, c: Call, ws: seq<Window>, ws': seq<Window>, ip: string, clock: int)
    requires Mirrors(s, ws, ip, clock) && clock <= c.now
    requires ws' == if !c.Msg? || c.ip != ip then ws
                    else if ws == [] || c.now > ws[|ws| - 1].start + MINUTE then ws + [Open(l, c.now)]
                    else ws[|ws| - 1 := Extend(l, ws[|ws| - 1], c.now)]
    ensures Mirrors(Apply(l, s, c), ws', ip, c.now)
    ensures c.Msg? && c.ip == ip ==> (Answer(l, s, c) <==> ws'[|ws'| - 1].tries <= l.maxMsg)
  {
    if c.Msg? && c.ip != ip && MsgKey(c.ip) == MsgKey(ip) {
      MsgKeyInjective(c.ip, ip);
    }
  }

  lemma {:induction false} MirrorsRun(l: Limits, calls: seq<Call>, ip: string, clock: int)
    requires Monotone(calls) && (calls != [] ==> calls[|calls| - 1].now <= clock)
    ensures Mirrors(Run(l, calls), Windows(l, calls, ip), ip, clock)
  {
    if calls != [] {
      var n := |calls| - 1;
      MirrorsRun(l, calls[..n], ip, calls[n].now);
      MirrorsStep(l, Run(l, calls[..n]), calls[n], Windows(l, calls[..n], ip), Windows(l, calls, ip), ip, calls[n].now);
    }
  }

  lemma KeptSnoc(ws: seq<Window>, w: Window)
    ensures Kept(ws + [w]) == Kept(ws) + w.kept
  {
    assert (ws + [w])[..|ws|] == ws;
  }

  lemma KeptNext(l: Limits, ws: seq<Window>, now: int)
    ensures Kept(NextWindows(l, ws, now))
         == if ws == [] || now > ws[|ws| - 1].start + MINUTE then Kept(ws) + Open(l, now).kept
            else Kept(ws[..|ws| - 1]) + Extend(l, ws[|ws| - 1], now).kept
  {
    if ws == [] || now > ws[|ws| - 1].start + MINUTE {
      KeptSnoc(ws, Open(l, now));
    } else {
      var m := |ws| - 1;
      assert NextWindows(l, ws, now) == ws[..m] + [Extend(l, ws[m], now)];
      KeptSnoc(ws[..m], Extend(l, ws[m], now));
    }
  }

  /** The decision on a message, read off the reference. */
  lemma DecisionMirrors(l: Limits, s: Tables, ws: seq<Window>, ip: string, now: int)
    requires Mirrors(s, ws, ip, now)
    ensures Kept(NextWindows(l, ws, now)) == Kept(ws) + (if Answer(l, s, Msg(ip, now)) then [now] else [])
  {
    KeptNext(l, ws, now);
    if ws != [] {
      var m := |ws| - 1;
      assert ws == ws[..m] + [ws[m]];
      KeptSnoc(ws[..m], ws[m]);
    }
  }

  /** Collection never shows: the limiter admits exactly what the window reference admits. */
  lemma {:induction false} AdmittedIsKept(l: Limits, calls: seq<Call>, ip: string)
    requires Monotone(calls)
    ensures Admitted(l, calls, ip) == Kept(Windows(l, calls, ip))
  {
    if calls != [] {
      var n := |calls| - 1;
      AdmittedIsKept(l, calls[..n], ip);
      if calls[n].Msg? && calls[n].ip == ip {
        MirrorsRun(l, calls[..n], ip, calls[n].now);
        DecisionMirrors(l, Run(l, calls[..n]), Windows(l, calls[..n], ip), ip, calls[n].now);
      }
    }
  }

  /** The history without the calls that collect. */
  function OnlyMessages(calls: seq<Call>): seq<Call> {
    if calls == [] then [] else
      OnlyMessages(calls[..|calls| - 1]) + (if calls[|calls| - 1].Msg? then [calls[|calls| - 1]] else [])
  }

  lemma {:induction false} OnlyMessagesWindows(l: Limits, calls: seq<Call>, ip: string)
    ensures Windows(l, OnlyMessages(calls), ip) == Windows(l, calls, ip)
  {
    if calls != [] {
      var n := |calls| - 1;
      OnlyMessagesWindows(l, calls[..n], ip);
      var kept := OnlyMessages(calls[..n]);
      if calls[n].Msg? {
        assert (kept + [calls[n]])[..|kept|] == kept;
      } else {
        assert kept + [] == kept;
      }
    }
  }

  lemma {:induction false} OnlyMessagesMonotone(calls: seq<Call>)
    requires Monotone(calls)
    ensures Monotone(OnlyMessages(calls))
    ensures forall i :: 0 <= i < |OnlyMessages(calls)| ==> OnlyMessages(calls)[i].now <= calls[|calls| - 1].now
  {
    if calls != [] {
      OnlyMessagesMonotone(calls[..|calls| - 1]);
    }
  }

  /** Connection traffic, and with it every collection, leaves all message decisions as they were. */
  lemma CollectionInvisible(l: Limits, calls: seq<Call>, ip: string)
    requires Monotone(calls)
    ensures Admitted(l, calls, ip) == Admitted(l, OnlyMessages(calls), ip)
  {
    OnlyMessagesMonotone(calls);
    AdmittedIsKept(l, calls, ip);
    AdmittedIsKept(l, OnlyMessages(calls), ip);
    OnlyMessagesWindows(l, calls, ip);
  }

  // ----- the rate bound -----

  function Within(ts: seq<int>, lo: int, hi: int): nat {
    if ts == [] then 0 else Within(ts[..|ts| - 1], lo, hi) + (if lo <= ts[|ts| - 1] <= hi then 1 else 0)
  }

  lemma {:induction false} WithinConcat(a: seq<int>, b: seq<int>, lo: int, hi: int)
    ensures Within(a + b, lo, hi) == Within(a, lo, hi) + Within(b, lo, hi)
    decreases |b|
  {
    if b == [] {
      assert a + b == a;
    } else {
      assert (a + b)[..|a + b| - 1] == a + b[..|b| - 1];
      WithinConcat(a, b[..|b| - 1], lo, hi);
    }
  }

  lemma {:induction false} WithinBounds(ts: seq<int>, lo: int, hi: int)
    ensures Within(ts, lo, hi) <= |ts|
    ensures (forall i :: 0 <= i < |ts| ==> !(lo <= ts[i] <= hi)) ==> Within(ts, lo, hi) == 0
  {
    if ts != [] {
      WithinBounds(ts[..|ts| - 1], lo, hi);
    }
  }

  ghost predicate GoodWindow(l: Limits, w: Window) {
    && w.tries > 0 && |w.kept| <= l.maxMsg && |w.kept| <= w.tries && (w.tries <= l.maxMsg ==> |w.kept| == w.tries)
    && (w.kept != [] ==> w.kept[0] == w.start)
    && (forall i :: 0 <= i < |w.kept| ==> w.start <= w.kept[i] <= w.start + MINUTE)
  }

  ghost predicate GoodWindows(l: Limits, ws: seq<Window>) {
    && (forall i :: 0 <= i < |ws| ==> GoodWindow(l, ws[i]))
    && (forall i :: 0 < i < |ws| ==> ws[i].start > ws[i - 1].start + MINUTE)
  }

  lemma GoodExtend(l: Limits, w: Window, now: int)
    requires GoodWindow(l, w) && w.start <= now <= w.start + MINUTE
    ensures GoodWindow(l, Extend(l, w, now))
  {
  }

  lemma GoodNext(l: Limits, ws: seq<Window>, now: int)
    requires GoodWindows(l, ws) && (ws != [] ==> ws[|ws| - 1].start <= now)
    ensures GoodWindows(l, NextWindows(l, ws, now)) && NextWindows(l, ws, now)[|NextWindows(l, ws, now)| - 1].start <= now
  {
    if ws != [] && now <= ws[|ws| - 1].start + MINUTE {
      GoodExtend(l, ws[|ws| - 1], now);
    } else {
      assert GoodWindow(l, Open(l, now));
    }
  }

  /** Each window keeps at most maxMsg messages, the first of them opening its minute, and windows are over a minute apart. */
  lemma {:induction false} WindowsGood(l: Limits, calls: seq<Call>, ip: string)
    requires Monotone(calls)
    ensures var ws := Windows(l, calls, ip);
            GoodWindows(l, ws) && (ws != [] ==> calls != [] && ws[|ws| - 1].start <= calls[|calls| - 1].now)
  {
    if calls != [] {
      var n := |calls| - 1;
      WindowsGood(l, calls[..n], ip);
      if calls[n].Msg? && calls[n].ip == ip {
        GoodNext(l, Windows(l, calls[..n], ip), calls[n].now);
      }
    }
  }

  lemma {:induction false} EarlierWindows(l: Limits, ws: seq<Window>, lo: int, hi: int)
    requires GoodWindows(l, ws) && (ws != [] ==> ws[|ws| - 1].start + MINUTE < lo)
    ensures Within(Kept(ws), lo, hi) == 0
  {
    if ws != [] {
      var n := |ws| - 1;
      EarlierWindows(l, ws[..n], lo, hi);
      assert GoodWindow(l, ws[n]);
      WithinBounds(ws[n].kept, lo, hi);
      WithinConcat(Kept(ws[..n]), ws[n].kept, lo, hi);
    }
  }

  lemma WithinButFirst(ts: seq<int>, lo: int, hi: int)
    requires ts != [] && !(lo <= ts[0] <= hi)
    ensures Within(ts, lo, hi) <= |ts| - 1
  {
    assert ts == ts[..1] + ts[1..];
    WithinConcat(ts[..1], ts[1..], lo, hi);
    WithinBounds(ts[..1], lo, hi);
    WithinBounds(ts[1..], lo, hi);
  }

  lemma KeptSplit(ws: seq<Window>, lo: int, hi: int)
    requires ws != []
    ensures Within(Kept(ws), lo, hi) == Within(Kept(ws[..|ws| - 1]), lo, hi) + Within(ws[|ws| - 1].kept, lo, hi)
  {
    WithinConcat(Kept(ws[..|ws| - 1]), ws[|ws| - 1].kept, lo, hi);
  }

  lemma WindowAtMost(l: Limits, w: Window, lo: int, hi: int)
    requires GoodWindow(l, w)
    ensures Within(w.kept, lo, hi) <= l.maxMsg
    ensures w.start < lo && l.maxMsg > 0 ==> Within(w.kept, lo, hi) <= l.maxMsg - 1
    ensures w.start > hi ==> Within(w.kept, lo, hi) == 0
  {
    WithinBounds(w.kept, lo, hi);
    if w.start < lo && w.kept != [] {
      WithinButFirst(w.kept, lo, hi);
    }
  }

  /** The window before one that starts within a minute of lo starts before lo, and all others end before it. */
  lemma TwoLast(l: Limits, ws: seq<Window>, lo: int)
    requires GoodWindows(l, ws) && |ws| >= 2 && ws[|ws| - 1].start <= lo + MINUTE && l.maxMsg > 0
    ensures Within(Kept(ws[..|ws| - 1]), lo, lo + MINUTE) <= l.maxMsg - 1
  {
    var n := |ws| - 1;
    var vs := ws[..n];
    assert vs[..n - 1] == ws[..n - 1];
    KeptSplit(vs, lo, lo + MINUTE);
    assert GoodWindow(l, vs[n - 1]);
    WindowAtMost(l, vs[n - 1], lo, lo + MINUTE);
    EarlierWindows(l, vs[..n - 1], lo, lo + MINUTE);
  }

  lemma {:induction false} TwoWindows(l: Limits, ws: seq<Window>, lo: int)
    requires GoodWindows(l, ws) && l.maxMsg > 0
    ensures Within(Kept(ws), lo, lo + MINUTE) <= 2 * l.maxMsg - 1
  {
    if ws != [] {
      var n := |ws| - 1;
      KeptSplit(ws, lo, lo + MINUTE);
      assert GoodWindow(l, ws[n]);
      WindowAtMost(l, ws[n], lo, lo + MINUTE);
      if ws[n].start > lo + MINUTE {
        TwoWindows(l, ws[..n], lo);
      } else if n > 0 {
        TwoLast(l, ws, lo);
      }
    }
  }

  /** In any closed minute of any history fewer than 2 * maxMsg messages of an address get through. */
  lemma MinuteBound(l: Limits, calls: seq<Call>, ip: string, lo: int)
    requires Monotone(calls) && l.maxMsg > 0
    ensures Within(Admitted(l, calls, ip), lo, lo + 60_000_000_000) <= 2 * l.maxMsg - 1
  {
    AdmittedIsKept(l, calls, ip);
    WindowsGood(l, calls, ip);
    TwoWindows(l, Windows(l, calls, ip), lo);
  }

  lemma WindowsSnoc(l: Limits, calls: seq<Call>, ip: string, now: int)
    ensures var ws := Windows(l, calls, ip);
            Windows(l, calls + [Msg(ip, now)], ip)
              == NextWindows(l, ws, now)
  {
    assert (calls + [Msg(ip, now)])[..|calls|] == calls;
  }

  /** n messages of the address at one instant. */
  function Msgs(ip: string, now: int, n: nat): seq<Call> {
    seq(n, i => Msg(ip, now))
  }

  lemma ExtendLast(l: Limits, ws: seq<Window>, w: Window, now: int)
    requires now <= w.start + MINUTE
    ensures NextWindows(l, ws + [w], now) == ws + [Extend(l, w, now)]
  {
  }

  /** The windows after n more messages at one instant. */
  function Extended(l: Limits, ws: seq<Window>, now: int, n: nat): seq<Window> {
    if n == 0 then ws else NextWindows(l, Extended(l, ws, now, n - 1), now)
  }

  lemma MsgsMore(calls: seq<Call>, ip: string, now: int, n: nat)
    ensures calls + Msgs(ip, now, n + 1) == calls + Msgs(ip, now, n) + [Msg(ip, now)]
  {
  }

  lemma {:induction false} WindowsMsgs(l: Limits, calls: seq<Call>, ip: string, now: int, n: nat)
    ensures Windows(l, calls + Msgs(ip, now, n), ip) == Extended(l, Windows(l, calls, ip), now, n)
  {
    if n == 0 {
      assert calls + Msgs(ip, now, 0) == calls;
    } else {
      WindowsMsgs(l, calls, ip, now, n - 1);
      MsgsMore(calls, ip, now, n - 1);
      WindowsSnoc(l, calls + Msgs(ip, now, n - 1), ip, now);
    }
  }

  /** A window after n more messages at one instant within its minute. */
  function Filled(l: Limits, w: Window, now: int, n: nat): Window {
    if n == 0 then w else Extend(l, Filled(l, w, now, n - 1), now)
  }

  lemma {:induction false} FillWindow(l: Limits, ws: seq<Window>, w: Window, now: int, n: nat)
    requires now <= w.start + MINUTE
    ensures Extended(l, ws + [w], now, n) == ws + [Filled(l, w, now, n)] && Filled(l, w, now, n).start == w.start
  {
    if n > 0 {
      FillWindow(l, ws, w, now, n - 1);
      ExtendLast(l, ws, Filled(l, w, now, n - 1), now);
    }
  }

  lemma WithinSnoc(ts: seq<int>, t: int, lo: int, hi: int)
    ensures Within(ts + [t], lo, hi) == Within(ts, lo, hi) + (if lo <= t <= hi then 1 else 0)
  {
    assert (ts + [t])[..|ts|] == ts;
  }

  /** Messages within the quota all get through. */
  lemma {:induction false} FilledCount(l: Limits, w: Window, now: int, n: nat, lo: int, hi: int)
    requires w.tries + n <= l.maxMsg && lo <= now <= hi
    ensures Filled(l, w, now, n).tries == w.tries + n
    ensures Within(Filled(l, w, now, n).kept, lo, hi) == Within(w.kept, lo, hi) + n
  {
    if n > 0 {
      FilledCount(l, w, now, n - 1, lo, hi);
      WithinSnoc(Filled(l, w, now, n - 1).kept, now, lo, hi);
    }
  }

  /** One message opens a window, the rest of the quota comes at its last instant, and a full quota right after it. */
  function Burst(l: Limits, ip: string): seq<Call>
    requires l.maxMsg > 0
  {
    [Msg(ip, 0)] + Msgs(ip, MINUTE, l.maxMsg - 1) + [Msg(ip, MINUTE + 1)] + Msgs(ip, MINUTE + 1, l.maxMsg - 1)
  }

  /** The two windows of the burst. */
  function EarlyWindow(l: Limits): Window
    requires l.maxMsg > 0
  {
    Filled(l, Open(l, 0), MINUTE, l.maxMsg - 1)
  }

  function LateWindow(l: Limits): Window
    requires l.maxMsg > 0
  {
    Filled(l, Open(l, MINUTE + 1), MINUTE + 1, l.maxMsg - 1)
  }

  lemma OpenFirst(l: Limits, ip: string)
    ensures Windows(l, [Msg(ip, 0)], ip) == [] + [Open(l, 0)]
  {
    assert [] + [Msg(ip, 0)] == [Msg(ip, 0)];
    WindowsSnoc(l, [], ip, 0);
  }

  lemma FilledWindows(l: Limits, calls: seq<Call>, all: seq<Call>, ip: string, now: int, n: nat, ws: seq<Window>, w: Window)
    requires Windows(l, calls, ip) == ws + [w] && all == calls + Msgs(ip, now, n) && now <= w.start + MINUTE
    ensures Windows(l, all, ip) == ws + [Filled(l, w, now, n)]
  {
    WindowsMsgs(l, calls, ip, now, n);
    FillWindow(l, ws, w, now, n);
  }

  lemma OpenNext(l: Limits, calls: seq<Call>, more: seq<Call>, ip: string, w: Window, now: int)
    requires Windows(l, calls, ip) == [] + [w] && now > w.start + MINUTE && more == calls + [Msg(ip, now)]
    ensures Windows(l, more, ip) == [w] + [Open(l, now)]
  {
    WindowsSnoc(l, calls, ip, now);
  }

  lemma BurstParts(l: Limits, ip: string, first: seq<Call>, early: seq<Call>, late: seq<Call>, all: seq<Call>)
    requires l.maxMsg > 0 && first == [Msg(ip, 0)] && early == first + Msgs(ip, MINUTE, l.maxMsg - 1)
    requires late == early + [Msg(ip, MINUTE + 1)] && all == late + Msgs(ip, MINUTE + 1, l.maxMsg - 1)
    ensures Windows(l, all, ip) == [EarlyWindow(l)] + [LateWindow(l)]
  {
    OpenFirst(l, ip);
    FilledWindows(l, first, early, ip, MINUTE, l.maxMsg - 1, [], Open(l, 0));
    FillWindow(l, [], Open(l, 0), MINUTE, l.maxMsg - 1);
    OpenNext(l, early, late, ip, EarlyWindow(l), MINUTE + 1);
    FilledWindows(l, late, all, ip, MINUTE + 1, l.maxMsg - 1, [EarlyWindow(l)], Open(l, MINUTE + 1));
  }

  lemma BurstWindows(l: Limits, ip: string)
    requires l.maxMsg > 0
    ensures Windows(l, Burst(l, ip), ip) == [EarlyWindow(l)] + [LateWindow(l)]
  {
    var early := [Msg(ip, 0)] + Msgs(ip, MINUTE, l.maxMsg - 1);
    BurstParts(l, ip, [Msg(ip, 0)], early, early + [Msg(ip, MINUTE + 1)], Burst(l, ip));
  }

  lemma BurstMonotone(l: Limits, ip: string)
    requires l.maxMsg > 0
    ensures Monotone(Burst(l, ip))
  {
  }

  lemma OpenCount(l: Limits, now: int, lo: int, hi: int)
    requires l.maxMsg > 0
    ensures Within(Open(l, now).kept, lo, hi) == if lo <= now <= hi then 1 else 0
  {
    assert [now][..0] == [];
  }

  lemma WindowCount(l: Limits, first: int, now: int, lo: int, hi: int)
    requires l.maxMsg > 0 && lo <= now <= hi
    ensures Within(Filled(l, Open(l, first), now, l.maxMsg - 1).kept, lo, hi)
         == (if lo <= first <= hi then 1 else 0) + (l.maxMsg - 1)
  {
    OpenCount(l, first, lo, hi);
    FilledCount(l, Open(l, first), now, l.maxMsg - 1, lo, hi);
  }

  lemma BurstCount(l: Limits, early: seq<int>, late: seq<int>)
    requires l.maxMsg > 0 && early == EarlyWindow(l).kept && late == LateWindow(l).kept
    ensures Within(early + late, MINUTE, 2 * MINUTE) == 2 * l.maxMsg - 1
  {
    WithinConcat(early, late, MINUTE, 2 * MINUTE);
    WindowCount(l, 0, MINUTE, MINUTE, 2 * MINUTE);
    WindowCount(l, MINUTE + 1, MINUTE + 1, MINUTE, 2 * MINUTE);
  }

  lemma KeptPair(v: Window, w: Window)
    ensures Kept([v] + [w]) == v.kept + w.kept
  {
    KeptSnoc([v], w);
    assert [v][..0] == [] && Kept([v]) == v.kept;
  }

  /** For every limit the bound is met: a late window and the next one give 2 * maxMsg - 1 messages in one minute. */
  lemma MinuteBoundMet(l: Limits, ip: string)
    requires l.maxMsg > 0
    ensures Monotone(Burst(l, ip))
    ensures Within(Admitted(l, Burst(l, ip), ip), 60_000_000_000, 120_000_000_000) == 2 * l.maxMsg - 1
  {
    BurstMonotone(l, ip);
    AdmittedIsKept(l, Burst(l, ip), ip);
    BurstWindows(l, ip);
    KeptPair(EarlyWindow(l), LateWindow(l));
    BurstCount(l, EarlyWindow(l).kept, LateWindow(l).kept);
  }

  // ----- connections -----

  /** Connections of the address that were admitted and not yet released. */
  function Live(l: Limits, calls: seq<Call>, ip: string): int {
    if calls == [] then 0 else
      var n := |calls| - 1;
      var c := calls[n];
      Live(l, calls[..n], ip) +
      (if c.ip != ip then 0
       else if c.Conn? && Answer(l, Run(l, calls[..n]), c) then 1
       else if c.Drop? then -1 else 0)
  }

  /** A connection is released once, after it was admitted. */
  ghost predicate Paired(l: Limits, calls: seq<Call>) {
    forall n :: 0 <= n < |calls| && calls[n].Drop? ==> Live(l, calls[..n], calls[n].ip) > 0
  }

  lemma PairedPrefix(l: Limits, calls: seq<Call>, m: nat)
    requires Paired(l, calls) && m <= |calls|
    ensures Paired(l, calls[..m])
  {
    forall n | 0 <= n < m && calls[n].Drop? ensures Live(l, calls[..m][..n], calls[n].ip) > 0 {
      assert calls[..m][..n] == calls[..n];
    }
  }

  ghost predicate ConnTables(s: Tables) {
    && s.ipConn.Keys == s.ipConnSet.Keys
    && (forall ip :: ip in s.ipConn ==> s.ipConn[ip] > 0)
  }

  lemma {:induction false} ConnTablesRun(l: Limits, calls: seq<Call>)
    ensures ConnTables(Run(l, calls))
  {
    if calls != [] {
      ConnTablesRun(l, calls[..|calls| - 1]);
    }
  }

  /** The counter never exceeds the cap nor the connections that are really open. */
  lemma {:induction false} CounterBound(l: Limits, calls: seq<Call>, ip: string)
    requires Paired(l, calls)
    ensures 0 <= Get(Run(l, calls).ipConn, ip) <= l.maxConn
    ensures Get(Run(l, calls).ipConn, ip) <= Live(l, calls, ip)
  {
    if calls != [] {
      var n := |calls| - 1;
      PairedPrefix(l, calls, n);
      CounterBound(l, calls[..n], ip);
      assert calls[n].Drop? ==> Live(l, calls[..n], calls[n].ip) > 0;
    }
  }

  /** An address is refused only while at least maxConn of its connections are open. */
  lemma RefusedOnlyWhenFull(l: Limits, calls: seq<Call>, ip: string, now: int)
    requires Paired(l, calls) && !Answer(l, Run(l, calls), Conn(ip, now))
    ensures Live(l, calls, ip) >= l.maxConn
  {
    CounterBound(l, calls, ip);
  }

  /** Since the address last had no connection, no collection dropped its counter. */
  predicate NotEvicted(l: Limits, calls: seq<Call>, ip: string) {
    calls == [] ||
    var n := |calls| - 1;
    Live(l, calls, ip) == 0 ||
    (NotEvicted(l, calls[..n], ip) &&
     !(calls[n].Conn? && Live(l, calls[..n], ip) > 0 && StaleConn(Run(l, calls[..n]), ip, calls[n].now)))
  }

  /** The counter is the number of open connections exactly when the address was not evicted meanwhile. */
  lemma {:induction false} CounterExact(l: Limits, calls: seq<Call>, ip: string)
    requires Paired(l, calls)
    ensures NotEvicted(l, calls, ip) <==> Get(Run(l, calls).ipConn, ip) == Live(l, calls, ip)
  {
    CounterBound(l, calls, ip);
    if calls != [] {
      var n := |calls| - 1;
      PairedPrefix(l, calls, n);
      CounterExact(l, calls[..n], ip);
      CounterBound(l, calls[..n], ip);
      ConnTablesRun(l, calls[..n]);
      assert calls[n].Drop? ==> Live(l, calls[..n], calls[n].ip) > 0;
    }
  }

  /** So the cap on open connections holds as long as the address is not evicted. */
  lemma CapUnlessEvicted(l: Limits, calls: seq<Call>, ip: string)
    requires Paired(l, calls) && NotEvicted(l, calls, ip)
    ensures Live(l, calls, ip) <= l.maxConn
  {
    CounterExact(l, calls, ip);
    CounterBound(l, calls, ip);
  }

  // ----- attempts to pass the cap -----

  /** n further connections of the address, all at one instant. */
  function Conns(ip: string, now: int, n: nat): seq<Call> {
    seq(n, i => Conn(ip, now))
  }

  /** The counter that a connection at this instant is measured against, after collection. */
  function Counter(s: Tables, ip: string, now: int): int {
    Get(Collected(s, now).ipConn, ip)
  }

  function Least(a: int, b: int): int {
    if a < b then a else b
  }

  lemma ConnSnoc(l: Limits, calls: seq<Call>, ip: string, now: int)
    ensures Run(l, calls + [Conn(ip, now)]) == Apply(l, Run(l, calls), Conn(ip, now))
    ensures Live(l, calls + [Conn(ip, now)], ip)
         == Live(l, calls, ip) + (if Answer(l, Run(l, calls), Conn(ip, now)) then 1 else 0)
  {
    assert (calls + [Conn(ip, now)])[..|calls|] == calls;
  }

  /** The table that a connection leaves behind is not collected again at the same instant. */
  lemma CounterStep(l: Limits, s: Tables, ip: string, now: int)
    requires ConnTables(s)
    ensures Counter(Apply(l, s, Conn(ip, now)), ip, now)
         == Counter(s, ip, now) + (if Answer(l, s, Conn(ip, now)) then 1 else 0)
  {
  }

  lemma OneAttempt(l: Limits, calls: seq<Call>, ip: string, now: int, c: int, live: int)
    requires c == Counter(Run(l, calls), ip, now) <= l.maxConn && live == Live(l, calls, ip)
    ensures Counter(Run(l, calls + [Conn(ip, now)]), ip, now) == Least(c + 1, l.maxConn)
    ensures Live(l, calls + [Conn(ip, now)], ip) == live + Least(c + 1, l.maxConn) - c
  {
    ConnTablesRun(l, calls);
    ConnSnoc(l, calls, ip, now);
    CounterStep(l, Run(l, calls), ip, now);
  }

  lemma ConnsMore(calls: seq<Call>, ip: string, now: int, n: nat)
    ensures calls + Conns(ip, now, n + 1) == calls + Conns(ip, now, n) + [Conn(ip, now)]
  {
  }

  /** After n attempts the counter has grown to the cap at most, and the open connections by as much. */
  ghost predicate Grown(l: Limits, calls: seq<Call>, ip: string, now: int, n: nat, c: int, live: int) {
    && Counter(Run(l, calls + Conns(ip, now, n)), ip, now) == Least(c + n, l.maxConn)
    && Live(l, calls + Conns(ip, now, n), ip) == live + Least(c + n, l.maxConn) - c
  }

  lemma GrownMore(l: Limits, calls: seq<Call>, ip: string, now: int, n: nat, c: int, live: int)
    requires Grown(l, calls, ip, now, n, c, live)
    ensures Grown(l, calls, ip, now, n + 1, c, live)
  {
    OneAttempt(l, calls + Conns(ip, now, n), ip, now, Least(c + n, l.maxConn), live + Least(c + n, l.maxConn) - c);
    ConnsMore(calls, ip, now, n);
  }

  lemma GrownNone(l: Limits, calls: seq<Call>, ip: string, now: int, c: int, live: int)
    requires c == Counter(Run(l, calls), ip, now) <= l.maxConn && live == Live(l, calls, ip)
    ensures Grown(l, calls, ip, now, 0, c, live)
  {
    assert calls + Conns(ip, now, 0) == calls;
  }

  lemma {:induction false} AttemptsGrow(l: Limits, calls: seq<Call>, ip: string, now: int, n: nat, c: int, live: int)
    requires c == Counter(Run(l, calls), ip, now) <= l.maxConn && live == Live(l, calls, ip)
    ensures Grown(l, calls, ip, now, n, c, live)
  {
    if n == 0 {
      GrownNone(l, calls, ip, now, c, live);
    } else {
      AttemptsGrow(l, calls, ip, now, n - 1, c, live);
      GrownMore(l, calls, ip, now, n - 1, c, live);
    }
  }

  /** The counter that connections at this instant meet falls short of the open connections. */
  predicate Forgotten(l: Limits, calls: seq<Call>, ip: string, now: int) {
    !NotEvicted(l, calls, ip) || (Live(l, calls, ip) > 0 && StaleConn(Run(l, calls), ip, now))
  }

  lemma ForgottenMeans(l: Limits, calls: seq<Call>, ip: string, now: int)
    requires Paired(l, calls)
    ensures 0 <= Counter(Run(l, calls), ip, now) <= l.maxConn
    ensures Counter(Run(l, calls), ip, now) <= Live(l, calls, ip)
    ensures Forgotten(l, calls, ip, now) <==> Counter(Run(l, calls), ip, now) < Live(l, calls, ip)
  {
    CounterExact(l, calls, ip);
    CounterBound(l, calls, ip);
    ConnTablesRun(l, calls);
  }

  ghost predicate CapHolds(l: Limits, calls: seq<Call>, ip: string, now: int) {
    forall n: nat :: Live(l, calls + Conns(ip, now, n), ip) <= l.maxConn
  }

  lemma ForgottenPassesCap(l: Limits, calls: seq<Call>, ip: string, now: int, c: int, live: int)
    requires c == Counter(Run(l, calls), ip, now) <= l.maxConn && live == Live(l, calls, ip)
    requires 0 <= c < live
    ensures Live(l, calls + Conns(ip, now, l.maxConn), ip) > l.maxConn
  {
    AttemptsGrow(l, calls, ip, now, l.maxConn, c, live);
  }

  lemma CountedKeepsCap(l: Limits, calls: seq<Call>, ip: string, now: int, c: int)
    requires c == Counter(Run(l, calls), ip, now) <= l.maxConn && c == Live(l, calls, ip)
    ensures CapHolds(l, calls, ip, now)
  {
    forall n: nat ensures Live(l, calls + Conns(ip, now, n), ip) <= l.maxConn {
      AttemptsGrow(l, calls, ip, now, n, c, c);
    }
  }

  /**
   * For every cap and history: attempts at one instant, however many, never bring the open connections of the
   * address above the cap exactly when its counter was not dropped while it had open connections, neither before
   * nor by the first of these attempts.
   */
  lemma CapHoldsIff(l: Limits, calls: seq<Call>, ip: string, now: int)
    requires Paired(l, calls)
    ensures CapHolds(l, calls, ip, now) <==> !Forgotten(l, calls, ip, now)
  {
    var c, live := Counter(Run(l, calls), ip, now), Live(l, calls, ip);
    ForgottenMeans(l, calls, ip, now);
    if c < live {
      ForgottenPassesCap(l, calls, ip, now, c, live);
    } else {
      CountedKeepsCap(l, calls, ip, now, c);
    }
  }

  /** After an eviction maxConn more attempts at any instant pass the cap. */
  lemma EvictedPassesCap(l: Limits, calls: seq<Call>, ip: string, now: int)
    requires Paired(l, calls) && !NotEvicted(l, calls, ip)
    ensures Live(l, calls + Conns(ip, now, l.maxConn), ip) > l.maxConn
  {
    ForgottenMeans(l, calls, ip, now);
    ForgottenPassesCap(l, calls, ip, now, Counter(Run(l, calls), ip, now), Live(l, calls, ip));
  }

  lemma FirstConn(l: Limits, ip: string, now: int)
    requires l.maxConn > 0
    ensures Run(l, [Conn(ip, now)]) == Tables(map[ip := 1], map[ip := now], map[], map[]) && Live(l, [Conn(ip, now)], ip) == 1
  {
    assert [] + [Conn(ip, now)] == [Conn(ip, now)];
    ConnSnoc(l, [], ip, now);
    assert Collected(Run(l, []), now) == Tables(map[], map[], map[], map[]);
  }

  /** Two quiet minutes with every connection open are enough, for every positive cap. */
  lemma QuietBreaksCap(l: Limits, ip: string, now: int)
    requires l.maxConn > 0
    ensures Paired(l, [Conn(ip, now)]) && !CapHolds(l, [Conn(ip, now)], ip, now + 2 * MINUTE + 1)
  {
    FirstConn(l, ip, now);
    CapHoldsIff(l, [Conn(ip, now)], ip, now + 2 * MINUTE + 1);
  }
}
