/** Progress of the export pipeline once nothing new is submitted. */
module ExportProgress {
  import opened Options
  import opened ExportModel
  import opened ExportSafety
  import opened ExportRuns

  predicate NoSubmission(es: seq<Event>) {
    forall i :: 0 <= i < |es| ==> !Submits(es[i])
  }

  /** Actions a worker still has to take for the job in its hand. */
  function Left(wk: Worker): nat {
    match wk
    case Idle => 0
    case Busy(_, Taken) => 6
    case Busy(_, Waiting) => 5
    case Busy(_, Entered) => 4
    case Busy(_, Started) => 3
    case Busy(_, Generated(_)) => 2
    case Busy(_, Saved) => 1
  }

  function LeftAll(ws: seq<Worker>): nat {
    if ws == [] then 0 else LeftAll(ws[..|ws| - 1]) + Left(ws[|ws| - 1])
  }

  function Work(s: State): nat {
    7 * |s.queue| + LeftAll(s.workers)
  }

  lemma {:induction false} LeftAllUpdate(ws: seq<Worker>, w: nat, wk: Worker)
    requires w < |ws|
    ensures LeftAll(ws[w := wk]) + Left(ws[w]) == LeftAll(ws) + Left(wk)
  {
    var n := |ws| - 1;
    if w < n {
      assert ws[w := wk][..n] == ws[..n][w := wk];
      LeftAllUpdate(ws[..n], w, wk);
    } else {
      assert ws[w := wk][..n] == ws[..n];
    }
  }

  lemma {:induction false} BusyHasWork(ws: seq<Worker>, w: nat)
    requires w < |ws| && ws[w].Busy?
    ensures LeftAll(ws) > 0
  {
    if w < |ws| - 1 {
      BusyHasWork(ws[..|ws| - 1], w);
    }
  }

  lemma {:induction false} WorkHasBusy(ws: seq<Worker>) returns (w: nat)
    requires LeftAll(ws) > 0
    ensures w < |ws| && ws[w].Busy?
  {
    w := |ws| - 1;
    if ws[w].Idle? {
      w := WorkHasBusy(ws[..|ws| - 1]);
    }
  }

  /** Each action of a worker uses up exactly one unit of work; cancelling and waiting use none. */
  lemma WorkDrops(c: Config, s: State, e: Event)
    requires Enabled(c, s, e) && !Submits(e)
    ensures Work(s) == Work(Next(c, s, e)) + (if ByWorker(e) then 1 else 0)
  {
    if ByWorker(e) {
      LeftAllUpdate(s.workers, e.w, Next(c, s, e).workers[e.w]);
    }
  }

  /** The event that moves worker w on, ignoring whether it can happen now. */
  function MoveOf(s: State, w: nat): Event
    requires w < |s.workers|
  {
    match s.workers[w]
    case Idle => Take(w)
    case Busy(_, Taken) => GetSem(w)
    case Busy(_, Waiting) => Acquire(w)
    case Busy(_, Entered) => SaveRunning(w, true)
    case Busy(_, Started) => Generate(w, Broken(""))
    case Busy(_, Generated(_)) => SaveFinal(w, true)
    case Busy(_, Saved) => Release(w)
  }

  /** Whoever is inside a critical section can go on. */
  lemma {:induction false} InsideCounts(ws: seq<Worker>, w: nat, user: int)
    requires w < |ws| && InSection(ws[w], user)
    ensures Inside(ws, user) > 0
  {
    if w < |ws| - 1 {
      InsideCounts(ws[..|ws| - 1], w, user);
    }
  }

  lemma InsideMoves(c: Config, s: State, w: nat)
    requires Inv(c, s) && w < |s.workers| && s.workers[w].Busy? && InSection(s.workers[w], s.workers[w].job.user)
    ensures Enabled(c, s, MoveOf(s, w))
  {
    InsideCounts(s.workers, w, s.workers[w].job.user);
    assert Slots(s, s.workers[w].job.user) == Inside(s.workers, s.workers[w].job.user);
  }

  /** A worker that waits in vain is blocked by one inside, who can go on; any other busy worker can act itself. */
  lemma BusyOrBlockerMoves(c: Config, s: State, w: nat) returns (v: nat)
    requires Inv(c, s) && c.cap > 0 && w < |s.workers| && s.workers[w].Busy?
    ensures v < |s.workers| && Enabled(c, s, MoveOf(s, v))
  {
    v := w;
    var user := s.workers[w].job.user;
    if s.workers[w].stage == Waiting && Slots(s, user) == c.cap {
      assert Slots(s, user) == Inside(s.workers, user);
      v := InsideWitness(s.workers, user);
      InsideMoves(c, s, v);
    } else if InSection(s.workers[w], user) {
      InsideMoves(c, s, w);
    } else {
      assert Slots(s, user) <= c.cap;
    }
  }

  /** No deadlock: while there is work, some worker can act, whatever the users and caps are. */
  lemma SomeWorkerMoves(c: Config, s: State) returns (e: Event)
    requires Inv(c, s) && c.cap > 0 && |s.workers| > 0 && Work(s) > 0
    ensures ByWorker(e) && Enabled(c, s, e)
  {
    if LeftAll(s.workers) == 0 {
      if s.workers[0].Busy? {
        BusyHasWork(s.workers, 0);
      }
      return Take(0);
    }
    var w := WorkHasBusy(s.workers);
    w := BusyOrBlockerMoves(c, s, w);
    return MoveOf(s, w);
  }

  /** The worker actions that really happen along a run. */
  function MovesMade(c: Config, s: State, es: seq<Event>): nat {
    if es == [] then 0 else
      var n := |es| - 1;
      MovesMade(c, s, es[..n]) + (if ByWorker(es[n]) && Enabled(c, After(c, s, es[..n]), es[n]) then 1 else 0)
  }

  /** Without submissions a run holds exactly as many worker actions as the work it removes. */
  lemma {:induction false} MovesUseWork(c: Config, s: State, es: seq<Event>)
    requires NoSubmission(es)
    ensures MovesMade(c, s, es) + Work(After(c, s, es)) == Work(s)
  {
    if es != [] {
      var n := |es| - 1;
      MovesUseWork(c, s, es[..n]);
      if Enabled(c, After(c, s, es[..n]), es[n]) {
        WorkDrops(c, After(c, s, es[..n]), es[n]);
      }
    }
  }

  /** Nothing a worker could do is possible. */
  ghost predicate Quiet(c: Config, s: State) {
    forall e :: ByWorker(e) ==> !Enabled(c, s, e)
  }

  /** Queued, in a worker's hand, or finished. */
  ghost predicate OnItsWay(s: State, id: TaskId) {
    id in s.mem && (id in QueuedIds(s.queue) || id in HeldIds(s.workers) || Ended(s.mem[id]))
  }

  lemma OnItsWayTake(c: Config, s: State, w: nat, id: TaskId)
    requires Enabled(c, s, Take(w)) && OnItsWay(s, id)
    ensures OnItsWay(Next(c, s, Take(w)), id)
  {
    var t := Next(c, s, Take(w));
    assert t.workers[w].job.id == s.queue[0].id;
    assert forall i :: 1 <= i < |s.queue| ==> s.queue[i] == t.queue[i - 1];
    assert forall v :: 0 <= v < |s.workers| && v != w ==> t.workers[v] == s.workers[v];
  }

  lemma EndedNotHeld(c: Config, s: State, e: Event, id: TaskId)
    requires MemFits(s) && Enabled(c, s, e) && Saves(e) && id in s.mem && Ended(s.mem[id])
    ensures s.workers[e.w].job.id != id
  {
  }

  lemma UnsavedMemStays(c: Config, s: State, e: Event, id: TaskId)
    requires Domains(s) && Enabled(c, s, e) && id in s.mem && Ended(s.mem[id])
    requires Saves(e) ==> s.workers[e.w].job.id != id
    ensures id in Next(c, s, e).mem && Next(c, s, e).mem[id] == s.mem[id]
  {
  }

  lemma EndedMemStays(c: Config, s: State, e: Event, id: TaskId)
    requires Inv(c, s) && Enabled(c, s, e) && id in s.mem && Ended(s.mem[id])
    ensures id in Next(c, s, e).mem && Ended(Next(c, s, e).mem[id])
  {
    if Saves(e) {
      EndedNotHeld(c, s, e, id);
    }
    UnsavedMemStays(c, s, e, id);
  }

  lemma HeldOnItsWay(c: Config, s: State, e: Event, w: nat)
    requires Domains(s) && MemFits(s) && Enabled(c, s, e) && !Moves(e) && w < |s.workers| && s.workers[w].Busy?
    ensures OnItsWay(Next(c, s, e), s.workers[w].job.id)
  {
    HeldUntilReleased(c, s, e, w);
    assert e != Release(w) ==> s.workers[w].job.id in HeldIds(Next(c, s, e).workers);
  }

  lemma OnItsWayKept(c: Config, s: State, e: Event, id: TaskId)
    requires Inv(c, s) && Enabled(c, s, e) && !Submits(e) && OnItsWay(s, id)
    ensures OnItsWay(Next(c, s, e), id)
  {
    if e.Take? {
      OnItsWayTake(c, s, e.w, id);
    } else {
      JobsStay(c, s, e);
      if Ended(s.mem[id]) {
        EndedMemStays(c, s, e, id);
      } else if w: nat :| w < |s.workers| && s.workers[w].Busy? && s.workers[w].job.id == id {
        HeldOnItsWay(c, s, e, w);
      }
    }
  }

  lemma {:induction false} OnItsWayAfter(c: Config, s: State, es: seq<Event>, id: TaskId)
    requires Inv(c, s) && NoSubmission(es) && OnItsWay(s, id)
    ensures OnItsWay(After(c, s, es), id)
  {
    if es != [] {
      var n := |es| - 1;
      OnItsWayAfter(c, s, es[..n], id);
      InvAfter(c, s, es[..n]);
      if Enabled(c, After(c, s, es[..n]), es[n]) {
        OnItsWayKept(c, After(c, s, es[..n]), es[n], id);
      }
    }
  }

  lemma StepPool(c: Config, s: State, e: Event)
    ensures |Step(c, s, e).workers| == |s.workers|
  {
  }

  lemma {:induction false} PoolKept(c: Config, s: State, es: seq<Event>)
    ensures |After(c, s, es).workers| == |s.workers|
  {
    if es != [] {
      PoolKept(c, s, es[..|es| - 1]);
      StepPool(c, After(c, s, es[..|es| - 1]), es[|es| - 1]);
    }
  }

  lemma QuietHasNoWork(c: Config, s: State, w: nat)
    requires Inv(c, s) && c.cap > 0 && |s.workers| > 0 && Quiet(c, s)
    ensures s.queue == [] && (w < |s.workers| ==> s.workers[w].Idle?)
  {
    if Work(s) > 0 {
      var e := SomeWorkerMoves(c, s);
    } else if w < |s.workers| && s.workers[w].Busy? {
      BusyHasWork(s.workers, w);
    }
  }

  lemma QuietHasEnded(c: Config, s: State, id: TaskId)
    requires Inv(c, s) && c.reliable && c.cap > 0 && |s.workers| > 0 && Quiet(c, s) && OnItsWay(s, id)
    ensures id in s.rows && Ended(s.rows[id])
  {
    QuietHasNoWork(c, s, 0);
    if w: nat :| w < |s.workers| && s.workers[w].Busy? && s.workers[w].job.id == id {
      QuietHasNoWork(c, s, w);
    }
  }

  /**
   Once submissions stop and writes succeed, however workers and cancels interleave: when no worker
   can act any more, every task that was queued or held has ended in success or failed.
   */
  lemma QueuedTasksEnd(c: Config, s: State, es: seq<Event>, id: TaskId)
    requires Inv(c, s) && c.reliable && c.cap > 0 && |s.workers| > 0
    requires NoSubmission(es) && OnItsWay(s, id) && Quiet(c, After(c, s, es))
    ensures id in After(c, s, es).rows && Ended(After(c, s, es).rows[id])
  {
    var t := After(c, s, es);
    InvAfter(c, s, es);
    PoolKept(c, s, es);
    OnItsWayAfter(c, s, es, id);
    QuietHasEnded(c, t, id);
  }

  lemma AfterCons(c: Config, s: State, e: Event, rest: seq<Event>)
    ensures After(c, s, [e] + rest) == After(c, Step(c, s, e), rest)
  {
    AfterConcat(c, s, [e], rest);
    AfterSnoc(c, s, [], e);
    assert [] + [e] == [e];
  }

  lemma MovedOn(c: Config, s: State, e: Event)
    requires Enabled(c, s, e) && ByWorker(e)
    ensures |Step(c, s, e).workers| == |s.workers| && Work(Step(c, s, e)) == Work(s) - 1
  {
    StepPool(c, s, e);
    WorkDrops(c, s, e);
  }

  lemma MoveOn(c: Config, s: State) returns (e: Event, t: State)
    requires Inv(c, s) && c.cap > 0 && |s.workers| > 0 && Work(s) > 0
    ensures ByWorker(e) && t == Step(c, s, e)
    ensures Inv(c, t) && |t.workers| == |s.workers| && Work(t) == Work(s) - 1
  {
    e := SomeWorkerMoves(c, s);
    t := Step(c, s, e);
    MovedOn(c, s, e);
    InvKept(c, s, e);
  }

  /** Such a quiet state is always within reach: as many worker actions as there is work lead to it. */
  lemma {:induction false} CanDrain(c: Config, s: State) returns (es: seq<Event>)
    requires Inv(c, s) && c.cap > 0 && |s.workers| > 0
    ensures |es| == Work(s) && (forall i :: 0 <= i < |es| ==> ByWorker(es[i]))
    ensures Work(After(c, s, es)) == 0
    decreases Work(s)
  {
    if Work(s) == 0 {
      es := [];
    } else {
      var e, t := MoveOn(c, s);
      var rest := CanDrain(c, t);
      AfterCons(c, s, e, rest);
      es := [e] + rest;
    }
  }
}
