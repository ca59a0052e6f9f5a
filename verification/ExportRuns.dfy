/** Properties of whole runs of the export pipeline, started with any pool on an empty table. */
module ExportRuns {
  import opened Options
  import opened ExportModel
  import opened ExportSafety

  function Run(c: Config, pool: nat, now: int, es: seq<Event>): State {
    After(c, Initial(pool, now), es)
  }

  lemma RunInv(c: Config, pool: nat, now: int, es: seq<Event>)
    ensures Inv(c, Run(c, pool, now, es))
  {
    InvInitial(c, pool, now);
    InvAfter(c, Initial(pool, now), es);
  }

  /** In every interleaving a user's semaphore counts exactly the workers inside, at most cap of them. */
  lemma SemaphoreCountsWorkers(c: Config, pool: nat, now: int, es: seq<Event>, user: int)
    ensures var s := Run(c, pool, now, es);
            Slots(s, user) == Inside(s.workers, user) <= c.cap
  {
    RunInv(c, pool, now, es);
  }

  // ----- one place, one processing -----

  function QueuedIds(q: seq<Job>): set<TaskId> {
    set i | 0 <= i < |q| :: q[i].id
  }

  function HeldIds(ws: seq<Worker>): set<TaskId> {
    set w | 0 <= w < |ws| && ws[w].Busy? :: ws[w].job.id
  }

  lemma OnePlacePerTask(c: Config, pool: nat, now: int, es: seq<Event>)
    ensures var s := Run(c, pool, now, es);
            && QueuedIds(s.queue) !! HeldIds(s.workers) !! s.created !! s.admitted.Keys
            && (forall i, j :: 0 <= i < j < |s.queue| ==> s.queue[i].id != s.queue[j].id)
            && (forall w, v :: 0 <= w < v < |s.workers| && s.workers[w].Busy? && s.workers[v].Busy? ==>
                 s.workers[w].job.id != s.workers[v].job.id)
  {
    RunInv(c, pool, now, es);
  }

  /** The tasks that workers took off the queue, in order. */
  function TakenIds(c: Config, s: State, es: seq<Event>): seq<TaskId> {
    if es == [] then [] else
      var n := |es| - 1;
      var before := After(c, s, es[..n]);
      TakenIds(c, s, es[..n]) + (if es[n].Take? && Enabled(c, before, es[n]) then [before.queue[0].id] else [])
  }

  predicate Distinct<T(==)>(xs: seq<T>) {
    forall i, j :: 0 <= i < j < |xs| ==> xs[i] != xs[j]
  }

  ghost predicate Gone(s: State, ids: seq<TaskId>) {
    forall i :: 0 <= i < |ids| ==> ids[i] in s.mem && ids[i] !in s.created && ids[i] !in QueuedIds(s.queue)
  }

  lemma GoneByPush(c: Config, s: State, e: Event, ids: seq<TaskId>)
    requires Gone(s, ids) && Enabled(c, s, e) && e.Push?
    ensures Gone(Next(c, s, e), ids)
  {
    assert QueuedIds(Next(c, s, e).queue) <= QueuedIds(s.queue) + {e.id};
  }

  lemma GoneKept(c: Config, s: State, e: Event, ids: seq<TaskId>)
    requires Domains(s) && Gone(s, ids) && Enabled(c, s, e) && !e.Take?
    ensures Gone(Next(c, s, e), ids)
  {
    if e.Push? {
      GoneByPush(c, s, e, ids);
    } else if e.Create? {
      assert e.id !in s.mem;
    } else {
      JobsStay(c, s, e);
    }
  }

  lemma GoneTake(c: Config, s: State, w: nat, ids: seq<TaskId>)
    requires Inv(c, s) && Gone(s, ids) && Distinct(ids) && Enabled(c, s, Take(w))
    ensures Gone(Next(c, s, Take(w)), ids + [s.queue[0].id])
    ensures Distinct(ids + [s.queue[0].id])
  {
    var t := Next(c, s, Take(w));
    assert QueuedIds(t.queue) <= QueuedIds(s.queue);
    assert s.queue[0].id in QueuedIds(s.queue);
  }

  lemma {:induction false} TakenGone(c: Config, s: State, es: seq<Event>)
    requires Inv(c, s)
    ensures Gone(After(c, s, es), TakenIds(c, s, es)) && Distinct(TakenIds(c, s, es))
  {
    if es != [] {
      var n := |es| - 1;
      TakenGone(c, s, es[..n]);
      InvAfter(c, s, es[..n]);
      var before := After(c, s, es[..n]);
      if Enabled(c, before, es[n]) {
        if es[n].Take? {
          GoneTake(c, before, es[n].w, TakenIds(c, s, es[..n]));
        } else {
          GoneKept(c, before, es[n], TakenIds(c, s, es[..n]));
        }
      }
    }
  }

  /** No task is taken by a worker twice, so none is processed twice. */
  lemma TakenAtMostOnce(c: Config, pool: nat, now: int, es: seq<Event>)
    ensures Distinct(TakenIds(c, Initial(pool, now), es))
  {
    InvInitial(c, pool, now);
    TakenGone(c, Initial(pool, now), es);
  }

  // ----- the status graph -----

  predicate Edge(a: Status, b: Status) {
    || (a == Pending && b == Running)
    || (a == Pending && b == Cancelled)
    || (a == Cancelled && b == Running)
    || (a == Running && (b == Success || b == Failed))
  }

  /** Edges that appear only when a write of the table fails. */
  predicate LostWriteEdge(a: Status, b: Status) {
    (a == Pending || a == Cancelled) && (b == Success || b == Failed)
  }

  /** A single action moves a row only along the graph; a cancelled row runs again only from a worker's hand. */
  ghost predicate StepsAlong(c: Config, s: State, e: Event, t: State, id: TaskId)
    requires id in s.rows
  {
    && id in t.rows
    && var a, b := s.rows[id].status, t.rows[id].status;
       && (a == b || Edge(a, b) || (!c.reliable && LostWriteEdge(a, b)))
       && (a == Cancelled && b == Running ==> e.SaveRunning? && AtStage(s, e.w, Entered) && s.workers[e.w].job.id == id)
  }

  lemma SaveRunningEdges(c: Config, s: State, e: Event, id: TaskId)
    requires Inv(c, s) && id in s.rows && Enabled(c, s, e) && e.SaveRunning?
    ensures StepsAlong(c, s, e, Next(c, s, e), id)
  {
  }

  lemma SaveFinalEdges(c: Config, s: State, e: Event, id: TaskId)
    requires Inv(c, s) && id in s.rows && Enabled(c, s, e) && e.SaveFinal?
    ensures StepsAlong(c, s, e, Next(c, s, e), id)
  {
  }

  lemma OtherEdges(c: Config, s: State, e: Event, id: TaskId)
    requires Domains(s) && id in s.rows && Enabled(c, s, e) && !Saves(e)
    ensures StepsAlong(c, s, e, Next(c, s, e), id)
  {
  }

  lemma StepEdges(c: Config, s: State, e: Event, id: TaskId)
    requires Inv(c, s) && id in s.rows
    ensures StepsAlong(c, s, e, Step(c, s, e), id)
  {
    if Enabled(c, s, e) {
      if e.SaveRunning? {
        SaveRunningEdges(c, s, e, id);
      } else if e.SaveFinal? {
        SaveFinalEdges(c, s, e, id);
      } else {
        OtherEdges(c, s, e, id);
      }
    }
  }

  lemma EndedNotSaved(c: Config, s: State, e: Event, id: TaskId)
    requires Inv(c, s) && id in s.rows && Ended(s.rows[id]) && Enabled(c, s, e) && Saves(e)
    ensures s.workers[e.w].job.id != id
  {
  }

  lemma UnsavedRowStays(c: Config, s: State, e: Event, id: TaskId)
    requires Domains(s) && id in s.rows && Ended(s.rows[id]) && Enabled(c, s, e)
    requires Saves(e) ==> s.workers[e.w].job.id != id
    ensures id in Next(c, s, e).rows && Next(c, s, e).rows[id] == s.rows[id]
  {
  }

  /** A row in a final status is never written again. */
  lemma EndedStepFixed(c: Config, s: State, e: Event, id: TaskId)
    requires Inv(c, s) && id in s.rows && Ended(s.rows[id])
    ensures id in Step(c, s, e).rows && Step(c, s, e).rows[id] == s.rows[id]
  {
    if Enabled(c, s, e) {
      if Saves(e) {
        EndedNotSaved(c, s, e, id);
      }
      UnsavedRowStays(c, s, e, id);
    }
  }

  lemma {:induction false} EndedForever(c: Config, s: State, es: seq<Event>, id: TaskId)
    requires Inv(c, s) && id in s.rows && Ended(s.rows[id])
    ensures id in After(c, s, es).rows && After(c, s, es).rows[id] == s.rows[id]
  {
    if es != [] {
      var n := |es| - 1;
      EndedForever(c, s, es[..n], id);
      InvAfter(c, s, es[..n]);
      EndedStepFixed(c, After(c, s, es[..n]), es[n], id);
    }
  }

  lemma EndedIsAbsorbing(c: Config, pool: nat, now: int, es: seq<Event>, more: seq<Event>, id: TaskId)
    requires id in Run(c, pool, now, es).rows && Ended(Run(c, pool, now, es).rows[id])
    ensures id in Run(c, pool, now, es + more).rows
    ensures Run(c, pool, now, es + more).rows[id] == Run(c, pool, now, es).rows[id]
  {
    RunInv(c, pool, now, es);
    AfterConcat(c, Initial(pool, now), es, more);
    EndedForever(c, Run(c, pool, now, es), more, id);
  }

  /** Progress, times, message and file of every row agree with its status. */
  lemma RowsAgree(c: Config, pool: nat, now: int, es: seq<Event>, id: TaskId)
    requires id in Run(c, pool, now, es).rows
    ensures Agrees(Run(c, pool, now, es).rows[id], Run(c, pool, now, es).now)
  {
    RunInv(c, pool, now, es);
  }

  /** The status change from a to b happens in the last action of the run. */
  ghost predicate Realizes(c: Config, pool: nat, now: int, es: seq<Event>, e: Event, id: TaskId, a: Status, b: Status) {
    var s, t := Run(c, pool, now, es), Run(c, pool, now, es + [e]);
    id in s.rows && id in t.rows && s.rows[id].status == a && t.rows[id].status == b
  }

  function BusyEvents(id: TaskId, cancel: bool): seq<Event> {
    [Admit(id, 7), Create(id), Push(id)] + (if cancel then [Cancel(id, "op")] else []) +
    [Take(0), GetSem(0), Acquire(0)]
  }

  lemma AfterSnoc(c: Config, s: State, es: seq<Event>, e: Event)
    ensures After(c, s, es + [e]) == Step(c, After(c, s, es), e)
  {
    assert (es + [e])[..|es|] == es;
  }

  function Queued(id: TaskId, row: Task): State {
    State(0, map[], {}, [Job(id, 7)], map[], [Idle], map[id := NewTask(7)], map[id := row])
  }

  function InHand(id: TaskId, stage: Stage, sems: map<int, nat>, task: Task, row: Task): State {
    State(0, map[], {}, [], sems, [Busy(Job(id, 7), stage)], map[id := task], map[id := row])
  }

  function One(reliable: bool): Config {
    Config(1, 1, reliable)
  }

  lemma ThreeSteps(c: Config, s: State, e1: Event, e2: Event, e3: Event)
    ensures After(c, s, [e1, e2, e3]) == Step(c, Step(c, Step(c, s, e1), e2), e3)
  {
    assert [e1, e2, e3] == ([] + [e1] + [e2]) + [e3];
    AfterSnoc(c, s, [], e1);
    AfterSnoc(c, s, [] + [e1], e2);
    AfterSnoc(c, s, [] + [e1] + [e2], e3);
  }

  function Submitting(id: TaskId): State {
    State(0, map[id := 7], {}, [], map[], [Idle], map[], map[])
  }

  function Written(id: TaskId): State {
    State(0, map[], {id}, [], map[], [Idle], map[id := NewTask(7)], map[id := NewTask(7)])
  }

  lemma AdmitStep(r: bool, id: TaskId)
    ensures Step(One(r), Initial(1, 0), Admit(id, 7)) == Submitting(id)
  {
    assert RunningIds(Initial(1, 0).rows, 7) == {};
    assert Initial(1, 0).workers == [Idle];
  }

  lemma CreateStep(r: bool, id: TaskId)
    ensures Step(One(r), Submitting(id), Create(id)) == Written(id)
  {
  }

  lemma PushStep(r: bool, id: TaskId)
    ensures Step(One(r), Written(id), Push(id)) == Queued(id, NewTask(7))
  {
  }

  lemma QueuedRun(r: bool, id: TaskId)
    ensures Run(One(r), 1, 0, [Admit(id, 7), Create(id), Push(id)]) == Queued(id, NewTask(7))
  {
    ThreeSteps(One(r), Initial(1, 0), Admit(id, 7), Create(id), Push(id));
    AdmitStep(r, id);
    CreateStep(r, id);
    PushStep(r, id);
  }

  lemma TakeStep(r: bool, id: TaskId, row: Task)
    ensures Step(One(r), Queued(id, row), Take(0)) == InHand(id, Taken, map[], NewTask(7), row)
  {
  }

  lemma GetSemStep(r: bool, id: TaskId, row: Task)
    ensures Step(One(r), InHand(id, Taken, map[], NewTask(7), row), GetSem(0))
         == InHand(id, Waiting, map[7 := 0], NewTask(7), row)
  {
  }

  lemma AcquireStep(r: bool, id: TaskId, row: Task)
    ensures Step(One(r), InHand(id, Waiting, map[7 := 0], NewTask(7), row), Acquire(0))
         == InHand(id, Entered, map[7 := 1], NewTask(7), row)
  {
  }

  lemma EnterRun(r: bool, id: TaskId, row: Task)
    ensures After(One(r), Queued(id, row), [Take(0), GetSem(0), Acquire(0)])
         == InHand(id, Entered, map[7 := 1], NewTask(7), row)
  {
    ThreeSteps(One(r), Queued(id, row), Take(0), GetSem(0), Acquire(0));
    TakeStep(r, id, row);
    GetSemStep(r, id, row);
    AcquireStep(r, id, row);
  }

  /** Runs a single task up to a worker's hand, with or without a cancel while it is queued. */
  lemma BusyRun(r: bool, id: TaskId, cancel: bool)
    ensures Run(One(r), 1, 0, BusyEvents(id, cancel))
         == InHand(id, Entered, map[7 := 1], NewTask(7), if cancel then CancelRow(NewTask(7), 0, "op") else NewTask(7))
  {
    var s0 := Initial(1, 0);
    var submit := [Admit(id, 7), Create(id), Push(id)];
    var enter := [Take(0), GetSem(0), Acquire(0)];
    QueuedRun(r, id);
    if cancel {
      AfterSnoc(One(r), s0, submit, Cancel(id, "op"));
      var row := CancelRow(NewTask(7), 0, "op");
      assert After(One(r), s0, submit + [Cancel(id, "op")]) == Queued(id, row);
      EnterRun(r, id, row);
      AfterConcat(One(r), s0, submit + [Cancel(id, "op")], enter);
    } else {
      EnterRun(r, id, NewTask(7));
      AfterConcat(One(r), s0, submit, enter);
      assert submit + [] + enter == submit + enter;
    }
  }

  lemma SaveRunningStep(r: bool, id: TaskId, row: Task, saved: bool)
    requires r ==> saved
    ensures Step(One(r), InHand(id, Entered, map[7 := 1], NewTask(7), row), SaveRunning(0, saved))
         == InHand(id, Started, map[7 := 1], Begin(NewTask(7), 0), if saved then Begin(NewTask(7), 0) else row)
  {
  }

  lemma GenerateStep(r: bool, id: TaskId, task: Task, row: Task, out: Outcome)
    ensures Step(One(r), InHand(id, Started, map[7 := 1], task, row), Generate(0, out))
         == InHand(id, Generated(out), map[7 := 1], task, row)
  {
  }

  /** One generated statement later; without the write the row still lags. */
  lemma GeneratedRun(r: bool, id: TaskId, cancel: bool, saved: bool, out: Outcome)
    requires r ==> saved
    ensures Run(One(r), 1, 0, BusyEvents(id, cancel) + [SaveRunning(0, saved)] + [Generate(0, out)])
         == InHand(id, Generated(out), map[7 := 1], Begin(NewTask(7), 0),
                   if saved then Begin(NewTask(7), 0)
                   else if cancel then CancelRow(NewTask(7), 0, "op") else NewTask(7))
  {
    var s0, busy, begun := Initial(1, 0), BusyEvents(id, cancel), Begin(NewTask(7), 0);
    var row := if cancel then CancelRow(NewTask(7), 0, "op") else NewTask(7);
    BusyRun(r, id, cancel);
    AfterSnoc(One(r), s0, busy, SaveRunning(0, saved));
    SaveRunningStep(r, id, row, saved);
    AfterSnoc(One(r), s0, busy + [SaveRunning(0, saved)], Generate(0, out));
    GenerateStep(r, id, begun, if saved then begun else row, out);
  }

  lemma SaveFinalStep(r: bool, id: TaskId, row: Task, out: Outcome)
    ensures Step(One(r), InHand(id, Generated(out), map[7 := 1], Begin(NewTask(7), 0), row), SaveFinal(0, true))
         == (var end := Finish(Begin(NewTask(7), 0), 0, out); InHand(id, Saved, map[7 := 1], end, end))
  {
  }

  lemma EndOccurs(r: bool, a: Status, b: Status) returns (es: seq<Event>, e: Event)
    requires a == Running || (!r && (a == Pending || a == Cancelled))
    requires b == Success || b == Failed
    ensures Realizes(One(r), 1, 0, es, e, "t", a, b)
  {
    var out := if b == Success then Done("f", 1) else Broken("x");
    GeneratedRun(r, "t", a == Cancelled, a == Running, out);
    es := BusyEvents("t", a == Cancelled) + [SaveRunning(0, a == Running)] + [Generate(0, out)];
    e := SaveFinal(0, true);
    AfterSnoc(One(r), Initial(1, 0), es, e);
    SaveFinalStep(r, "t", Run(One(r), 1, 0, es).rows["t"], out);
  }

  lemma ChangeOccurs(r: bool, a: Status, b: Status) returns (es: seq<Event>, e: Event)
    requires (a == Pending && b == Cancelled) || ((a == Pending || a == Cancelled) && b == Running)
    ensures Realizes(One(r), 1, 0, es, e, "t", a, b)
  {
    BusyRun(r, "t", a == Cancelled);
    es := BusyEvents("t", a == Cancelled);
    e := if b == Cancelled then Cancel("t", "op") else SaveRunning(0, true);
    AfterSnoc(One(r), Initial(1, 0), es, e);
  }

  /** Every edge of the graph is taken by some run; the extra ones need a failed write. */
  lemma EdgeOccurs(r: bool, a: Status, b: Status) returns (es: seq<Event>, e: Event)
    requires Edge(a, b) || (!r && LostWriteEdge(a, b))
    ensures Realizes(One(r), 1, 0, es, e, "t", a, b)
  {
    if b == Success || b == Failed {
      es, e := EndOccurs(r, a, b);
    } else {
      es, e := ChangeOccurs(r, a, b);
    }
  }

  ghost predicate Happens(reliable: bool, a: Status, b: Status) {
    exists c: Config, pool: nat, now: int, es: seq<Event>, e: Event, id: TaskId ::
      c.reliable == reliable && Realizes(c, pool, now, es, e, id, a, b)
  }

  lemma HappensAlongEdges(reliable: bool, a: Status, b: Status)
    requires a != b && Happens(reliable, a, b)
    ensures Edge(a, b) || (!reliable && LostWriteEdge(a, b))
  {
    var c: Config, pool: nat, now: int, es: seq<Event>, e: Event, id: TaskId :|
      c.reliable == reliable && Realizes(c, pool, now, es, e, id, a, b);
    RunInv(c, pool, now, es);
    AfterSnoc(c, Initial(pool, now), es, e);
    StepEdges(c, Run(c, pool, now, es), e, id);
  }

  /**
   Exactly these status changes happen over all runs: cancelled is not terminal, and failed writes
   add the jumps from pending or cancelled straight to an end.
   */
  lemma EdgesExact(reliable: bool, a: Status, b: Status)
    requires a != b
    ensures Happens(reliable, a, b) <==> Edge(a, b) || (!reliable && LostWriteEdge(a, b))
  {
    if Edge(a, b) || (!reliable && LostWriteEdge(a, b)) {
      var es, e := EdgeOccurs(reliable, a, b);
      assert One(reliable).reliable == reliable;
    }
    if Happens(reliable, a, b) {
      HappensAlongEdges(reliable, a, b);
    }
  }

  // ----- the admission check against the semaphores -----

  function HeldBy(ws: seq<Worker>, user: int): set<TaskId> {
    set w | 0 <= w < |ws| && InSection(ws[w], user) :: ws[w].job.id
  }

  lemma HeldBySnoc(ws: seq<Worker>, wk: Worker, user: int)
    ensures HeldBy(ws + [wk], user) == HeldBy(ws, user) + (if InSection(wk, user) then {wk.job.id} else {})
  {
    var all := ws + [wk];
    forall id | id in HeldBy(ws, user) ensures id in HeldBy(all, user) {
      var w :| 0 <= w < |ws| && InSection(ws[w], user) && ws[w].job.id == id;
      assert all[w] == ws[w];
    }
    if InSection(wk, user) {
      assert all[|ws|] == wk;
    }
  }

  lemma {:induction false} HeldByBounded(ws: seq<Worker>, user: int)
    ensures |HeldBy(ws, user)| <= Inside(ws, user)
  {
    if ws != [] {
      var n := |ws| - 1;
      HeldByBounded(ws[..n], user);
      HeldBySnoc(ws[..n], ws[n], user);
      assert ws == ws[..n] + [ws[n]];
    }
  }

  /** A running row whose write did not fail is in a worker's hand. */
  ghost predicate RunningHeld(s: State) {
    forall id :: id in s.mem && s.mem[id].status == Running ==> id in HeldBy(s.workers, s.mem[id].user)
  }

  lemma HeldByKept(ws: seq<Worker>, w: nat, wk: Worker, user: int, id: TaskId)
    requires w < |ws| && id in HeldBy(ws, user)
    requires InSection(ws[w], user) && ws[w].job.id == id ==> InSection(wk, user) && wk.job.id == id
    ensures id in HeldBy(ws[w := wk], user)
  {
    var v :| 0 <= v < |ws| && InSection(ws[v], user) && ws[v].job.id == id;
    assert InSection(ws[w := wk][v], user) && ws[w := wk][v].job.id == id;
  }

  /** One worker moves on; the tasks the others hold stay held. */
  lemma RunningHeldMove(s: State, t: State, w: nat)
    requires RunningHeld(s) && w < |s.workers| && |t.workers| == |s.workers| && t.workers == s.workers[w := t.workers[w]]
    requires forall id :: id in t.mem && t.mem[id].status == Running ==>
               || (id in s.mem && s.mem[id] == t.mem[id])
               || (InSection(t.workers[w], t.mem[id].user) && t.workers[w].job.id == id)
    requires forall id :: id in t.mem && t.mem[id].status == Running && InSection(s.workers[w], t.mem[id].user) && s.workers[w].job.id == id
               ==> InSection(t.workers[w], t.mem[id].user) && t.workers[w].job.id == id
    ensures RunningHeld(t)
  {
    forall id | id in t.mem && t.mem[id].status == Running
      ensures id in HeldBy(t.workers, t.mem[id].user)
    {
      if !(InSection(t.workers[w], t.mem[id].user) && t.workers[w].job.id == id) {
        HeldByKept(s.workers, w, t.workers[w], t.mem[id].user, id);
      }
    }
  }

  lemma RunningHeldStage(c: Config, s: State, e: Event)
    requires RunningHeld(s) && Enabled(c, s, e)
    requires e.GetSem? || e.Acquire? || e.Generate?
    ensures RunningHeld(Next(c, s, e))
  {
    RunningHeldMove(s, Next(c, s, e), e.w);
  }

  lemma RunningHeldEnds(c: Config, s: State, e: Event)
    requires Inv(c, s) && RunningHeld(s) && Enabled(c, s, e)
    requires e.Take? || e.Release?
    ensures RunningHeld(Next(c, s, e))
  {
    RunningHeldMove(s, Next(c, s, e), e.w);
  }

  lemma RunningHeldSave(c: Config, s: State, e: Event)
    requires Domains(s) && MemFits(s) && RunningHeld(s) && Enabled(c, s, e) && Saves(e)
    ensures RunningHeld(Next(c, s, e))
  {
    RunningHeldMove(s, Next(c, s, e), e.w);
  }

  lemma RunningHeldKept(c: Config, s: State, e: Event)
    requires Inv(c, s) && RunningHeld(s) && Enabled(c, s, e)
    ensures RunningHeld(Next(c, s, e))
  {
    if e.GetSem? || e.Acquire? || e.Generate? {
      RunningHeldStage(c, s, e);
    } else if e.Take? || e.Release? {
      RunningHeldEnds(c, s, e);
    } else if Saves(e) {
      RunningHeldSave(c, s, e);
    }
  }

  lemma {:induction false} RunningHeldAfter(c: Config, pool: nat, now: int, es: seq<Event>)
    ensures RunningHeld(Run(c, pool, now, es))
  {
    if es != [] {
      var n := |es| - 1;
      RunningHeldAfter(c, pool, now, es[..n]);
      RunInv(c, pool, now, es[..n]);
      if Enabled(c, Run(c, pool, now, es[..n]), es[n]) {
        RunningHeldKept(c, Run(c, pool, now, es[..n]), es[n]);
      }
    }
  }

  /** While no write fails, the rows the admission check counts never exceed the slots really held. */
  lemma RunningRowsWithinSlots(c: Config, pool: nat, now: int, es: seq<Event>, user: int)
    requires c.reliable
    ensures var s := Run(c, pool, now, es);
            |RunningIds(s.rows, user)| <= Slots(s, user) <= c.cap
  {
    var s := Run(c, pool, now, es);
    RunInv(c, pool, now, es);
    RunningHeldAfter(c, pool, now, es);
    assert RunningIds(s.rows, user) <= HeldBy(s.workers, user);
    SubsetSize(RunningIds(s.rows, user), HeldBy(s.workers, user));
    HeldByBounded(s.workers, user);
  }

  // ----- refused submissions -----

  ghost predicate Live(s: State, id: TaskId) {
    id in s.admitted || id in s.created || id in QueuedIds(s.queue) || id in HeldIds(s.workers)
  }

  /** A row that waits although nothing will ever pick its task up. */
  ghost predicate Orphan(s: State, id: TaskId) {
    id in s.mem && s.mem[id].status == Pending && !Live(s, id)
  }

  /** A push refused by a full queue makes an orphan. */
  lemma RefusedPushOrphans(c: Config, s: State, id: TaskId)
    requires Inv(c, s) && Enabled(c, s, Push(id)) && |s.queue| >= c.queueSize
    ensures Orphan(Next(c, s, Push(id)), id)
  {
  }

  lemma AcceptedIsQueued(c: Config, s: State, e: Event)
    requires Enabled(c, s, e) && e.Push? && |s.queue| < c.queueSize
    ensures e.id in QueuedIds(Next(c, s, e).queue) && QueuedIds(s.queue) <= QueuedIds(Next(c, s, e).queue)
  {
    var t := Next(c, s, e);
    assert t.queue[|s.queue|].id == e.id;
    assert forall i :: 0 <= i < |s.queue| ==> t.queue[i] == s.queue[i];
  }

  lemma NewOrphanByPush(c: Config, s: State, e: Event, id: TaskId)
    requires Inv(c, s) && Enabled(c, s, e) && e.Push?
    requires !Orphan(s, id) && Orphan(Next(c, s, e), id)
    ensures e.id == id && |s.queue| >= c.queueSize
  {
    if |s.queue| < c.queueSize {
      AcceptedIsQueued(c, s, e);
    }
  }

  lemma NoOrphanByTake(c: Config, s: State, e: Event, id: TaskId)
    requires Inv(c, s) && Enabled(c, s, e) && e.Take? && Orphan(Next(c, s, e), id)
    ensures Orphan(s, id)
  {
    var t := Next(c, s, e);
    assert t.workers[e.w].job.id == s.queue[0].id;
    assert forall i :: 1 <= i < |s.queue| ==> s.queue[i] == t.queue[i - 1];
    assert forall v :: 0 <= v < |s.workers| && v != e.w ==> t.workers[v] == s.workers[v];
  }

  lemma HeldUntilReleased(c: Config, s: State, e: Event, w: nat)
    requires Enabled(c, s, e) && !Moves(e) && w < |s.workers| && s.workers[w].Busy?
    ensures e == Release(w) || (Next(c, s, e).workers[w].Busy? && Next(c, s, e).workers[w].job == s.workers[w].job)
  {
  }

  lemma HeldStays(c: Config, s: State, e: Event, id: TaskId)
    requires Enabled(c, s, e) && !Moves(e) && id in HeldIds(s.workers)
    ensures id in HeldIds(Next(c, s, e).workers) || (e.Release? && s.workers[e.w].job.id == id)
  {
    var w: nat :| w < |s.workers| && s.workers[w].Busy? && s.workers[w].job.id == id;
    HeldUntilReleased(c, s, e, w);
    JobsStay(c, s, e);
  }

  lemma LiveStays(c: Config, s: State, e: Event, id: TaskId)
    requires Enabled(c, s, e) && !Moves(e) && Live(s, id)
    ensures Live(Next(c, s, e), id) || (e.Release? && s.workers[e.w].job.id == id)
  {
    JobsStay(c, s, e);
    if id in HeldIds(s.workers) {
      HeldStays(c, s, e, id);
    } else {
      assert s.admitted.Keys <= Next(c, s, e).admitted.Keys;
    }
  }

  lemma NoOrphanInPlace(c: Config, s: State, e: Event, id: TaskId)
    requires MemFits(s) && Enabled(c, s, e) && !Moves(e) && Orphan(Next(c, s, e), id)
    ensures Orphan(s, id)
  {
    PendingBefore(c, s, e, id);
    if Live(s, id) {
      LiveStays(c, s, e, id);
    }
  }

  lemma PendingBefore(c: Config, s: State, e: Event, id: TaskId)
    requires Enabled(c, s, e) && !Moves(e)
    requires id in Next(c, s, e).mem && Next(c, s, e).mem[id].status == Pending
    ensures id in s.mem && s.mem[id].status == Pending
  {
  }

  /** Only a push refused by a full queue makes an orphan. */
  lemma OrphanOnlyByRefusal(c: Config, s: State, e: Event, id: TaskId)
    requires Inv(c, s) && Enabled(c, s, e) && !Orphan(s, id) && Orphan(Next(c, s, e), id)
    ensures e == Push(id) && |s.queue| >= c.queueSize
  {
    if e.Push? {
      NewOrphanByPush(c, s, e, id);
    } else if e.Take? {
      NoOrphanByTake(c, s, e, id);
    } else if !e.Create? {
      NoOrphanInPlace(c, s, e, id);
    }
  }

  lemma OrphanByPush(c: Config, s: State, e: Event, id: TaskId)
    requires Domains(s) && Orphan(s, id) && Enabled(c, s, e) && e.Push?
    ensures Orphan(Next(c, s, e), id)
  {
    assert QueuedIds(Next(c, s, e).queue) <= QueuedIds(s.queue) + {e.id};
  }

  lemma OrphanByTake(c: Config, s: State, e: Event, id: TaskId)
    requires Domains(s) && Orphan(s, id) && Enabled(c, s, e) && e.Take?
    ensures Orphan(Next(c, s, e), id)
  {
    var t := Next(c, s, e);
    assert s.queue[0].id in QueuedIds(s.queue);
    assert QueuedIds(t.queue) <= QueuedIds(s.queue);
    assert HeldIds(t.workers) <= HeldIds(s.workers) + {s.queue[0].id};
  }

  lemma OrphanByOther(c: Config, s: State, e: Event, id: TaskId)
    requires Domains(s) && Orphan(s, id) && Enabled(c, s, e) && !e.Push? && !e.Take?
    ensures Orphan(Next(c, s, e), id)
  {
    if !e.Create? {
      JobsStay(c, s, e);
      assert HeldIds(Next(c, s, e).workers) <= HeldIds(s.workers);
    }
  }

  lemma OrphanStays(c: Config, s: State, e: Event, id: TaskId)
    requires Inv(c, s) && Orphan(s, id)
    ensures Orphan(Step(c, s, e), id)
  {
    if Enabled(c, s, e) {
      if e.Push? {
        OrphanByPush(c, s, e, id);
      } else if e.Take? {
        OrphanByTake(c, s, e, id);
      } else {
        OrphanByOther(c, s, e, id);
      }
    }
  }

  lemma OrphanRow(c: Config, s: State, id: TaskId)
    requires Inv(c, s) && Orphan(s, id)
    ensures id in s.rows && (s.rows[id].status == Pending || s.rows[id].status == Cancelled)
  {
  }

  lemma {:induction false} OrphanAfter(c: Config, s: State, es: seq<Event>, id: TaskId)
    requires Inv(c, s) && Orphan(s, id)
    ensures Orphan(After(c, s, es), id)
  {
    if es != [] {
      var n := |es| - 1;
      OrphanAfter(c, s, es[..n], id);
      InvAfter(c, s, es[..n]);
      OrphanStays(c, After(c, s, es[..n]), es[n], id);
    }
  }

  /** An orphan stays pending, or is cancelled by hand; it never runs, whatever happens later. */
  lemma OrphanForever(c: Config, s: State, es: seq<Event>, id: TaskId)
    requires Inv(c, s) && Orphan(s, id)
    ensures Orphan(After(c, s, es), id)
    ensures id in After(c, s, es).rows
    ensures After(c, s, es).rows[id].status == Pending || After(c, s, es).rows[id].status == Cancelled
  {
    OrphanAfter(c, s, es, id);
    InvAfter(c, s, es);
    OrphanRow(c, After(c, s, es), id);
  }
}
