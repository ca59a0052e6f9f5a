/**
 What every action of the export pipeline keeps, and what follows over whole runs: the semaphores
 count exactly the workers inside, a task is in one place at a time, and a row says only what its
 task went through.
 */
module ExportSafety {
  import opened Options
  import opened ExportModel

  // ----- the workers inside a user's critical section -----

  predicate InSection(wk: Worker, user: int) {
    wk.Busy? && wk.job.user == user && wk.stage != Taken && wk.stage != Waiting
  }

  function Inside(ws: seq<Worker>, user: int): nat {
    if ws == [] then 0 else Inside(ws[..|ws| - 1], user) + (if InSection(ws[|ws| - 1], user) then 1 else 0)
  }

  lemma {:induction false} InsideUpdate(ws: seq<Worker>, w: nat, wk: Worker, user: int)
    requires w < |ws|
    ensures Inside(ws[w := wk], user) + (if InSection(ws[w], user) then 1 else 0)
         == Inside(ws, user) + (if InSection(wk, user) then 1 else 0)
  {
    var n := |ws| - 1;
    if w < n {
      assert ws[w := wk][..n] == ws[..n][w := wk];
      InsideUpdate(ws[..n], w, wk, user);
    } else {
      assert ws[w := wk][..n] == ws[..n];
    }
  }

  lemma {:induction false} InsideWitness(ws: seq<Worker>, user: int) returns (w: nat)
    requires Inside(ws, user) > 0
    ensures w < |ws| && InSection(ws[w], user)
  {
    w := |ws| - 1;
    if !InSection(ws[w], user) {
      w := InsideWitness(ws[..|ws| - 1], user);
    }
  }

  // ----- the invariant, one concern at a time -----

  ghost predicate Domains(s: State) {
    && s.mem.Keys == s.rows.Keys
    && s.admitted.Keys !! s.mem.Keys
    && s.created <= s.mem.Keys
    && (forall i :: 0 <= i < |s.queue| ==> s.queue[i].id in s.mem && s.mem[s.queue[i].id].user == s.queue[i].user)
    && (forall w :: 0 <= w < |s.workers| && s.workers[w].Busy? ==>
         s.workers[w].job.id in s.mem && s.mem[s.workers[w].job.id].user == s.workers[w].job.user)
    && (forall id :: id in s.rows ==> s.rows[id].user == s.mem[id].user)
  }

  /** A task is being submitted, or queued once, or held by one worker: never two of these. */
  ghost predicate Places(s: State) {
    && (forall i, j :: 0 <= i < j < |s.queue| ==> s.queue[i].id != s.queue[j].id)
    && (forall w, v :: 0 <= w < v < |s.workers| && s.workers[w].Busy? && s.workers[v].Busy? ==>
         s.workers[w].job.id != s.workers[v].job.id)
    && (forall i, w :: 0 <= i < |s.queue| && 0 <= w < |s.workers| && s.workers[w].Busy? ==>
         s.queue[i].id != s.workers[w].job.id)
    && (forall i :: 0 <= i < |s.queue| ==> s.queue[i].id !in s.created)
    && (forall w :: 0 <= w < |s.workers| && s.workers[w].Busy? ==> s.workers[w].job.id !in s.created)
  }

  ghost predicate SemsExact(c: Config, s: State) {
    && (forall user :: Slots(s, user) == Inside(s.workers, user))
    && (forall user :: Slots(s, user) <= c.cap)
    && SemsMade(s)
  }

  /** Past its first stage a worker's user has a semaphore. */
  ghost predicate SemsMade(s: State) {
    forall w :: 0 <= w < |s.workers| && s.workers[w].Busy? && s.workers[w].stage != Taken ==>
      s.workers[w].job.user in s.sems
  }

  predicate Ended(t: Task) {
    t.status == Success || t.status == Failed
  }

  /** What a row or task object may look like in each status. */
  predicate Agrees(t: Task, now: int) {
    match t.status
    case Pending => t == NewTask(t.user)
    case Running =>
      && t.started.Some? && t.started.value <= now && t.finished == None
      && t.progress == 0 && t.err == "" && t.file == "" && t.size == 0
    case Success =>
      && t.started.Some? && t.finished.Some? && t.started.value <= t.finished.value <= now
      && t.progress == 100 && t.err == ""
    case Failed =>
      && t.started.Some? && t.finished.Some? && t.started.value <= t.finished.value <= now
      && t.progress == 0 && t.file == "" && t.size == 0
    case Cancelled =>
      && t.started == None && t.finished.Some? && t.finished.value <= now
      && t.progress == 0 && t.file == "" && t.size == 0 && "cancelled by " <= t.err
  }

  ghost predicate Agreement(s: State) {
    && (forall id :: id in s.mem ==> Agrees(s.mem[id], s.now) && s.mem[id].status != Cancelled)
    && (forall id :: id in s.rows ==> Agrees(s.rows[id], s.now))
  }

  /** The status of the task object follows the worker that holds it. */
  predicate StageFits(stage: Stage, t: Task) {
    match stage
    case Taken => t.status == Pending
    case Waiting => t.status == Pending
    case Entered => t.status == Pending
    case Started => t.status == Running
    case Generated(_) => t.status == Running
    case Saved => Ended(t)
  }

  ghost predicate MemFits(s: State) {
    && (forall id :: id in s.created && id in s.mem ==> s.mem[id].status == Pending)
    && (forall i :: 0 <= i < |s.queue| && s.queue[i].id in s.mem ==> s.mem[s.queue[i].id].status == Pending)
    && (forall w :: 0 <= w < |s.workers| && s.workers[w].Busy? && s.workers[w].job.id in s.mem ==>
         StageFits(s.workers[w].stage, s.mem[s.workers[w].job.id]))
  }

  /** The row is the task object, or lags behind it after a cancel or a failed write. */
  predicate RowFollows(c: Config, row: Task, t: Task) {
    || row == t
    || (t.status == Pending && row.status == Cancelled)
    || (!c.reliable && t.status != Pending && (row.status == Pending || row.status == Cancelled))
    || (!c.reliable && Ended(t) && row.status == Running)
  }

  ghost predicate RowsFollow(c: Config, s: State) {
    forall id :: id in s.rows && id in s.mem ==> RowFollows(c, s.rows[id], s.mem[id])
  }

  ghost predicate Inv(c: Config, s: State) {
    Domains(s) && Places(s) && SemsExact(c, s) && Agreement(s) && MemFits(s) && RowsFollow(c, s)
  }

  predicate Saves(e: Event) {
    e.SaveRunning? || e.SaveFinal?
  }

  lemma DomainsByMove(c: Config, s: State, e: Event)
    requires Domains(s) && Enabled(c, s, e) && Moves(e)
    ensures Domains(Next(c, s, e))
  {
  }

  lemma DomainsByOther(c: Config, s: State, e: Event)
    requires Domains(s) && Enabled(c, s, e) && !Moves(e)
    ensures Domains(Next(c, s, e))
  {
  }

  lemma DomainsKept(c: Config, s: State, e: Event)
    requires Domains(s) && Enabled(c, s, e)
    ensures Domains(Next(c, s, e))
  {
    if Moves(e) {
      DomainsByMove(c, s, e);
    } else {
      DomainsByOther(c, s, e);
    }
  }

  /** Later states that hold no job elsewhere keep every task in one place. */
  lemma PlacesShrink(s: State, t: State)
    requires Places(s) && t.queue == s.queue && t.created <= s.created && |t.workers| == |s.workers|
    requires forall w :: 0 <= w < |s.workers| && t.workers[w].Busy? ==>
               s.workers[w].Busy? && s.workers[w].job == t.workers[w].job
    ensures Places(t)
  {
  }

  lemma PlacesPush(s: State, t: State, job: Job)
    requires Places(s) && job.id in s.created
    requires t.queue == s.queue + [job] && t.created == s.created - {job.id} && t.workers == s.workers
    ensures Places(t)
  {
  }

  lemma PlacesTake(s: State, t: State, w: nat)
    requires Places(s) && |s.queue| > 0 && w < |s.workers|
    requires t.queue == s.queue[1..] && t.created == s.created && t.workers == s.workers[w := Busy(s.queue[0], Taken)]
    ensures Places(t)
  {
  }

  lemma PlacesCreate(s: State, t: State, id: TaskId)
    requires Domains(s) && Places(s) && id !in s.mem
    requires t.queue == s.queue && t.created == s.created + {id} && t.workers == s.workers
    ensures Places(t)
  {
  }

  predicate Moves(e: Event) {
    e.Create? || e.Push? || e.Take?
  }

  /** Every action but creating, queueing and taking leaves each job where it was. */
  lemma JobsStay(c: Config, s: State, e: Event)
    requires Enabled(c, s, e) && !Moves(e)
    ensures var t := Next(c, s, e);
            && t.queue == s.queue && t.created == s.created && |t.workers| == |s.workers|
            && forall w :: 0 <= w < |s.workers| && t.workers[w].Busy? ==>
                 s.workers[w].Busy? && s.workers[w].job == t.workers[w].job
  {
  }

  lemma PlacesKept(c: Config, s: State, e: Event)
    requires Domains(s) && Places(s) && Enabled(c, s, e)
    ensures Places(Next(c, s, e))
  {
    if e.Create? {
      PlacesCreate(s, Next(c, s, e), e.id);
    } else if e.Push? {
      if |s.queue| < c.queueSize {
        PlacesPush(s, Next(c, s, e), Job(e.id, s.mem[e.id].user));
      } else {
        PlacesShrink(s, Next(c, s, e));
      }
    } else if e.Take? {
      PlacesTake(s, Next(c, s, e), e.w);
    } else {
      JobsStay(c, s, e);
      PlacesShrink(s, Next(c, s, e));
    }
  }

  predicate Submits(e: Event) {
    e.Admit? || e.Create? || e.Push?
  }

  predicate ByWorker(e: Event) {
    !Submits(e) && !e.Tick? && !e.Cancel?
  }

  lemma SlotKept(c: Config, s: State, e: Event, user: int)
    requires Slots(s, user) == Inside(s.workers, user) <= c.cap && Enabled(c, s, e)
    ensures Slots(Next(c, s, e), user) == Inside(Next(c, s, e).workers, user) <= c.cap
  {
    if ByWorker(e) {
      InsideUpdate(s.workers, e.w, Next(c, s, e).workers[e.w], user);
    }
  }

  lemma SemsMadeKept(c: Config, s: State, e: Event)
    requires SemsMade(s) && Enabled(c, s, e)
    ensures SemsMade(Next(c, s, e))
  {
  }

  lemma SemsExactKept(c: Config, s: State, e: Event)
    requires SemsExact(c, s) && Enabled(c, s, e)
    ensures SemsExact(c, Next(c, s, e))
  {
    forall user ensures Slots(Next(c, s, e), user) == Inside(Next(c, s, e).workers, user) <= c.cap {
      assert Slots(s, user) == Inside(s.workers, user);
      SlotKept(c, s, e, user);
    }
    SemsMadeKept(c, s, e);
  }

  lemma AgreementUpdate(s: State, t: State, id: TaskId, task: Task)
    requires Agreement(s) && t.now == s.now && Agrees(task, s.now) && task.status != Cancelled
    requires t.mem == s.mem[id := task] && (t.rows == s.rows || t.rows == s.rows[id := task])
    ensures Agreement(t)
  {
  }

  lemma BegunAgrees(t: Task, now: int)
    requires Agrees(t, now) && t.status == Pending
    ensures Agrees(Begin(t, now), now)
  {
  }

  lemma FinishedAgrees(t: Task, now: int, out: Outcome)
    requires Agrees(t, now) && t.status == Running
    ensures Agrees(Finish(t, now, out), now) && Finish(t, now, out).status != Cancelled
  {
  }

  lemma AgreementBySave(c: Config, s: State, e: Event)
    requires Agreement(s) && MemFits(s) && Enabled(c, s, e) && Saves(e)
    ensures Agreement(Next(c, s, e))
  {
    var id := s.workers[e.w].job.id;
    if e.SaveRunning? {
      BegunAgrees(s.mem[id], s.now);
      AgreementUpdate(s, Next(c, s, e), id, Begin(s.mem[id], s.now));
    } else {
      FinishedAgrees(s.mem[id], s.now, s.workers[e.w].stage.out);
      AgreementUpdate(s, Next(c, s, e), id, Finish(s.mem[id], s.now, s.workers[e.w].stage.out));
    }
  }

  lemma AgreementByOther(c: Config, s: State, e: Event)
    requires Agreement(s) && Enabled(c, s, e) && !Saves(e)
    ensures Agreement(Next(c, s, e))
  {
    if e.Create? {
      AgreementUpdate(s, Next(c, s, e), e.id, NewTask(s.admitted[e.id]));
    }
  }

  lemma AgreementKept(c: Config, s: State, e: Event)
    requires Agreement(s) && MemFits(s) && Enabled(c, s, e)
    ensures Agreement(Next(c, s, e))
  {
    if Saves(e) {
      AgreementBySave(c, s, e);
    } else {
      AgreementByOther(c, s, e);
    }
  }

  lemma MemFitsByMove(c: Config, s: State, e: Event)
    requires MemFits(s) && Domains(s) && Enabled(c, s, e) && Moves(e)
    ensures MemFits(Next(c, s, e))
  {
  }

  /** A save changes the task of one worker, which is nowhere else. */
  lemma MemFitsSaved(s: State, t: State, w: nat, stage: Stage, task: Task)
    requires MemFits(s) && Places(s) && w < |s.workers| && s.workers[w].Busy? && StageFits(stage, task)
    requires t.created == s.created && t.queue == s.queue && t.mem == s.mem[s.workers[w].job.id := task]
    requires t.workers == s.workers[w := Busy(s.workers[w].job, stage)]
    ensures MemFits(t)
  {
  }

  lemma MemFitsBySave(c: Config, s: State, e: Event)
    requires MemFits(s) && Places(s) && Enabled(c, s, e) && Saves(e)
    ensures MemFits(Next(c, s, e))
  {
    var task := s.mem[s.workers[e.w].job.id];
    if e.SaveRunning? {
      MemFitsSaved(s, Next(c, s, e), e.w, Started, Begin(task, s.now));
    } else {
      MemFitsSaved(s, Next(c, s, e), e.w, Saved, Finish(task, s.now, s.workers[e.w].stage.out));
    }
  }

  lemma MemFitsByOther(c: Config, s: State, e: Event)
    requires MemFits(s) && Domains(s) && Enabled(c, s, e) && !Moves(e) && !Saves(e)
    ensures MemFits(Next(c, s, e))
  {
  }

  lemma MemFitsKept(c: Config, s: State, e: Event)
    requires MemFits(s) && Domains(s) && Places(s) && Enabled(c, s, e)
    ensures MemFits(Next(c, s, e))
  {
    if Moves(e) {
      MemFitsByMove(c, s, e);
    } else if Saves(e) {
      MemFitsBySave(c, s, e);
    } else {
      MemFitsByOther(c, s, e);
    }
  }

  /** A save that may fail leaves the row on the way to the new task object. */
  lemma RowsFollowSaved(c: Config, s: State, t: State, id: TaskId, task: Task, saved: bool)
    requires RowsFollow(c, s) && id in s.mem && (c.reliable ==> saved)
    requires t.mem == s.mem[id := task] && t.rows == if saved then s.rows[id := task] else s.rows
    requires (s.mem[id].status == Pending && task.status == Running) || (s.mem[id].status == Running && Ended(task))
    ensures RowsFollow(c, t)
  {
  }

  lemma RowsFollowBySave(c: Config, s: State, e: Event)
    requires RowsFollow(c, s) && MemFits(s) && Enabled(c, s, e) && Saves(e)
    ensures RowsFollow(c, Next(c, s, e))
  {
    var id := s.workers[e.w].job.id;
    if e.SaveRunning? {
      RowsFollowSaved(c, s, Next(c, s, e), id, Begin(s.mem[id], s.now), e.saved);
    } else {
      RowsFollowSaved(c, s, Next(c, s, e), id, Finish(s.mem[id], s.now, s.workers[e.w].stage.out), e.saved);
    }
  }

  lemma RowsFollowByOther(c: Config, s: State, e: Event)
    requires RowsFollow(c, s) && Domains(s) && Agreement(s) && Enabled(c, s, e) && !Saves(e)
    ensures RowsFollow(c, Next(c, s, e))
  {
  }

  lemma RowsFollowKept(c: Config, s: State, e: Event)
    requires RowsFollow(c, s) && MemFits(s) && Domains(s) && Agreement(s) && Enabled(c, s, e)
    ensures RowsFollow(c, Next(c, s, e))
  {
    if Saves(e) {
      RowsFollowBySave(c, s, e);
    } else {
      RowsFollowByOther(c, s, e);
    }
  }

  lemma InvKept(c: Config, s: State, e: Event)
    requires Inv(c, s)
    ensures Inv(c, Step(c, s, e))
  {
    if Enabled(c, s, e) {
      DomainsKept(c, s, e);
      PlacesKept(c, s, e);
      SemsExactKept(c, s, e);
      AgreementKept(c, s, e);
      MemFitsKept(c, s, e);
      RowsFollowKept(c, s, e);
    }
  }

  lemma {:induction false} AllIdle(pool: nat, user: int)
    ensures Inside(seq(pool, i => Idle), user) == 0
  {
    if pool > 0 {
      var ws: seq<Worker> := seq(pool, i => Idle);
      assert ws[..pool - 1] == seq(pool - 1, i => Idle);
      AllIdle(pool - 1, user);
    }
  }

  lemma InvInitial(c: Config, pool: nat, now: int)
    ensures Inv(c, Initial(pool, now))
  {
    forall user ensures Inside(Initial(pool, now).workers, user) == 0 {
      AllIdle(pool, user);
    }
  }

  lemma {:induction false} InvAfter(c: Config, s: State, es: seq<Event>)
    requires Inv(c, s)
    ensures Inv(c, After(c, s, es))
  {
    if es != [] {
      InvAfter(c, s, es[..|es| - 1]);
      InvKept(c, After(c, s, es[..|es| - 1]), es[|es| - 1]);
    }
  }
}
