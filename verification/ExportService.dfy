/**
 The export service as the program runs it: package-level queue, semaphore map and table, changed in
 place.  Each method is one atomic stretch of EnqueueExportTask, CancelPendingBillingExportTask or
 processOneTask and takes the step of the transition system that its contract names.
 */
module ExportService {
  import opened Options
  import opened ExportModel
  import opened ExportSafety

  /** The task object alone, or with it the row, has changed to task. */
  predicate Wrote(s: State, t: State, id: TaskId, task: Task, saved: bool) {
    t.mem == s.mem[id := task] && t.rows == if saved then s.rows[id := task] else s.rows
  }

  /** The task is marked as running since now, and is as it was otherwise. */
  predicate RunningSaved(s: State, t: State, id: TaskId, saved: bool) {
    id in s.mem && Wrote(s, t, id, s.mem[id].(status := Running, started := Some(s.now), progress := 0), saved)
  }

  /**
   The task has ended now with the outcome: a success has the file and its size and full progress, a failure has the
   message and no progress; the rest is as it was.
   */
  predicate EndSaved(s: State, t: State, id: TaskId, out: Outcome, saved: bool) {
    && id in s.mem
    && match out
       case Done(file, size) =>
         Wrote(s, t, id, s.mem[id].(status := Success, finished := Some(s.now), progress := 100, file := file, size := size),
               saved)
       case Broken(msg) =>
         Wrote(s, t, id, s.mem[id].(status := Failed, finished := Some(s.now), progress := 0, err := msg), saved)
  }

  class Service {
    const cfg: Config
    var now: int
    var admitted: map<TaskId, int>
    var created: set<TaskId>
    var queue: seq<Job>
    var sems: map<int, nat>
    var workers: seq<Worker>
    var mem: map<TaskId, Task>
    var rows: map<TaskId, Task>

    function Snapshot(): State
      reads this
    {
      State(now, admitted, created, queue, sems, workers, mem, rows)
    }

    ghost predicate Valid()
      reads this
    {
      Inv(cfg, Snapshot())
    }

    constructor (cfg: Config, pool: nat, now: int)
      ensures Valid() && this.cfg == cfg && Snapshot() == Initial(pool, now)
    {
      this.cfg := cfg;
      this.now := now;
      admitted, created, queue, sems, mem, rows := map[], {}, [], map[], map[], map[];
      workers := seq(pool, i => Idle);
      new;
      InvInitial(cfg, pool, now);
    }

    /** The running-rows check in front of a submission; id is the freshly drawn task id. */
    method CheckLimit(id: TaskId, user: int) returns (ok: bool)
      requires Valid() && id !in admitted && id !in mem
      modifies this
      ensures Valid() && Snapshot() == Step(cfg, old(Snapshot()), Admit(id, user))
      ensures ok <==> |set t | t in rows && rows[t].user == user && rows[t].status == Running| < cfg.cap
      ensures rows == old(rows) && admitted == if ok then old(admitted)[id := user] else old(admitted)
    {
      InvKept(cfg, Snapshot(), Admit(id, user));
      var running := |RunningIds(rows, user)|;
      if running >= cfg.cap {
        return false;
      }
      admitted := admitted[id := user];
      return true;
    }

    method CreateTask(id: TaskId)
      requires Valid() && id in admitted
      modifies this
      ensures Valid() && Snapshot() == Step(cfg, old(Snapshot()), Create(id))
      ensures rows == old(rows)[id := Task(old(admitted)[id], Pending, 0, None, None, "", "", 0)]
    {
      InvKept(cfg, Snapshot(), Create(id));
      var t := NewTask(admitted[id]);
      admitted := admitted - {id};
      created := created + {id};
      mem := mem[id := t];
      rows := rows[id := t];
    }

    method PutJob(id: TaskId) returns (ok: bool)
      requires id in created && id in mem
      modifies this
      ensures Snapshot() == Step(cfg, old(Snapshot()), Push(id)) && id in mem
      ensures ok <==> |old(queue)| < cfg.queueSize
      ensures queue == if ok then old(queue) + [Job(id, mem[id].user)] else old(queue)
    {
      created := created - {id};
      ok := |queue| < cfg.queueSize;
      if ok {
        queue := queue + [Job(id, mem[id].user)];
      }
    }

    /** The non-blocking send: false is the "queue full" error. */
    method Offer(id: TaskId) returns (ok: bool)
      requires Valid() && id in created
      modifies this
      ensures Valid() && Snapshot() == Step(cfg, old(Snapshot()), Push(id))
      ensures id in mem && queue == if ok then old(queue) + [Job(id, mem[id].user)] else old(queue)
      ensures ok <==> |old(queue)| < cfg.queueSize
    {
      InvKept(cfg, Snapshot(), Push(id));
      ok := PutJob(id);
    }

    method UpdatePending(id: TaskId, operator: string) returns (affected: nat)
      modifies this
      ensures Snapshot() == Step(cfg, old(Snapshot()), Cancel(id, operator))
      ensures affected == if id in old(rows) && old(rows)[id].status == Pending then 1 else 0
      ensures affected == 0 ==> rows == old(rows)
      ensures affected == 1 ==>
                rows == old(rows)[id := old(rows)[id].(status := Cancelled, finished := Some(now),
                                                       err := "cancelled by " + operator)]
    {
      affected := 0;
      if id in rows && rows[id].status == Pending {
        rows := rows[id := CancelRow(rows[id], now, operator)];
        affected := 1;
      }
    }

    /** The number of rows changed: 0 is the handler's "task not pending" answer. */
    method CancelPending(id: TaskId, operator: string) returns (affected: nat)
      requires Valid()
      modifies this
      ensures Valid() && Snapshot() == Step(cfg, old(Snapshot()), Cancel(id, operator))
      ensures affected == if id in old(rows) && old(rows)[id].status == Pending then 1 else 0
      ensures affected == 0 ==> rows == old(rows)
      ensures affected == 1 ==>
                rows == old(rows)[id := old(rows)[id].(status := Cancelled, finished := Some(now),
                                                       err := "cancelled by " + operator)]
    {
      InvKept(cfg, Snapshot(), Cancel(id, operator));
      affected := UpdatePending(id, operator);
    }

    /** workerLoop: receive one job. */
    method Receive(w: nat)
      requires Valid() && w < |workers| && workers[w].Idle? && |queue| > 0
      modifies this
      ensures Valid() && Snapshot() == Step(cfg, old(Snapshot()), Take(w))
      ensures queue == old(queue)[1..] && w < |workers| && workers[w] == Busy(old(queue)[0], Taken)
    {
      InvKept(cfg, Snapshot(), Take(w));
      var job := queue[0];
      queue := queue[1..];
      workers := workers[w := Busy(job, Taken)];
      assert Snapshot() == Next(cfg, old(Snapshot()), Take(w));
    }

    method MakeSem(w: nat)
      requires AtStage(Snapshot(), w, Taken)
      modifies this
      ensures Snapshot() == Next(cfg, old(Snapshot()), GetSem(w))
    {
      var user := workers[w].job.user;
      if user !in sems {
        sems := sems[user := 0];
      }
      MoveStage(w, Waiting);
    }

    /** getUserSem: the semaphore of a user, made on first use. */
    method GetUserSem(w: nat)
      requires Valid() && AtStage(Snapshot(), w, Taken)
      modifies this
      ensures Valid() && Snapshot() == Step(cfg, old(Snapshot()), GetSem(w))
      ensures var user := old(workers)[w].job.user;
              sems == if user in old(sems) then old(sems) else old(sems)[user := 0]
    {
      InvKept(cfg, Snapshot(), GetSem(w));
      MakeSem(w);
    }

    method MoveStage(w: nat, stage: Stage)
      requires w < |workers| && workers[w].Busy?
      modifies this`workers
      ensures workers == old(workers)[w := old(workers)[w].(stage := stage)]
    {
      workers := workers[w := workers[w].(stage := stage)];
    }

    method TakeSlot(w: nat, user: int)
      requires Enabled(cfg, Snapshot(), Acquire(w)) && user == workers[w].job.user && user in sems
      modifies this
      ensures Snapshot() == Next(cfg, old(Snapshot()), Acquire(w))
    {
      sems := sems[user := sems[user] + 1];
      MoveStage(w, Entered);
    }

    /** The send into the semaphore; false means that it blocks. */
    method Enter(w: nat) returns (ok: bool)
      requires Valid() && AtStage(Snapshot(), w, Waiting)
      modifies this
      ensures Valid() && Snapshot() == Step(cfg, old(Snapshot()), Acquire(w))
      ensures ok <==> Inside(old(workers), old(workers)[w].job.user) < cfg.cap
      ensures ok ==> workers == old(workers)[w := Busy(old(workers)[w].job, Entered)]
    {
      InvKept(cfg, Snapshot(), Acquire(w));
      var user := workers[w].job.user;
      SlotsKnown(cfg, Snapshot(), w);
      ok := sems[user] < cfg.cap;
      if ok {
        TakeSlot(w, user);
      }
    }

    /** Changes the task object and, when the write goes through, the whole row. */
    method WriteTask(w: nat, id: TaskId, task: Task, saved: bool, stage: Stage)
      requires w < |workers| && workers[w].Busy?
      modifies this
      ensures Snapshot() == Save(SetStage(old(Snapshot()), w, stage), id, task, saved)
    {
      mem := mem[id := task];
      if saved {
        rows := rows[id := task];
      }
      MoveStage(w, stage);
    }

    method MarkRunning(w: nat, saved: bool)
      requires Valid() && AtStage(Snapshot(), w, Entered) && (cfg.reliable ==> saved)
      modifies this
      ensures Valid() && Snapshot() == Step(cfg, old(Snapshot()), SaveRunning(w, saved))
      ensures RunningSaved(old(Snapshot()), Snapshot(), old(workers)[w].job.id, saved)
    {
      InvKept(cfg, Snapshot(), SaveRunning(w, saved));
      HeldIsKnown(Snapshot(), w);
      var id := workers[w].job.id;
      WriteTask(w, id, Begin(mem[id], now), saved, Started);
      assert Snapshot() == Next(cfg, old(Snapshot()), SaveRunning(w, saved));
    }

    method GenerateStatement(w: nat, out: Outcome)
      requires Valid() && AtStage(Snapshot(), w, Started)
      modifies this
      ensures Valid() && Snapshot() == Step(cfg, old(Snapshot()), Generate(w, out))
      ensures workers == old(workers)[w := Busy(old(workers)[w].job, Generated(out))]
      ensures mem == old(mem) && rows == old(rows)
    {
      InvKept(cfg, Snapshot(), Generate(w, out));
      MoveStage(w, Generated(out));
      assert Snapshot() == Next(cfg, old(Snapshot()), Generate(w, out));
    }

    method MarkEnded(w: nat, saved: bool)
      requires Valid() && AtGenerated(Snapshot(), w) && (cfg.reliable ==> saved)
      modifies this
      ensures Valid() && Snapshot() == Step(cfg, old(Snapshot()), SaveFinal(w, saved))
      ensures EndSaved(old(Snapshot()), Snapshot(), old(workers)[w].job.id, old(workers)[w].stage.out, saved)
    {
      InvKept(cfg, Snapshot(), SaveFinal(w, saved));
      HeldIsKnown(Snapshot(), w);
      var id := workers[w].job.id;
      WriteTask(w, id, Finish(mem[id], now, workers[w].stage.out), saved, Saved);
      assert Snapshot() == Next(cfg, old(Snapshot()), SaveFinal(w, saved));
    }

    method FreeSlot(w: nat)
      requires Enabled(cfg, Snapshot(), Release(w))
      modifies this
      ensures Snapshot() == Next(cfg, old(Snapshot()), Release(w))
    {
      var user := workers[w].job.user;
      sems := sems[user := sems[user] - 1];
      workers := workers[w := Idle];
    }

    /** The deferred receive from the semaphore; the worker's own slot is there, so it never blocks. */
    method Leave(w: nat)
      requires Valid() && AtStage(Snapshot(), w, Saved)
      modifies this
      ensures Valid() && Snapshot() == Step(cfg, old(Snapshot()), Release(w))
      ensures w < |workers| && workers[w].Idle?
    {
      InvKept(cfg, Snapshot(), Release(w));
      SlotHeld(Snapshot(), w);
      FreeSlot(w);
    }
  }

  lemma HeldIsKnown(s: State, w: nat)
    requires Domains(s) && w < |s.workers| && s.workers[w].Busy?
    ensures s.workers[w].job.id in s.mem
  {
  }

  lemma SlotsKnown(c: Config, s: State, w: nat)
    requires SemsExact(c, s) && AtStage(s, w, Waiting)
    ensures var user := s.workers[w].job.user;
            user in s.sems && s.sems[user] == Inside(s.workers, user)
  {
    var user := s.workers[w].job.user;
    assert Slots(s, user) == Inside(s.workers, user);
  }

  lemma SlotHeld(s: State, w: nat)
    requires (forall user :: Slots(s, user) == Inside(s.workers, user)) && AtStage(s, w, Saved)
    ensures Slots(s, s.workers[w].job.user) > 0
  {
    var user := s.workers[w].job.user;
    InsideUpdate(s.workers, w, Idle, user);
    assert Slots(s, user) == Inside(s.workers, user);
  }
}
