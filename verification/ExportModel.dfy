/**
 The billing export pipeline as a transition system: submissions that pass the admission check, a
 bounded FIFO queue, a pool of workers, one counting semaphore per user, the task objects the
 goroutines share and the table rows the database keeps.  Every atomic action of the program is one
 event; an event whose guard is closed (a blocked or refused action) leaves the state as it is, so
 every sequence of events is a run.
 */
module ExportModel {
  import opened Options

  type TaskId = string

  datatype Status = Pending | Running | Success | Failed | Cancelled

  datatype Task = Task(user: int, status: Status, progress: int, started: Option<int>,
                       finished: Option<int>, err: string, file: string, size: int)

  /** What the statement generator hands back. */
  datatype Outcome = Done(file: string, size: int) | Broken(msg: string)

  datatype Job = Job(id: TaskId, user: int)

  /** Where a worker stands inside the processing of one job. */
  datatype Stage = Taken | Waiting | Entered | Started | Generated(out: Outcome) | Saved

  datatype Worker = Idle | Busy(job: Job, stage: Stage)

  /** cap: slots per user; queueSize: channel buffer; reliable: table writes never fail. */
  datatype Config = Config(cap: nat, queueSize: nat, reliable: bool)

  datatype State = State(
    now: int,
    admitted: map<TaskId, int>,  // passed the admission check, row not yet written
    created: set<TaskId>,        // row written, not yet offered to the queue
    queue: seq<Job>,
    sems: map<int, nat>,         // occupied slots of each user's semaphore
    workers: seq<Worker>,
    mem: map<TaskId, Task>,      // the task objects shared by pointer
    rows: map<TaskId, Task>)     // the billing_export_tasks table

  datatype Event =
    | Tick(delta: nat)
    | Admit(id: TaskId, user: int)
    | Create(id: TaskId)
    | Push(id: TaskId)
    | Cancel(id: TaskId, operator: string)
    | Take(w: nat)
    | GetSem(w: nat)
    | Acquire(w: nat)
    | SaveRunning(w: nat, saved: bool)
    | Generate(w: nat, out: Outcome)
    | SaveFinal(w: nat, saved: bool)
    | Release(w: nat)

  function NewTask(user: int): Task {
    Task(user, Pending, 0, None, None, "", "", 0)
  }

  function CancelRow(t: Task, now: int, operator: string): Task {
    t.(status := Cancelled, finished := Some(now), err := "cancelled by " + operator)
  }

  function Begin(t: Task, now: int): Task {
    t.(status := Running, started := Some(now), progress := 0)
  }

  function Finish(t: Task, now: int, out: Outcome): Task {
    match out
    case Broken(msg) => t.(finished := Some(now), status := Failed, err := msg, progress := 0)
    case Done(file, size) => t.(finished := Some(now), status := Success, progress := 100, file := file, size := size)
  }

  function RunningIds(rows: map<TaskId, Task>, user: int): set<TaskId> {
    set id | id in rows && rows[id].user == user && rows[id].status == Running
  }

  predicate AtStage(s: State, w: nat, stage: Stage) {
    w < |s.workers| && s.workers[w].Busy? && s.workers[w].stage == stage
  }

  predicate AtGenerated(s: State, w: nat) {
    w < |s.workers| && s.workers[w].Busy? && s.workers[w].stage.Generated?
  }

  function Slots(s: State, user: int): nat {
    if user in s.sems then s.sems[user] else 0
  }

  predicate Enabled(c: Config, s: State, e: Event) {
    match e
    case Tick(_) => true
    case Admit(id, user) => id !in s.admitted && id !in s.mem && |RunningIds(s.rows, user)| < c.cap
    case Create(id) => id in s.admitted
    case Push(id) => id in s.created && id in s.mem
    case Cancel(id, _) => id in s.rows && s.rows[id].status == Pending
    case Take(w) => w < |s.workers| && s.workers[w].Idle? && |s.queue| > 0
    case GetSem(w) => AtStage(s, w, Taken)
    case Acquire(w) => AtStage(s, w, Waiting) && Slots(s, s.workers[w].job.user) < c.cap
    case SaveRunning(w, saved) => AtStage(s, w, Entered) && s.workers[w].job.id in s.mem && (c.reliable ==> saved)
    case Generate(w, _) => AtStage(s, w, Started)
    case SaveFinal(w, saved) => AtGenerated(s, w) && s.workers[w].job.id in s.mem && (c.reliable ==> saved)
    case Release(w) => AtStage(s, w, Saved) && Slots(s, s.workers[w].job.user) > 0
  }

  function SetStage(s: State, w: nat, stage: Stage): State
    requires w < |s.workers| && s.workers[w].Busy?
  {
    s.(workers := s.workers[w := s.workers[w].(stage := stage)])
  }

  /** The task object changes in any case; the row only when the write succeeds. */
  function Save(s: State, id: TaskId, t: Task, saved: bool): State {
    s.(mem := s.mem[id := t], rows := if saved then s.rows[id := t] else s.rows)
  }

  function Next(c: Config, s: State, e: Event): State
    requires Enabled(c, s, e)
  {
    match e
    case Tick(delta) => s.(now := s.now + delta)
    case Admit(id, user) => s.(admitted := s.admitted[id := user])
    case Create(id) =>
      var t := NewTask(s.admitted[id]);
      s.(admitted := s.admitted - {id}, created := s.created + {id}, mem := s.mem[id := t], rows := s.rows[id := t])
    case Push(id) =>
      if |s.queue| < c.queueSize
      then s.(created := s.created - {id}, queue := s.queue + [Job(id, s.mem[id].user)])
      else s.(created := s.created - {id})
    case Cancel(id, operator) => s.(rows := s.rows[id := CancelRow(s.rows[id], s.now, operator)])
    case Take(w) => s.(queue := s.queue[1..], workers := s.workers[w := Busy(s.queue[0], Taken)])
    case GetSem(w) =>
      var user := s.workers[w].job.user;
      SetStage(s, w, Waiting).(sems := if user in s.sems then s.sems else s.sems[user := 0])
    case Acquire(w) =>
      var user := s.workers[w].job.user;
      SetStage(s, w, Entered).(sems := s.sems[user := Slots(s, user) + 1])
    case SaveRunning(w, saved) =>
      var id := s.workers[w].job.id;
      Save(SetStage(s, w, Started), id, Begin(s.mem[id], s.now), saved)
    case Generate(w, out) => SetStage(s, w, Generated(out))
    case SaveFinal(w, saved) =>
      var id := s.workers[w].job.id;
      Save(SetStage(s, w, Saved), id, Finish(s.mem[id], s.now, s.workers[w].stage.out), saved)
    case Release(w) =>
      var user := s.workers[w].job.user;
      s.(workers := s.workers[w := Idle], sems := s.sems[user := Slots(s, user) - 1])
  }

  function Step(c: Config, s: State, e: Event): State {
    if Enabled(c, s, e) then Next(c, s, e) else s
  }

  function After(c: Config, s: State, es: seq<Event>): State {
    if es == [] then s else Step(c, After(c, s, es[..|es| - 1]), es[|es| - 1])
  }

  function Initial(pool: nat, now: int): State {
    State(now, map[], {}, [], map[], seq(pool, i => Idle), map[], map[])
  }

  lemma {:induction false} AfterConcat(c: Config, s: State, xs: seq<Event>, ys: seq<Event>)
    ensures After(c, s, xs + ys) == After(c, After(c, s, xs), ys)
    decreases |ys|
  {
    if ys == [] {
      assert xs + ys == xs;
    } else {
      var zs := xs + ys;
      assert zs[..|zs| - 1] == xs + ys[..|ys| - 1];
      AfterConcat(c, s, xs, ys[..|ys| - 1]);
    }
  }
}
