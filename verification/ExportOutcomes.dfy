/** Where the result of an export task comes from: the one statement that was generated for it. */
module ExportOutcomes {
  import opened Options
  import opened ExportModel
  import opened ExportSafety
  import opened ExportRuns
  import opened ExportProgress

  /** Event i of the run hands out to the worker that holds the task. */
  predicate GeneratesFor(c: Config, s: State, es: seq<Event>, i: nat, id: TaskId, out: Outcome)
    requires i < |es|
  {
    && es[i].Generate? && es[i].out == out
    && AtStage(After(c, s, es[..i]), es[i].w, Started) && After(c, s, es[..i]).workers[es[i].w].job.id == id
  }

  ghost predicate Produced(c: Config, s: State, es: seq<Event>, id: TaskId, out: Outcome) {
    exists i: nat :: i < |es| && GeneratesFor(c, s, es, i, id, out)
  }

  /** A success carries the file and the size, a failure the message. */
  predicate Carries(t: Task, out: Outcome) {
    match out
    case Done(file, size) => t.status == Success && t.file == file && t.size == size
    case Broken(msg) => t.status == Failed && t.err == msg
  }

  lemma ProducedSnoc(c: Config, s: State, es: seq<Event>, e: Event, id: TaskId, out: Outcome)
    requires Produced(c, s, es, id, out)
    ensures Produced(c, s, es + [e], id, out)
  {
    var i: nat :| i < |es| && GeneratesFor(c, s, es, i, id, out);
    var all := es + [e];
    assert all[i] == es[i] && all[..i] == es[..i];
    assert GeneratesFor(c, s, all, i, id, out);
  }

  lemma ProducedNow(c: Config, s: State, es: seq<Event>, w: nat, out: Outcome)
    requires AtStage(After(c, s, es), w, Started)
    ensures Produced(c, s, es + [Generate(w, out)], After(c, s, es).workers[w].job.id, out)
  {
    var all := es + [Generate(w, out)];
    assert all[|es|] == Generate(w, out) && all[..|es|] == es;
    assert GeneratesFor(c, s, all, |es|, After(c, s, es).workers[w].job.id, out);
  }

  /** The outcome in a worker's hand was generated for its task. */
  ghost predicate HandTraced(c: Config, s: State, es: seq<Event>) {
    var t := After(c, s, es);
    forall w :: 0 <= w < |t.workers| && t.workers[w].Busy? && t.workers[w].stage.Generated? ==>
      Produced(c, s, es, t.workers[w].job.id, t.workers[w].stage.out)
  }

  /** A task that has ended carries an outcome that was generated for it. */
  ghost predicate EndTraced(c: Config, s: State, es: seq<Event>, id: TaskId, task: Task) {
    exists out :: Produced(c, s, es, id, out) && Carries(task, out)
  }

  ghost predicate EndsTraced(c: Config, s: State, es: seq<Event>) {
    var t := After(c, s, es);
    forall id :: id in t.mem && Ended(t.mem[id]) ==> EndTraced(c, s, es, id, t.mem[id])
  }

  lemma StageBefore(c: Config, t: State, e: Event, w: nat)
    requires Enabled(c, t, e) && w < |Next(c, t, e).workers| && Next(c, t, e).workers[w].Busy?
    requires Next(c, t, e).workers[w].stage.Generated?
    ensures w < |t.workers| && t.workers[w].Busy? && t.workers[w].job == Next(c, t, e).workers[w].job
    ensures t.workers[w] == Next(c, t, e).workers[w]
         || (e == Generate(w, Next(c, t, e).workers[w].stage.out) && t.workers[w].stage == Started)
  {
  }

  lemma HandTracedSnoc(c: Config, s: State, es: seq<Event>, e: Event)
    requires HandTraced(c, s, es) && Enabled(c, After(c, s, es), e)
    ensures HandTraced(c, s, es + [e])
  {
    var t, u := After(c, s, es), After(c, s, es + [e]);
    AfterSnoc(c, s, es, e);
    forall w | 0 <= w < |u.workers| && u.workers[w].Busy? && u.workers[w].stage.Generated?
      ensures Produced(c, s, es + [e], u.workers[w].job.id, u.workers[w].stage.out)
    {
      StageBefore(c, t, e, w);
      if t.workers[w] == u.workers[w] {
        ProducedSnoc(c, s, es, e, u.workers[w].job.id, u.workers[w].stage.out);
      } else {
        ProducedNow(c, s, es, w, u.workers[w].stage.out);
      }
    }
  }

  lemma EndTracedSnoc(c: Config, s: State, es: seq<Event>, e: Event, id: TaskId, task: Task)
    requires EndTraced(c, s, es, id, task)
    ensures EndTraced(c, s, es + [e], id, task)
  {
    var out :| Produced(c, s, es, id, out) && Carries(task, out);
    ProducedSnoc(c, s, es, e, id, out);
  }

  /** A task object ends only in the last save, with the outcome in the worker's hand. */
  lemma EndBefore(c: Config, t: State, e: Event, id: TaskId)
    requires Enabled(c, t, e) && id in Next(c, t, e).mem && Ended(Next(c, t, e).mem[id])
    ensures (id in t.mem && t.mem[id] == Next(c, t, e).mem[id])
         || (e.SaveFinal? && AtGenerated(t, e.w) && t.workers[e.w].job.id == id
             && Carries(Next(c, t, e).mem[id], t.workers[e.w].stage.out))
  {
  }

  lemma EndsTracedSnoc(c: Config, s: State, es: seq<Event>, e: Event)
    requires HandTraced(c, s, es) && EndsTraced(c, s, es) && Enabled(c, After(c, s, es), e)
    ensures EndsTraced(c, s, es + [e])
  {
    var t, u := After(c, s, es), After(c, s, es + [e]);
    AfterSnoc(c, s, es, e);
    forall id | id in u.mem && Ended(u.mem[id]) ensures EndTraced(c, s, es + [e], id, u.mem[id]) {
      EndBefore(c, t, e, id);
      if id in t.mem && t.mem[id] == u.mem[id] {
        EndTracedSnoc(c, s, es, e, id, u.mem[id]);
      } else {
        ProducedSnoc(c, s, es, e, id, t.workers[e.w].stage.out);
      }
    }
  }

  lemma IdleSnoc(c: Config, s: State, es: seq<Event>, e: Event)
    requires HandTraced(c, s, es) && EndsTraced(c, s, es) && !Enabled(c, After(c, s, es), e)
    ensures HandTraced(c, s, es + [e]) && EndsTraced(c, s, es + [e])
  {
    var t := After(c, s, es);
    AfterSnoc(c, s, es, e);
    forall w | 0 <= w < |t.workers| && t.workers[w].Busy? && t.workers[w].stage.Generated?
      ensures Produced(c, s, es + [e], t.workers[w].job.id, t.workers[w].stage.out)
    {
      ProducedSnoc(c, s, es, e, t.workers[w].job.id, t.workers[w].stage.out);
    }
    forall id | id in t.mem && Ended(t.mem[id]) ensures EndTraced(c, s, es + [e], id, t.mem[id]) {
      EndTracedSnoc(c, s, es, e, id, t.mem[id]);
    }
  }

  lemma {:induction false} AllTraced(c: Config, pool: nat, now: int, es: seq<Event>)
    ensures HandTraced(c, Initial(pool, now), es) && EndsTraced(c, Initial(pool, now), es)
  {
    if es != [] {
      var s, n := Initial(pool, now), |es| - 1;
      AllTraced(c, pool, now, es[..n]);
      assert es == es[..n] + [es[n]];
      if Enabled(c, After(c, s, es[..n]), es[n]) {
        HandTracedSnoc(c, s, es[..n], es[n]);
        EndsTracedSnoc(c, s, es[..n], es[n]);
      } else {
        IdleSnoc(c, s, es[..n], es[n]);
      }
    }
  }

  lemma EndedRowIsTask(c: Config, s: State, id: TaskId)
    requires Inv(c, s) && id in s.rows && Ended(s.rows[id])
    ensures id in s.mem && s.rows[id] == s.mem[id]
  {
  }

  /**
   After any run a success row carries the file and the size, and a failed row the message, of a statement that was
   generated in the hand of the worker that held the task.
   */
  lemma EndedRowIsGenerated(c: Config, pool: nat, now: int, es: seq<Event>, id: TaskId)
    requires id in Run(c, pool, now, es).rows
    requires Run(c, pool, now, es).rows[id].status == Success || Run(c, pool, now, es).rows[id].status == Failed
    ensures exists i: nat, out :: i < |es| && GeneratesFor(c, Initial(pool, now), es, i, id, out)
                                  && Carries(Run(c, pool, now, es).rows[id], out)
  {
    RunInv(c, pool, now, es);
    AllTraced(c, pool, now, es);
    EndedRowIsTask(c, Run(c, pool, now, es), id);
    assert EndTraced(c, Initial(pool, now), es, id, Run(c, pool, now, es).mem[id]);
  }

  // ----- the statement is the only one -----

  /** The task's statement has been generated. */
  ghost predicate Past(s: State, id: TaskId) {
    && id in s.mem
    && (Ended(s.mem[id])
        || exists w :: 0 <= w < |s.workers| && s.workers[w].Busy? && s.workers[w].job.id == id && s.workers[w].stage.Generated?)
  }

  lemma PastKept(c: Config, s: State, e: Event, id: TaskId)
    requires Inv(c, s) && Past(s, id) && Enabled(c, s, e)
    ensures Past(Next(c, s, e), id)
  {
    if Ended(s.mem[id]) {
      EndedMemStays(c, s, e, id);
    } else {
      var w :| 0 <= w < |s.workers| && s.workers[w].Busy? && s.workers[w].job.id == id && s.workers[w].stage.Generated?;
      InHandPast(c, s, e, id, w);
    }
  }

  lemma InHandPast(c: Config, s: State, e: Event, id: TaskId, w: nat)
    requires Domains(s) && Enabled(c, s, e)
    requires w < |s.workers| && s.workers[w].Busy? && s.workers[w].job.id == id && s.workers[w].stage.Generated?
    ensures Past(Next(c, s, e), id)
  {
    var t := Next(c, s, e);
    if e.SaveFinal? && e.w == w {
      assert Ended(t.mem[id]);
    } else {
      assert t.workers[w] == s.workers[w];
    }
  }

  lemma PastNotStarted(c: Config, s: State, id: TaskId, w: nat)
    requires Inv(c, s) && Past(s, id) && AtStage(s, w, Started)
    ensures s.workers[w].job.id != id
  {
  }

  lemma {:induction false} PastAfter(c: Config, s: State, es: seq<Event>, id: TaskId)
    requires Inv(c, s) && Past(s, id)
    ensures Past(After(c, s, es), id)
  {
    if es != [] {
      var n := |es| - 1;
      PastAfter(c, s, es[..n], id);
      InvAfter(c, s, es[..n]);
      if Enabled(c, After(c, s, es[..n]), es[n]) {
        PastKept(c, After(c, s, es[..n]), es[n], id);
      }
    }
  }

  lemma GeneratedIsPast(c: Config, s: State, w: nat, out: Outcome)
    requires Domains(s) && AtStage(s, w, Started)
    ensures Past(Step(c, s, Generate(w, out)), s.workers[w].job.id)
  {
    var t := Step(c, s, Generate(w, out));
    assert t.workers[w].stage == Generated(out);
  }

  lemma PastSince(c: Config, s: State, es: seq<Event>, i: nat, j: nat, id: TaskId, out: Outcome)
    requires Inv(c, s) && i < j <= |es| && GeneratesFor(c, s, es, i, id, out)
    ensures Past(After(c, s, es[..j]), id)
  {
    var before, upTo := es[..i], es[..i + 1];
    assert upTo == before + [es[i]] && es[..j] == upTo + es[i + 1..j];
    InvAfter(c, s, before);
    AfterSnoc(c, s, before, es[i]);
    GeneratedIsPast(c, After(c, s, before), es[i].w, out);
    InvAfter(c, s, upTo);
    AfterConcat(c, s, upTo, es[i + 1..j]);
    PastAfter(c, After(c, s, upTo), es[i + 1..j], id);
  }

  /** In no run is a statement generated twice for one task. */
  lemma GeneratedOnce(c: Config, pool: nat, now: int, es: seq<Event>, i: nat, j: nat, id: TaskId, a: Outcome, b: Outcome)
    requires i < j < |es| && GeneratesFor(c, Initial(pool, now), es, i, id, a)
    ensures !GeneratesFor(c, Initial(pool, now), es, j, id, b)
  {
    InvInitial(c, pool, now);
    PastSince(c, Initial(pool, now), es, i, j, id, a);
    RunInv(c, pool, now, es[..j]);
    if GeneratesFor(c, Initial(pool, now), es, j, id, b) {
      PastNotStarted(c, After(c, Initial(pool, now), es[..j]), id, es[j].w);
    }
  }
}
