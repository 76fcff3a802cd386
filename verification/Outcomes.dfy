/**
 What an executor tells the tables about its task (internal/dispatch/dispatcher.go): the writes each received status
 leads to, in order, however many steps of others come between them, and how the job ends.
 */
module Outcomes {
  import opened Common
  import opened Tables
  import opened Protocol
  import opened Guarantees
  import Audit
  import Orphans
  import Phases
  import Aer = AerEngine

  // ---- the writes still owed ----

  function FailedWrite(id: JobId, category: string): Tables.Step {
    TransitionStep(id, Phases.Failed, AddCondition(Condition("Failed", "True", category, "")))
  }

  function CancelledWrite(id: JobId): Tables.Step {
    TransitionStep(id, Phases.Cancelled, AddCondition(Condition("Cancelled", "True", "AdapterCancelled", "")))
  }

  /** What must be written for a task whose adapter reports this status. */
  function WritesFor(id: JobId, task: TaskId, h: Handle, status: Aer.Task): seq<Tables.Step> {
    match status.state
    case Queued => []
    case Running => [UpdateTaskStep(task, Some(h), "RUNNING"), TransitionStep(id, Phases.Running, Keep)]
    case Succeeded =>
      [TransitionStep(id, Phases.Running, Keep), UpdateTaskStep(task, Some(h), "SUCCEEDED")]
    case Failed =>
      [UpdateTaskStep(task, Some(h), "FAILED"), UpdateTaskStep(task, None, "FAILED"),
       FailedWrite(id, if status.error.Some? then CategoryName(status.error.value) else "VENDOR_ERROR")]
    case Cancelled => [UpdateTaskStep(task, Some(h), "CANCELLED"), CancelledWrite(id)]
  }

  /** The writes an executor makes from this program counter before anything else. */
  ghost predicate Owes(id: JobId, x: Exec, ws: seq<Tables.Step>) {
    match x.pc
    case Queueing(h) => ws == [UpdateTaskStep(x.task, Some(h), "QUEUED"), TransitionStep(id, Phases.Submitted, Keep)]
    case Marking(_) => ws == [TransitionStep(id, Phases.Submitted, Keep)]
    case RunStoring(h) => ws == [UpdateTaskStep(x.task, Some(h), "RUNNING"), TransitionStep(id, Phases.Running, Keep)]
    case RunMarking(h) => ws == [TransitionStep(id, Phases.Running, Keep)]
    case Passing(h, _) =>
      ws == [TransitionStep(id, Phases.Running, Keep), UpdateTaskStep(x.task, Some(h), "SUCCEEDED")]
    case Storing(h, _) => ws == [UpdateTaskStep(x.task, Some(h), "SUCCEEDED")]
    case Concluding(_, usage) => ws == [TransitionStep(id, Phases.Succeeded, SetUsage(usage))]
    case FailStoring(h, c) =>
      ws == [UpdateTaskStep(x.task, Some(h), "FAILED"), UpdateTaskStep(x.task, None, "FAILED"), FailedWrite(id, c)]
    case Failing(c) => ws == [UpdateTaskStep(x.task, None, "FAILED"), FailedWrite(id, c)]
    case FailMarking(c) => ws == [FailedWrite(id, c)]
    case CancelStoring(h) => ws == [UpdateTaskStep(x.task, Some(h), "CANCELLED"), CancelledWrite(id)]
    case CancelMarking => ws == [CancelledWrite(id)]
    case _ => false
  }

  /** Nothing is owed any more: the executor has gone or does something else. */
  ghost predicate Settled(sys: System, k: (Proc, JobId)) {
    k in sys.execs ==> forall ws :: !Owes(k.1, sys.execs[k], ws)
  }

  // ---- one step ----

  /** The only move from such a program counter is the next write. */
  lemma OwedMove(db: Db, eng: Aer.Engine, id: JobId, x: Exec, ws: seq<Tables.Step>, m: Move)
    requires Owes(id, x, ws) && MoveEnabled(db, eng, id, x, m)
    ensures m.Persist? && ws != []
    ensures EffectOf(db, eng, id, x, m).write == if m.lost then None else Some(ws[0])
    ensures |ws| > 1 ==>
              && EffectOf(db, eng, id, x, m).next.Some?
              && Owes(id, x.(pc := EffectOf(db, eng, id, x, m).next.value), ws[1..])
  {
  }

  /** What a received status leads to. */
  lemma ReceivedOwes(db: Db, eng: Aer.Engine, id: JobId, x: Exec, status: Aer.Task)
    requires MoveEnabled(db, eng, id, x, Receive(status))
    ensures var e, known := EffectOf(db, eng, id, x, Receive(status)),
                            status.state.Queued? || (status.state.Running? && x.pc.running);
            && e.write.None? && e.call.None? && e.next.Some?
            && (known ==> e.next.value == x.pc)
            && (!known ==>
                  Owes(id, x.(pc := e.next.value), WritesFor(id, x.task, x.pc.h, status)))
  {
  }

  /** An answered submission is stored and the job marked SUBMITTED; every other way out of a start fails the job. */
  lemma SubmissionOwes(db: Db, eng: Aer.Engine, id: JobId, x: Exec, m: Move)
    requires MoveEnabled(db, eng, id, x, m) && EffectOf(db, eng, id, x, m).next.Some?
    requires m.SubmitTask? || m.SubmitFails? || m.NoAdapter? || m.BadPayload? || m.SessionFails?
    ensures var y := x.(pc := EffectOf(db, eng, id, x, m).next.value);
            match m
            case SubmitTask(newId, _, _, _, lost) =>
              if lost then Owes(id, y, [UpdateTaskStep(x.task, None, "FAILED"), FailedWrite(id, "VENDOR_ERROR")])
              else Owes(id, y, [UpdateTaskStep(x.task, Some(SubmittedHandle(eng, x.target, x.task, newId)), "QUEUED"),
                                TransitionStep(id, Phases.Submitted, Keep)])
            case NoAdapter => Owes(id, y, [UpdateTaskStep(x.task, None, "FAILED"), FailedWrite(id, "DEVICE_OFFLINE")])
            case BadPayload => Owes(id, y, [UpdateTaskStep(x.task, None, "FAILED"), FailedWrite(id, "INVALID_PROGRAM")])
            case SubmitFails => Owes(id, y, [UpdateTaskStep(x.task, None, "FAILED"), FailedWrite(id, "VENDOR_ERROR")])
            case SessionFails =>
              var category := if db.jobs[id].doc.view.sessionJoin.Some? then "SESSION_LOST" else "VENDOR_ERROR";
              Owes(id, y, [UpdateTaskStep(x.task, None, "FAILED"), FailedWrite(id, category)])
            case _ => false
  {
  }

  lemma StepOf(sys: System, s: Protocol.Step, sys': System, m: Move)
    requires StepTo(sys, s, sys') && s.Execute? && s.m == m
    ensures (s.p, s.id) in sys.execs && MoveEnabled(sys.db, sys.eng, s.id, sys.execs[(s.p, s.id)], m)
    ensures var k := (s.p, s.id);
            var e := EffectOf(sys.db, sys.eng, s.id, sys.execs[k], m);
            && sys'.db == Wrote(sys.db, e.write)
            && (e.next.Some? ==> k in sys'.execs && sys'.execs[k] == sys.execs[k].(pc := e.next.value))
            && (e.next.None? ==> k !in sys'.execs)
  {
  }

  // ---- runs with their steps ----

  ghost predicate Traced(run: seq<System>, steps: seq<Protocol.Step>) {
    IsRun(run) && |steps| + 1 == |run| && forall n :: 0 <= n < |steps| ==> StepTo(run[n], steps[n], run[n + 1])
  }

  /** Between i and k the process does not crash and none of this executor's writes is lost. */
  ghost predicate Undisturbed(steps: seq<Protocol.Step>, i: nat, k: nat, e: (Proc, JobId)) {
    k <= |steps| && forall n :: i <= n < k ==>
      && !(steps[n].Crash? && steps[n].p == e.0)
      && !(steps[n].Execute? && steps[n].p == e.0 && steps[n].id == e.1 && steps[n].m == Persist(true))
  }

  /** The writes ws reach the tables in this order, at the steps `at` between i and k. */
  ghost predicate Delivered(run: seq<System>, i: nat, k: nat, ws: seq<Tables.Step>, at: seq<nat>) {
    InOrder(Reached(run), i, k, ws, at)
  }

  /** The step at n makes the write w. */
  ghost function Reached(run: seq<System>): (nat, Tables.Step) -> bool {
    (n: nat, w: Tables.Step) => n + 1 < |run| && run[n + 1].db == Tables.Apply(run[n].db, w)
  }

  ghost predicate InOrder(reached: (nat, Tables.Step) -> bool, i: nat, k: nat, ws: seq<Tables.Step>, at: seq<nat>) {
    && |at| == |ws|
    && (forall n :: 0 <= n < |at| ==> i <= at[n] < k && reached(at[n], ws[n]))
    && (forall m, n :: 0 <= m < n < |at| ==> at[m] < at[n])
  }

  lemma InOrderLater(reached: (nat, Tables.Step) -> bool, i: nat, k: nat, ws: seq<Tables.Step>, at: seq<nat>)
    requires InOrder(reached, i + 1, k, ws, at)
    ensures InOrder(reached, i, k, ws, at)
  {
  }

  lemma InOrderNow(reached: (nat, Tables.Step) -> bool, i: nat, k: nat, ws: seq<Tables.Step>, at: seq<nat>)
    requires ws != [] && i < k && InOrder(reached, i + 1, k, ws[1..], at) && reached(i, ws[0])
    ensures InOrder(reached, i, k, ws, [i] + at)
  {
    forall n | 0 <= n < |ws| ensures i <= ([i] + at)[n] < k && reached(([i] + at)[n], ws[n]) {
      if n > 0 {
        assert ws[1..][n - 1] == ws[n] && reached(at[n - 1], ws[1..][n - 1]);
      }
    }
  }

  /** One step of a run towards settling: somebody else's, or the next write. */
  lemma OwedStep(sys: System, s: Protocol.Step, sys': System, e: (Proc, JobId), ws: seq<Tables.Step>)
    requires StepTo(sys, s, sys') && e in sys.execs && Owes(e.1, sys.execs[e], ws)
    requires !(s.Crash? && s.p == e.0) && !(s.Execute? && s.p == e.0 && s.id == e.1 && s.m == Persist(true))
    ensures if s.Execute? && (s.p, s.id) == e then
              && ws != [] && sys'.db == Tables.Apply(sys.db, ws[0])
              && (|ws| > 1 ==> e in sys'.execs && Owes(e.1, sys'.execs[e], ws[1..]))
            else e in sys'.execs && sys'.execs[e] == sys.execs[e]
  {
    if s.Execute? && (s.p, s.id) == e {
      StepOf(sys, s, sys', s.m);
      OwedMove(sys.db, sys.eng, e.1, sys.execs[e], ws, s.m);
    } else {
      Orphans.ExecsStay(sys, s, e);
    }
  }

  /** An undisturbed executor that has settled has made all the writes it owed, in order. */
  lemma {:induction false} OwedWritesArrive(run: seq<System>, steps: seq<Protocol.Step>, i: nat, k: nat,
                                            e: (Proc, JobId), ws: seq<Tables.Step>) returns (at: seq<nat>)
    requires Traced(run, steps) && i <= k && Undisturbed(steps, i, k, e)
    requires e in run[i].execs && Owes(e.1, run[i].execs[e], ws) && Settled(run[k], e)
    ensures Delivered(run, i, k, ws, at)
    decreases k - i
  {
    assert i < k;
    OwedStep(run[i], steps[i], run[i + 1], e, ws);
    if steps[i].Execute? && (steps[i].p, steps[i].id) == e {
      var rest := [];
      if |ws| > 1 {
        rest := OwedWritesArrive(run, steps, i + 1, k, e, ws[1..]);
      }
      InOrderNow(Reached(run), i, k, ws, rest);
      at := [i] + rest;
    } else {
      at := OwedWritesArrive(run, steps, i + 1, k, e, ws);
      InOrderLater(Reached(run), i, k, ws, at);
    }
  }

  /**
   Whatever the adapter reports is mirrored: once an undisturbed executor that received a status has settled, exactly
   the writes for that status have reached the tables, in order. A terminal status is what the engine's task still is.
   */
  lemma StatusIsMirrored(run: seq<System>, steps: seq<Protocol.Step>, i: nat, k: nat, p: Proc, id: JobId, x: Exec,
                         status: Aer.Task) returns (at: seq<nat>)
    requires Traced(run, steps) && i < |steps| && i < k && steps[i] == Execute(p, id, Receive(status))
    requires (p, id) in run[i].execs && run[i].execs[(p, id)] == x && x.pc.Following?
    requires Undisturbed(steps, i + 1, k, (p, id)) && Settled(run[k], (p, id))
    requires !status.state.Queued? && (status.state.Running? ==> !x.pc.running)
    ensures x.pc.h in run[i].eng.tasks && (Aer.Terminal(status.state) ==> status == run[i].eng.tasks[x.pc.h])
    ensures Delivered(run, i + 1, k, WritesFor(id, x.task, x.pc.h, status), at)
  {
    StepOf(run[i], steps[i], run[i + 1], Receive(status));
    ReceivedOwes(run[i].db, run[i].eng, id, x, status);
    at := OwedWritesArrive(run, steps, i + 1, k, (p, id), WritesFor(id, x.task, x.pc.h, status));
  }

  // ---- how the job ends ----

  /** A write that ends a job that has not ended, with its condition. */
  lemma EndingWrite(db: Db, id: JobId, to: Phases.Phase, c: Condition)
    requires Audit.Inv(db) && id in db.jobs && !Phases.Terminal(db.jobs[id].phase)
    requires to in {Phases.Failed, Phases.Cancelled}
    ensures Ends(db, Tables.Apply(db, TransitionStep(id, to, AddCondition(c))), id, to, c)
  {
    assert Audit.JobOk(db, id);
    KnownPhase(ChainOf(db.events, id));
  }

  ghost predicate Ends(db: Db, db': Db, id: JobId, to: Phases.Phase, c: Condition) {
    && id in db.jobs && id in db'.jobs && db'.jobs[id].phase == to
    && db'.jobs[id].status.conditions == db.jobs[id].status.conditions + [c]
  }

  /** How a job ends whose engine task ended as t. */
  function EndFor(t: Aer.Task): (Phases.Phase, Condition) {
    if t.state == Aer.Failed then
      (Phases.Failed,
       Condition("Failed", "True", if t.error.Some? then CategoryName(t.error.value) else "VENDOR_ERROR", ""))
    else (Phases.Cancelled, Condition("Cancelled", "True", "AdapterCancelled", ""))
  }

  /**
   The engine's outcome is the job's: if the engine's task failed or was cancelled, and the executor received that, was
   not disturbed and has settled, then unless the job had ended before the executor's last write, at m, that write ends
   it: FAILED with the engine's category, or CANCELLED. It stays so.
   */
  lemma EngineOutcomeIsTheJobs(run: seq<System>, steps: seq<Protocol.Step>, i: nat, k: nat, p: Proc, id: JobId,
                               x: Exec, t: Aer.Task) returns (m: nat)
    requires Traced(run, steps) && i < |steps| && i < k && (p, id) in run[i].execs && run[i].execs[(p, id)] == x
    requires x.pc.Following? && x.pc.h in run[i].eng.tasks && run[i].eng.tasks[x.pc.h] == t
    requires t.state in {Aer.Failed, Aer.Cancelled} && steps[i] == Execute(p, id, Receive(t))
    requires Undisturbed(steps, i + 1, k, (p, id)) && Settled(run[k], (p, id))
    ensures t.state == Aer.Failed ==> t.error.Some?
    ensures i < m < k && id in run[m].db.jobs && id in run[k].db.jobs
    ensures !Phases.Terminal(run[m].db.jobs[id].phase) ==>
              && Ends(run[m].db, run[m + 1].db, id, EndFor(t).0, EndFor(t).1)
              && run[k].db.jobs[id].phase == EndFor(t).0
  {
    FailedHasCategory(run, i, x.pc.h);
    m := LastWrite(run, steps, i, k, p, id, x, t);
    JobStays(run, i, m, p, id);
    JobStays(run, i, k, p, id);
    JobEnds(run, m, k, id, EndFor(t).0, EndFor(t).1);
  }

  lemma LastWrite(run: seq<System>, steps: seq<Protocol.Step>, i: nat, k: nat, p: Proc, id: JobId, x: Exec,
                  t: Aer.Task) returns (m: nat)
    requires Traced(run, steps) && i < |steps| && i < k && (p, id) in run[i].execs && run[i].execs[(p, id)] == x
    requires x.pc.Following? && t.state in {Aer.Failed, Aer.Cancelled} && steps[i] == Execute(p, id, Receive(t))
    requires Undisturbed(steps, i + 1, k, (p, id)) && Settled(run[k], (p, id))
    ensures i < m < k < |run| && Reached(run)(m, TransitionStep(id, EndFor(t).0, AddCondition(EndFor(t).1)))
  {
    var at := StatusIsMirrored(run, steps, i, k, p, id, x, t);
    m := at[|at| - 1];
  }

  lemma JobEnds(run: seq<System>, m: nat, k: nat, id: JobId, to: Phases.Phase, c: Condition)
    requires IsRun(run) && m < k < |run| && id in run[m].db.jobs && to in {Phases.Failed, Phases.Cancelled}
    requires Reached(run)(m, TransitionStep(id, to, AddCondition(c)))
    ensures !Phases.Terminal(run[m].db.jobs[id].phase) ==>
              Ends(run[m].db, run[m + 1].db, id, to, c) && id in run[k].db.jobs && run[k].db.jobs[id].phase == to
  {
    if !Phases.Terminal(run[m].db.jobs[id].phase) {
      RunInvariant(run, m);
      EndingWrite(run[m].db, id, to, c);
      EndedJobsAreNeverBound(run, m + 1, k, id);
    }
  }

  lemma JobStays(run: seq<System>, i: nat, k: nat, p: Proc, id: JobId)
    requires IsRun(run) && i <= k < |run| && (p, id) in run[i].execs
    ensures id in run[k].db.jobs
  {
    var r := (s: System) => Inv(s) && id in s.db.jobs;
    forall a, b | r(a) && Next(a, b) ensures r(b) {
      NextKeeps(a, b);
      NextKeepsJob(a, b, id);
    }
    RunInvariant(run, i);
    assert ExecOk(run[i].db, run[i].eng, run[i].unbilled, id, run[i].execs[(p, id)]);
    RunKeeps(r, run, i, k);
  }

  lemma NextKeepsJob(a: System, b: System, id: JobId)
    requires Inv(a) && Next(a, b) && id in a.db.jobs
    ensures id in b.db.jobs
  {
    var s :| StepTo(a, s, b);
    StepMoves(a, s, b);
  }

  lemma FailedHasCategory(run: seq<System>, i: nat, h: Handle)
    requires IsRun(run) && i < |run| && h in run[i].eng.tasks
    ensures run[i].eng.tasks[h].state == Aer.Failed ==> run[i].eng.tasks[h].error.Some?
  {
    RunInvariant(run, i);
    assert Aer.TaskOk(run[i].eng, h);
  }

  /** The adapter's categories stay apart on the job. */
  lemma CategoriesStayApart(a: Aer.Category, b: Aer.Category)
    ensures CategoryName(a) == CategoryName(b) <==> a == b
    ensures CategoryName(Aer.VendorError) == "VENDOR_ERROR" && CategoryName(Aer.SessionLost) == "SESSION_LOST"
    ensures CategoryName(Aer.InvalidProgram) == "INVALID_PROGRAM"
    ensures CategoryName(Aer.CapabilityMismatch) == "CAPABILITY_MISMATCH"
  {
    assert "VENDOR_ERROR"[0] == 'V' && "SESSION_LOST"[0] == 'S' && "INVALID_PROGRAM"[0] == 'I';
    assert "CAPABILITY_MISMATCH"[0] == 'C';
  }

  // ---- nobody is stuck ----

  /** A write that is owed can be made, or be lost. */
  lemma OwedWriteCanBeMade(db: Db, eng: Aer.Engine, id: JobId, x: Exec, ws: seq<Tables.Step>, lost: bool)
    requires id in db.jobs && Owes(id, x, ws)
    ensures MoveEnabled(db, eng, id, x, Persist(lost))
  {
  }

  /** What the environment may choose: any way to fail before the submission, any answer of a second look. */
  lemma EnvironmentIsFree(db: Db, eng: Aer.Engine, id: JobId, x: Exec, now: real, failed: bool, lost: bool)
    requires id in db.jobs
    ensures x.pc.Start? ==>
              && MoveEnabled(db, eng, id, x, NoAdapter) && MoveEnabled(db, eng, id, x, BadPayload)
              && MoveEnabled(db, eng, id, x, SessionFails) && MoveEnabled(db, eng, id, x, ResolveSession(now))
    ensures x.pc.Submitting? ==> MoveEnabled(db, eng, id, x, SubmitFails)
    ensures x.pc.Rechecking? ==> MoveEnabled(db, eng, id, x, Reread(failed, now, lost))
    ensures x.pc.Following? && x.pc.h in eng.tasks ==> MoveEnabled(db, eng, id, x, Receive(eng.tasks[x.pc.h]))
  {
  }

  /** Wherever an executor stands it can go on. */
  lemma ExecutorsCanMove(sys: System, k: (Proc, JobId))
    requires Inv(sys) && k in sys.execs
    ensures exists m :: MoveEnabled(sys.db, sys.eng, k.1, sys.execs[k], m)
  {
    var x := sys.execs[k];
    assert ExecOk(sys.db, sys.eng, sys.unbilled, k.1, x);
    SoundExecCanMove(sys.db, sys.eng, sys.unbilled, k.1, x);
  }

  lemma SoundExecCanMove(db: Db, eng: Aer.Engine, unbilled: set<TaskId>, id: JobId, x: Exec)
    requires Aer.Inv(eng) && ExecOk(db, eng, unbilled, id, x)
    ensures exists m :: MoveEnabled(db, eng, id, x, m)
  {
    if x.pc.Following? {
      HeldIsKnown(eng, x, x.pc.h);
    }
    SomeMove(db, eng, id, x);
  }

  lemma SomeMove(db: Db, eng: Aer.Engine, id: JobId, x: Exec)
    requires id in db.jobs && (x.pc.Following? ==> x.pc.h in eng.tasks)
    requires x.pc.Recording? ==> x.pc.todo <= x.pc.usage.Keys
    ensures exists m :: MoveEnabled(db, eng, id, x, m)
  {
    match x.pc
    case Start => assert MoveEnabled(db, eng, id, x, NoAdapter);
    case Submitting(_) => assert MoveEnabled(db, eng, id, x, SubmitFails);
    case Rechecking(_, _) => assert MoveEnabled(db, eng, id, x, Reread(false, 0.0, false));
    case Following(h, _) => assert MoveEnabled(db, eng, id, x, Receive(eng.tasks[h]));
    case Recording(_, usage, todo) =>
      if todo == {} {
        assert MoveEnabled(db, eng, id, x, RecordDone);
      } else {
        var unit :| unit in todo;
        assert MoveEnabled(db, eng, id, x, Record(unit, false));
      }
    case _ => assert MoveEnabled(db, eng, id, x, Persist(false));
  }

  /** Cycles, crashes, resumes and the API are always possible; a resume of a task gets its job an executor. */
  lemma ProcessesAreFree(sys: System, p: Proc, task: TaskId, id: JobId, sid: SessionId)
    ensures Enabled(sys, Crash(p)) && Enabled(sys, CancelJob(id)) && Enabled(sys, ExpireSession(sid))
    ensures id in sys.db.jobs && p !in sys.tries ==> Enabled(sys, Look(p, id))
    ensures task in sys.db.tasks ==>
              && Enabled(sys, Resume(p, task))
              && var row := sys.db.tasks[task];
                 (p, row.jobId) !in sys.execs ==>
                   && (p, row.jobId) in ExecsAfter(sys, Resume(p, task))
                   && ExecsAfter(sys, Resume(p, task))[(p, row.jobId)] == Exec(task, row.target, Start)
  {
  }

  /** An accepted submission is a PENDING job of its tenant; a cancellation ends a job that has not ended. */
  lemma ApiReachesTheJob(sys: System, id: JobId, tenant: string, doc: Doc, sys': System)
    requires Inv(sys)
    ensures StepTo(sys, SubmitJob(id, tenant, doc, []), sys') && id !in sys.db.jobs ==>
              && id in sys'.db.jobs && sys'.db.jobs[id].phase == Phases.Pending
              && sys'.db.jobs[id].tenant == tenant && sys'.db.jobs[id].doc == doc
    ensures StepTo(sys, CancelJob(id), sys') && id in sys.db.jobs && !Phases.Terminal(sys.db.jobs[id].phase) ==>
              Ends(sys.db, sys'.db, id, Phases.Cancelled, Condition("Cancelled", "True", "UserRequested", ""))
  {
    if id in sys.db.jobs && !Phases.Terminal(sys.db.jobs[id].phase) {
      EndingWrite(sys.db, id, Phases.Cancelled, Condition("Cancelled", "True", "UserRequested", ""));
    } else {
      InsertedJob(sys.db, id, tenant, doc, []);
    }
  }

  // ---- a job that ended elsewhere ----

  /**
   An executor whose transition was refused looks at the job: if it has ended it stops, and unless the cancel call is
   lost the engine's task is over or asked to stop; otherwise it goes on following.
   */
  lemma RefusedExecutorsStop(sys: System, p: Proc, id: JobId, failed: bool, now: real, lost: bool, sys': System)
    requires Inv(sys) && StepTo(sys, Execute(p, id, Reread(failed, now, lost)), sys')
    ensures var x := sys.execs[(p, id)];
            && x.pc.Rechecking? && x.pc.h in sys.eng.tasks && x.pc.h in sys'.eng.tasks && id in sys.db.jobs
            && if failed || sys.db.jobs[id].phase in {Phases.Succeeded, Phases.Failed, Phases.Cancelled} then
                 && (p, id) !in sys'.execs
                 && (!lost ==> Aer.Terminal(sys'.eng.tasks[x.pc.h].state) || sys'.eng.tasks[x.pc.h].cancelRequested)
               else (p, id) in sys'.execs && sys'.execs[(p, id)].pc == Following(x.pc.h, x.pc.running)
  {
    RecheckerHolds(sys, p, id);
    EndedPhases(sys.db.jobs[id].phase);
    RereadMoves(sys, p, id, failed, now, lost, sys');
  }

  lemma RecheckerHolds(sys: System, p: Proc, id: JobId)
    requires Inv(sys) && (p, id) in sys.execs && sys.execs[(p, id)].pc.Rechecking?
    ensures sys.execs[(p, id)].pc.h in sys.eng.tasks
  {
    assert ExecOk(sys.db, sys.eng, sys.unbilled, id, sys.execs[(p, id)]);
    HeldIsKnown(sys.eng, sys.execs[(p, id)], sys.execs[(p, id)].pc.h);
  }

  lemma EndedPhases(p: Phases.Phase)
    ensures Phases.Terminal(p) <==> p in {Phases.Succeeded, Phases.Failed, Phases.Cancelled}
  {
  }

  lemma RereadMoves(sys: System, p: Proc, id: JobId, failed: bool, now: real, lost: bool, sys': System)
    requires StepTo(sys, Execute(p, id, Reread(failed, now, lost)), sys')
    ensures var x := sys.execs[(p, id)];
            && x.pc.Rechecking? && id in sys.db.jobs && (x.pc.h in sys.eng.tasks ==> x.pc.h in sys'.eng.tasks)
            && if failed || Phases.Terminal(sys.db.jobs[id].phase) then
                 (p, id) !in sys'.execs && (!lost ==> !Orphans.Open(sys'.eng, x.pc.h))
               else (p, id) in sys'.execs && sys'.execs[(p, id)].pc == Following(x.pc.h, x.pc.running)
  {
    Orphans.CancelCloses(sys.eng, sys.execs[(p, id)].pc.h, now);
  }

  lemma HeldIsKnown(eng: Aer.Engine, x: Exec, h: Handle)
    requires Aer.Inv(eng) && Guarantees.Holds(eng, x, h)
    ensures h in eng.tasks
  {
    assert Aer.KeyOk(eng, (x.target, x.task));
  }

  // ---- what a decision does to the tables ----

  lemma BoundTables(db: Db, id: JobId, task: TaskId, target: string)
    requires id in db.jobs && task !in db.tasks
    ensures var r := Bind(db, id, task, target);
            if db.jobs[id].phase == Phases.Pending then r.Ok? && BoundTo(r.value, id, task, target)
            else r.Err? && Tables.Apply(db, BindStep(id, task, target)) == db
  {
  }

  /** SCHEDULED with a fresh task row on that target. */
  ghost predicate BoundTo(db: Db, id: JobId, task: TaskId, target: string) {
    && id in db.jobs && db.jobs[id].phase == Phases.Scheduled && db.jobs[id].status.boundTarget == Some(target)
    && task in db.tasks && db.tasks[task] == TaskRow(id, target, None, "QUEUED")
  }

  /** FAILED with this category, and one more condition. */
  ghost predicate FailedWith(db: Db, db': Db, id: JobId, category: string, c: Condition) {
    && id in db.jobs && id in db'.jobs && db'.jobs[id].phase == Phases.Failed
    && db'.jobs[id].status.error == Some(category)
    && db'.jobs[id].status.conditions == db.jobs[id].status.conditions + [c]
  }

  lemma RejectedTables(db: Db, id: JobId, c: Condition, category: string)
    requires Audit.Inv(db) && id in db.jobs && !Phases.Terminal(db.jobs[id].phase)
    ensures FailedWith(db, Tables.Apply(db, TransitionStep(id, Phases.Failed, Fail(c, category))), id, category, c)
  {
    assert Audit.JobOk(db, id);
    KnownPhase(ChainOf(db.events, id));
  }

  /** A bind moves a PENDING job to SCHEDULED with its task row on the chosen target, and otherwise does nothing. */
  lemma BindReachesTheJob(sys: System, p: Proc, how: Placing, task: TaskId, sys': System)
    requires StepTo(sys, Decide(p, how, task, false), sys') && how.attempt.BindTo? && sys.tries[p].id in sys.db.jobs
    ensures var id := sys.tries[p].id;
            if sys.db.jobs[id].phase == Phases.Pending then
              && BoundTo(sys'.db, id, task, how.attempt.target)
              && (p, id) in sys'.execs
              && ((p, id) !in sys.execs ==> sys'.execs[(p, id)] == Exec(task, how.attempt.target, Start))
            else sys'.db == sys.db && sys'.execs == sys.execs
  {
    BoundTables(sys.db, sys.tries[p].id, task, how.attempt.target);
  }

  /** A rejection ends the job FAILED with CAPABILITY_MISMATCH; staying pending writes nothing. */
  lemma RejectionReachesTheJob(sys: System, p: Proc, how: Placing, task: TaskId, sys': System)
    requires Inv(sys) && StepTo(sys, Decide(p, how, task, false), sys') && !how.attempt.BindTo?
    ensures var id := sys.tries[p].id;
            && id in sys.db.jobs && sys'.execs == sys.execs
            && (how.attempt.StayPending? ==> sys'.db == sys.db)
            && (how.attempt.FailUnsatisfiable? && !Phases.Terminal(sys.db.jobs[id].phase) ==>
                  FailedWith(sys.db, sys'.db, id, "CAPABILITY_MISMATCH",
                             Condition("UnsatisfiableBeforeDeadline", "True", "OnConflictReject", "")))
  {
    var id := sys.tries[p].id;
    assert TryOk(sys.db, sys.tries[p]);
    assert sys'.db == Wrote(sys.db, DecisionWrite(id, how, task));
    if !Phases.Terminal(sys.db.jobs[id].phase) {
      RejectedTables(sys.db, id, Condition("UnsatisfiableBeforeDeadline", "True", "OnConflictReject", ""),
                     "CAPABILITY_MISMATCH");
    }
  }
}
