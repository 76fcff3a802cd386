/** Which events leave an engine task running that no executor follows (internal/dispatch/dispatcher.go). */
module Orphans {
  import opened Common
  import opened Tables
  import opened Protocol
  import opened Guarantees
  import Phases
  import Aer = AerEngine

  /** Neither over nor asked to stop. */
  ghost predicate Open(eng: Aer.Engine, h: Handle) {
    h in eng.tasks && !Aer.Terminal(eng.tasks[h].state) && !eng.tasks[h].cancelRequested
  }

  /** An executor that has neither learnt how its task ended nor given up. */
  predicate Attending(pc: Pc) {
    pc.Start? || pc.Opening? || pc.Noting? || pc.Stamping? || pc.Submitting? || pc.Queueing? || pc.Marking?
    || pc.Rechecking? || pc.Following? || pc.RunStoring? || pc.RunMarking?
  }

  ghost predicate AttendedBy(sys: System, t: TaskId, k: (Proc, JobId)) {
    k in sys.execs && sys.execs[k].task == t && Attending(sys.execs[k].pc)
  }

  ghost predicate Attended(sys: System, t: TaskId) {
    exists k :: AttendedBy(sys, t, k)
  }

  /** A move by which an executor stops attending although it saw no outcome and asked for no cancellation. */
  predicate GivesUp(db: Db, id: JobId, x: Exec, m: Move)
    requires id in db.jobs
  {
    match m
    case NoAdapter => true
    case BadPayload => true
    case SessionFails => true
    case SubmitFails => true
    case ResolveSession(now) => JoinOf(db, id).Some? && Rejoin(db, JoinOf(db, id).value, now).Failing?
    case Persist(lost) => x.pc.Opening? && (lost || x.pc.sid in db.sessions)
    case SubmitTask(_, _, _, _, lost) => lost
    case Reread(failed, _, lost) => lost && (failed || Phases.Terminal(db.jobs[id].phase))
    case _ => false
  }

  /** The exceptions: a crash, a lost answer, a lost cancel call, or giving up before (re)submitting. */
  ghost predicate Abandons(sys: System, s: Protocol.Step, t: TaskId) {
    || (s.Crash? && exists k :: AttendedBy(sys, t, k) && k.0 == s.p)
    || (s.Execute? && s.id in sys.db.jobs && AttendedBy(sys, t, (s.p, s.id))
        && GivesUp(sys.db, s.id, sys.execs[(s.p, s.id)], s.m))
  }

  // ---- one step ----

  lemma ExecsStay(sys: System, s: Protocol.Step, k: (Proc, JobId))
    requires Enabled(sys, s) && k in sys.execs
    ensures || (k in ExecsAfter(sys, s) && ExecsAfter(sys, s)[k] == sys.execs[k])
            || (s.Execute? && k == (s.p, s.id)) || (s.Crash? && k.0 == s.p)
  {
  }

  /** A status with an outcome is only received when the engine's task is over. */
  lemma ReceivedIsOver(db: Db, eng: Aer.Engine, id: JobId, x: Exec, status: Aer.Task)
    requires MoveEnabled(db, eng, id, x, Receive(status)) && Open(eng, x.pc.h)
    ensures Attending(OnStatus(x.pc.h, x.pc.running, status))
  {
  }

  /** An executor that does not give up goes on attending, or has its task cancelled. */
  lemma MoveAttends(db: Db, eng: Aer.Engine, id: JobId, x: Exec, m: Move)
    requires MoveEnabled(db, eng, id, x, m) && !GivesUp(db, id, x, m) && Attending(x.pc)
    requires m.Receive? ==> Open(eng, x.pc.h)
    ensures var next := EffectOf(db, eng, id, x, m).next;
            if next.Some? then Attending(next.value)
            else x.pc.Rechecking? && exists now :: EffectOf(db, eng, id, x, m).call == Some(Aer.Cancel(x.pc.h, now))
  {
    if m.Receive? {
      ReceivedIsOver(db, eng, id, x, m.status);
    } else if m.Reread? {
      assert !m.lost || !(m.failed || Phases.Terminal(db.jobs[id].phase));
    }
  }

  lemma GivingUpStops(db: Db, eng: Aer.Engine, id: JobId, x: Exec, m: Move)
    requires MoveEnabled(db, eng, id, x, m) && GivesUp(db, id, x, m)
    ensures var next := EffectOf(db, eng, id, x, m).next;
            next.Some? ==> !Attending(next.value)
  {
  }

  /** The handle an executor holds is the one its task has at the engine. */
  lemma HeldIs(sys: System, k: (Proc, JobId), h: Handle)
    requires Inv(sys) && k in sys.execs && h in sys.eng.tasks && sys.eng.tasks[h].key == sys.execs[k].task
    ensures sys.execs[k].pc.Following? || sys.execs[k].pc.Rechecking? ==> sys.execs[k].pc.h == h
  {
    SameHandle(sys.db, sys.eng, sys.unbilled, k.1, sys.execs[k], h);
  }

  lemma SameHandle(db: Db, eng: Aer.Engine, unbilled: set<TaskId>, id: JobId, x: Exec, h: Handle)
    requires ExecOk(db, eng, unbilled, id, x) && h in eng.tasks && eng.tasks[h].key == x.task
    requires KnownTask(db, eng.tasks[h]) && Aer.TaskOk(eng, h)
    ensures x.pc.Following? || x.pc.Rechecking? ==> x.pc.h == h
  {
  }

  lemma CancelCloses(eng: Aer.Engine, h: Handle, now: real)
    ensures !Open(Aer.AfterCancel(eng, h, now), h)
  {
  }

  lemma OpenBefore(sys: System, s: Protocol.Step, sys': System, h: Handle)
    requires Inv(sys) && StepTo(sys, s, sys') && Open(sys'.eng, h) && h in sys.eng.tasks
    ensures Open(sys.eng, h) && sys.eng.tasks[h].key == sys'.eng.tasks[h].key
  {
    StepMoves(sys, s, sys');
    assert Aer.TaskAdvances(sys.eng.tasks[h], sys'.eng.tasks[h]);
  }

  /** A task that the engine only now knows was sent by an executor that stays with it, unless the answer was lost. */
  lemma NewTaskIsAttended(sys: System, s: Protocol.Step, sys': System, h: Handle)
    requires StepTo(sys, s, sys') && h in sys'.eng.tasks && h !in sys.eng.tasks
    requires !Abandons(sys, s, sys'.eng.tasks[h].key)
    ensures Attended(sys', sys'.eng.tasks[h].key)
  {
    CallsAreEnabled(sys, s);
    NewEngineTask(sys.eng, CallOf(sys, s).value, h);
    assert s.Execute? && s.m.SubmitTask?;
    assert AttendedBy(sys, sys'.eng.tasks[h].key, (s.p, s.id));
    assert AttendedBy(sys', sys'.eng.tasks[h].key, (s.p, s.id));
  }

  lemma MoverAttends(sys: System, s: Protocol.Step, sys': System, h: Handle)
    requires StepTo(sys, s, sys') && s.Execute? && Open(sys'.eng, h) && Open(sys.eng, h)
    requires AttendedBy(sys, sys.eng.tasks[h].key, (s.p, s.id)) && !Abandons(sys, s, sys.eng.tasks[h].key)
    requires var pc := sys.execs[(s.p, s.id)].pc;
             pc.Following? || pc.Rechecking? ==> pc.h == h
    ensures AttendedBy(sys', sys.eng.tasks[h].key, (s.p, s.id))
  {
    var x := sys.execs[(s.p, s.id)];
    MoveAttends(sys.db, sys.eng, s.id, x, s.m);
    if EffectOf(sys.db, sys.eng, s.id, x, s.m).next.None? {
      CancellerCloses(sys, s, sys', h);
    }
  }

  lemma CancellerCloses(sys: System, s: Protocol.Step, sys': System, h: Handle)
    requires StepTo(sys, s, sys') && exists now :: CallOf(sys, s) == Some(Aer.Cancel(h, now))
    ensures !Open(sys'.eng, h)
  {
    var now :| CallOf(sys, s) == Some(Aer.Cancel(h, now));
    CancelCloses(sys.eng, h, now);
  }

  /** Only the exceptions leave an open task alone. */
  lemma StepAttends(sys: System, s: Protocol.Step, sys': System, h: Handle)
    requires Inv(sys) && StepTo(sys, s, sys') && Open(sys'.eng, h)
    requires h in sys.eng.tasks ==> Attended(sys, sys.eng.tasks[h].key)
    requires !Abandons(sys, s, sys'.eng.tasks[h].key)
    ensures Attended(sys', sys'.eng.tasks[h].key)
  {
    if h !in sys.eng.tasks {
      NewTaskIsAttended(sys, s, sys', h);
    } else {
      OpenBefore(sys, s, sys', h);
      var k :| AttendedBy(sys, sys.eng.tasks[h].key, k);
      HeldIs(sys, k, h);
      AttendantStays(sys, s, sys', h, k);
    }
  }

  lemma AttendantStays(sys: System, s: Protocol.Step, sys': System, h: Handle, k: (Proc, JobId))
    requires StepTo(sys, s, sys') && Open(sys.eng, h) && Open(sys'.eng, h)
    requires AttendedBy(sys, sys.eng.tasks[h].key, k) && !Abandons(sys, s, sys.eng.tasks[h].key)
    requires sys.execs[k].pc.Following? || sys.execs[k].pc.Rechecking? ==> sys.execs[k].pc.h == h
    ensures AttendedBy(sys', sys.eng.tasks[h].key, k)
  {
    ExecsStay(sys, s, k);
    if s.Execute? && k == (s.p, s.id) {
      MoverAttends(sys, s, sys', h);
    }
  }

  /**
   And they do: the open task of a sole attendant, known to the engine before or only now, is attended after the step
   exactly when the step is no exception.
   */
  lemma AttendedIff(sys: System, s: Protocol.Step, sys': System, h: Handle, k: (Proc, JobId))
    requires Inv(sys) && StepTo(sys, s, sys') && Open(sys'.eng, h)
    requires forall a :: AttendedBy(sys, sys'.eng.tasks[h].key, a) <==> a == k
    ensures Attended(sys', sys'.eng.tasks[h].key) <==> !Abandons(sys, s, sys'.eng.tasks[h].key)
  {
    var t := sys'.eng.tasks[h].key;
    if h in sys.eng.tasks {
      OpenBefore(sys, s, sys', h);
    }
    assert AttendedBy(sys, t, k);
    if !Abandons(sys, s, t) {
      StepAttends(sys, s, sys', h);
    } else {
      forall a ensures !AttendedBy(sys', t, a) {
        AbandonedBy(sys, s, sys', t, k, a);
      }
    }
  }

  lemma AbandonedBy(sys: System, s: Protocol.Step, sys': System, t: TaskId, k: (Proc, JobId), a: (Proc, JobId))
    requires StepTo(sys, s, sys') && Abandons(sys, s, t) && forall b :: AttendedBy(sys, t, b) <==> b == k
    ensures !AttendedBy(sys', t, a)
  {
    assert AttendedBy(sys, t, a) <==> a == k;
    if s.Execute? {
      GivingUpStops(sys.db, sys.eng, s.id, sys.execs[(s.p, s.id)], s.m);
    }
  }

  // ---- whole runs ----

  /** A step before i abandoned the task, and nobody has attended it since. */
  ghost predicate AbandonedSince(run: seq<System>, i: nat, t: TaskId)
    requires i < |run|
  {
    exists n :: 0 <= n < i && AbandonedAt(run, n, t) && AloneFrom(run, n, i, t)
  }

  ghost predicate AbandonedAt(run: seq<System>, n: nat, t: TaskId)
    requires n + 1 < |run|
  {
    exists s :: Abandons(run[n], s, t) && StepTo(run[n], s, run[n + 1])
  }

  ghost predicate AloneFrom(run: seq<System>, n: nat, i: nat, t: TaskId)
    requires i < |run|
  {
    forall m :: n < m <= i ==> !Attended(run[m], t)
  }

  lemma AbandonedLater(run: seq<System>, i: nat, t: TaskId)
    requires i + 1 < |run| && AbandonedSince(run, i, t) && !Attended(run[i + 1], t)
    ensures AbandonedSince(run, i + 1, t)
  {
    var n :| 0 <= n < i && AbandonedAt(run, n, t) && AloneFrom(run, n, i, t);
    AloneLonger(run, n, i, t);
  }

  lemma AloneLonger(run: seq<System>, n: nat, i: nat, t: TaskId)
    requires i + 1 < |run| && AloneFrom(run, n, i, t) && !Attended(run[i + 1], t)
    ensures AloneFrom(run, n, i + 1, t)
  {
  }

  lemma AbandonedNow(run: seq<System>, i: nat, s: Protocol.Step, t: TaskId)
    requires i + 1 < |run| && StepTo(run[i], s, run[i + 1]) && Abandons(run[i], s, t) && !Attended(run[i + 1], t)
    ensures AbandonedSince(run, i + 1, t)
  {
    assert AbandonedAt(run, i, t);
    assert AloneFrom(run, i, i + 1, t);
  }

  /** An open task is attended, or has been abandoned for good. */
  ghost predicate Accounted(run: seq<System>, i: nat, h: Handle)
    requires i < |run|
  {
    Open(run[i].eng, h) ==>
      Attended(run[i], run[i].eng.tasks[h].key) || AbandonedSince(run, i, run[i].eng.tasks[h].key)
  }

  lemma {:induction false} AlwaysAccounted(run: seq<System>, i: nat, h: Handle)
    requires IsRun(run) && i < |run|
    ensures Accounted(run, i, h)
  {
    if i > 0 {
      AlwaysAccounted(run, i - 1, h);
      StaysAccounted(run, i - 1, h);
    }
  }

  lemma StaysAccounted(run: seq<System>, i: nat, h: Handle)
    requires IsRun(run) && i + 1 < |run| && Accounted(run, i, h)
    ensures Accounted(run, i + 1, h)
  {
    assert Linked(run, i);
    var s :| StepTo(run[i], s, run[i + 1]);
    RunInvariant(run, i);
    AccountedAfter(run, i, s, h);
  }

  lemma AccountedAfter(run: seq<System>, i: nat, s: Protocol.Step, h: Handle)
    requires i + 1 < |run| && Inv(run[i]) && StepTo(run[i], s, run[i + 1]) && Accounted(run, i, h)
    ensures Accounted(run, i + 1, h)
  {
    if Open(run[i + 1].eng, h) {
      if h in run[i].eng.tasks {
        OpenBefore(run[i], s, run[i + 1], h);
      }
      StillAttended(run, i, s, h);
    }
  }

  lemma StillAttended(run: seq<System>, i: nat, s: Protocol.Step, h: Handle)
    requires i + 1 < |run| && Inv(run[i]) && StepTo(run[i], s, run[i + 1]) && Open(run[i + 1].eng, h)
    requires var t := run[i + 1].eng.tasks[h].key;
             h in run[i].eng.tasks ==>
               run[i].eng.tasks[h].key == t && (Attended(run[i], t) || AbandonedSince(run, i, t))
    ensures var t := run[i + 1].eng.tasks[h].key;
            Attended(run[i + 1], t) || AbandonedSince(run, i + 1, t)
  {
    var t := run[i + 1].eng.tasks[h].key;
    if !Attended(run[i + 1], t) {
      if Abandons(run[i], s, t) {
        AbandonedNow(run, i, s, t);
      } else if h in run[i].eng.tasks && AbandonedSince(run, i, t) {
        AbandonedLater(run, i, t);
      } else {
        StepAttends(run[i], s, run[i + 1], h);
      }
    }
  }

  /**
   No orphans: an engine task that nobody attends is over or asked to stop, unless an earlier step abandoned it and
   nobody has taken it up since; in particular when no executor of its job is left.
   */
  lemma NoOrphans(run: seq<System>, i: nat, h: Handle)
    requires IsRun(run) && i < |run| && h in run[i].eng.tasks
    ensures var t := run[i].eng.tasks[h];
            Aer.Terminal(t.state) || t.cancelRequested || Attended(run[i], t.key) || AbandonedSince(run, i, t.key)
    ensures var t := run[i].eng.tasks[h];
            && t.key in run[i].db.tasks
            && ((forall k :: k in run[i].execs ==> k.1 != run[i].db.tasks[t.key].jobId) ==> !Attended(run[i], t.key))
  {
    RunInvariant(run, i);
    assert KnownTask(run[i].db, run[i].eng.tasks[h]);
    AlwaysAccounted(run, i, h);
    if Attended(run[i], run[i].eng.tasks[h].key) {
      var k :| AttendedBy(run[i], run[i].eng.tasks[h].key, k);
      assert ExecOk(run[i].db, run[i].eng, run[i].unbilled, k.1, run[i].execs[k]);
    }
  }
}
