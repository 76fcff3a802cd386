/**
 What every run of the protocol guarantees: one execution per job, exact billing, session affinity, declared floors.
 */
module Guarantees {
  import opened Common
  import opened Tables
  import opened Protocol
  import Phases
  import Audit
  import Ledger
  import Fleet
  import Scheduling
  import Placement
  import Aer = AerEngine

  // ---- what writes never undo ----

  ghost predicate Grows(db: Db, db': Db) {
    && (forall id :: id in db.jobs ==>
          id in db'.jobs && db'.jobs[id].tenant == db.jobs[id].tenant && db'.jobs[id].doc == db.jobs[id].doc)
    && (forall t :: t in db.tasks ==> t in db'.tasks && SameTask(db.tasks[t], db'.tasks[t]))
    && (forall sid :: sid in db.sessions ==> sid in db'.sessions && SameSession(db.sessions[sid], db'.sessions[sid]))
    && db.ledger <= db'.ledger
  }

  predicate SameTask(a: TaskRow, b: TaskRow) {
    b.jobId == a.jobId && b.target == a.target
  }

  predicate SameSession(a: SessionRow, b: SessionRow) {
    b.tenant == a.tenant && b.target == a.target && b.adapterSessionId == a.adapterSessionId
  }

  lemma WriteGrows(db: Db, w: Tables.Step)
    requires Allowed(w)
    ensures Grows(db, Tables.Apply(db, w))
  {
    forall id | id in db.jobs
      ensures id in Tables.Apply(db, w).jobs && Tables.Apply(db, w).jobs[id].tenant == db.jobs[id].tenant
              && Tables.Apply(db, w).jobs[id].doc == db.jobs[id].doc
    {
      Audit.PhaseLeavesPending(db, w, id);
    }
    WriteGrowsTasks(db, w);
  }

  lemma WriteGrowsTasks(db: Db, w: Tables.Step)
    ensures forall t :: t in db.tasks ==>
              t in Tables.Apply(db, w).tasks && SameTask(db.tasks[t], Tables.Apply(db, w).tasks[t])
    ensures forall sid :: sid in db.sessions ==>
              sid in Tables.Apply(db, w).sessions && SameSession(db.sessions[sid], Tables.Apply(db, w).sessions[sid])
    ensures db.ledger <= Tables.Apply(db, w).ledger
  {
  }

  // ---- the invariant ----

  /** The engine task of this (target, idempotency key) has succeeded with exactly this usage. */
  ghost predicate Billed(eng: Aer.Engine, target: string, task: TaskId, usage: map<string, real>) {
    && (target, task) in eng.byKey && eng.byKey[(target, task)] in eng.tasks
    && eng.tasks[eng.byKey[(target, task)]].state == Aer.Succeeded
    && usage == UsageMap(eng.tasks[eng.byKey[(target, task)]].usage)
  }

  /** The engine task of this key has failed, with this category. */
  ghost predicate HasFailed(eng: Aer.Engine, target: string, task: TaskId, category: string) {
    && (target, task) in eng.byKey && eng.byKey[(target, task)] in eng.tasks
    && eng.tasks[eng.byKey[(target, task)]].state == Aer.Failed
    && (eng.tasks[eng.byKey[(target, task)]].error.Some? ==>
          category == CategoryName(eng.tasks[eng.byKey[(target, task)]].error.value))
  }

  ghost predicate WasCancelled(eng: Aer.Engine, target: string, task: TaskId) {
    && (target, task) in eng.byKey && eng.byKey[(target, task)] in eng.tasks
    && eng.tasks[eng.byKey[(target, task)]].state == Aer.Cancelled
  }

  ghost predicate CancelledAtAdapter(db: Db, eng: Aer.Engine, id: JobId, t: TaskId) {
    t in db.tasks && db.tasks[t].jobId == id && WasCancelled(eng, db.tasks[t].target, t)
  }

  ghost predicate AllRecorded(ledger: seq<LedgerRow>, task: TaskId, usage: map<string, real>, except: set<string>) {
    forall unit :: unit in usage && unit !in except ==> IsRecorded(ledger, task, unit)
  }

  ghost predicate TaskIs(db: Db, task: TaskId, id: JobId, target: string) {
    task in db.tasks && db.tasks[task].jobId == id && db.tasks[task].target == target
  }

  /** A joining job's target and tenant are its session's. */
  ghost predicate Affine(db: Db, id: JobId, target: string) {
    id in db.jobs && (JoinOf(db, id).Some? ==>
      && JoinOf(db, id).value in db.sessions
      && db.sessions[JoinOf(db, id).value].target == target
      && db.sessions[JoinOf(db, id).value].tenant == db.jobs[id].tenant)
  }

  ghost predicate Carries(db: Db, id: JobId, session: Option<string>) {
    id in db.jobs && (JoinOf(db, id).Some? ==>
      JoinOf(db, id).value in db.sessions && session == Some(db.sessions[JoinOf(db, id).value].adapterSessionId))
  }

  ghost predicate Holds(eng: Aer.Engine, x: Exec, h: Handle) {
    (x.target, x.task) in eng.byKey && eng.byKey[(x.target, x.task)] == h
  }

  ghost predicate PcOk(db: Db, eng: Aer.Engine, unbilled: set<TaskId>, id: JobId, x: Exec)
    requires id in db.jobs
  {
    match x.pc
    case Opening(_, _) => JoinOf(db, id).None?
    case Noting(_, _) => JoinOf(db, id).None?
    case Stamping(_, _) => JoinOf(db, id).None?
    case Submitting(session) => Carries(db, id, session)
    case Queueing(h) => Holds(eng, x, h)
    case Marking(h) => Holds(eng, x, h)
    case Rechecking(h, _) => Holds(eng, x, h)
    case Following(h, _) => Holds(eng, x, h)
    case RunStoring(h) => Holds(eng, x, h)
    case RunMarking(h) => Holds(eng, x, h)
    case Passing(h, usage) => Billed(eng, x.target, x.task, usage)
    case Storing(h, usage) => Billed(eng, x.target, x.task, usage)
    case Recording(h, usage, todo) =>
      todo <= usage.Keys && Billed(eng, x.target, x.task, usage) && AllRecorded(db.ledger, x.task, usage, todo)
    case Concluding(h, usage) =>
      Billed(eng, x.target, x.task, usage) && (x.task in unbilled || AllRecorded(db.ledger, x.task, usage, {}))
    case FailStoring(_, category) => HasFailed(eng, x.target, x.task, category)
    case CancelStoring(_) => WasCancelled(eng, x.target, x.task)
    case CancelMarking => WasCancelled(eng, x.target, x.task)
    case _ => true
  }

  ghost predicate ExecOk(db: Db, eng: Aer.Engine, unbilled: set<TaskId>, id: JobId, x: Exec) {
    id in db.jobs && TaskIs(db, x.task, id, x.target) && PcOk(db, eng, unbilled, id, x)
  }

  ghost predicate PinnedView(db: Db, id: JobId, view: Fleet.JobView) {
    && id in db.jobs
    && if JoinOf(db, id).None? then view == db.jobs[id].doc.view
       else
         && JoinOf(db, id).value in db.sessions && db.sessions[JoinOf(db, id).value].tenant == db.jobs[id].tenant
         && view == db.jobs[id].doc.view.(requireTargets := [db.sessions[JoinOf(db, id).value].target])
  }

  ghost predicate TryOk(db: Db, t: Try) {
    t.id in db.jobs && (t.Ready? ==> PinnedView(db, t.id, t.view))
  }

  /** Every engine task was submitted for a task row, on that row's target. */
  ghost predicate KnownTask(db: Db, t: Aer.Task) {
    t.key in db.tasks && db.tasks[t.key].target == t.target
    && db.tasks[t.key].jobId in db.jobs && t.shots == db.jobs[db.tasks[t.key].jobId].doc.view.shots
  }

  ghost predicate Placed(db: Db, how: Placing, id: JobId, target: string) {
    && PinnedView(db, id, how.view) && how.attempt.BindTo? && how.attempt.target == target
    && Placement.UniqueNames(how.fleet')
    && Placement.Attempts(how.policy, how.view, how.fleet, how.now, how.fleet', how.now', how.attempt)
  }

  ghost predicate RowOk(db: Db, eng: Aer.Engine, r: LedgerRow) {
    && TaskIs(db, r.taskId, r.jobId, r.target) && r.jobId in db.jobs && r.tenant == db.jobs[r.jobId].tenant
    && exists usage :: Billed(eng, r.target, r.taskId, usage) && r.unit in usage && r.amount == usage[r.unit]
  }

  ghost predicate JustifiedBy(db: Db, eng: Aer.Engine, unbilled: set<TaskId>, id: JobId, usage: map<string, real>,
                              t: TaskId) {
    && t in db.tasks && db.tasks[t].jobId == id && Billed(eng, db.tasks[t].target, t, usage)
    && (t in unbilled || AllRecorded(db.ledger, t, usage, {}))
  }

  /**
   The usage of a successful job is what the engine billed, and it is all in the ledger unless a ledger write failed.
   */
  ghost predicate UsageOk(db: Db, eng: Aer.Engine, unbilled: set<TaskId>, id: JobId)
    requires id in db.jobs
  {
    db.jobs[id].phase == Phases.Succeeded ==>
      exists t :: JustifiedBy(db, eng, unbilled, id, db.jobs[id].status.usage, t)
  }

  ghost predicate SubmissionOk(db: Db, s: Submission) {
    TaskIs(db, s.task, s.job, s.target) && Carries(db, s.job, s.session)
  }

  ghost predicate Inv(sys: System) {
    && Audit.Inv(sys.db) && Aer.Inv(sys.eng)
    && (forall k :: k in sys.execs ==> ExecOk(sys.db, sys.eng, sys.unbilled, k.1, sys.execs[k]))
    && (forall p :: p in sys.tries ==> TryOk(sys.db, sys.tries[p]))
    && (forall e :: e in sys.eng.tasks ==> KnownTask(sys.db, sys.eng.tasks[e]))
    && (forall t :: t in sys.db.tasks ==> TaskPlaced(sys, t))
    && (forall i :: 0 <= i < |sys.db.ledger| ==> RowOk(sys.db, sys.eng, sys.db.ledger[i]))
    && (forall id :: id in sys.db.jobs ==> UsageOk(sys.db, sys.eng, sys.unbilled, id))
    && (forall i :: 0 <= i < |sys.submissions| ==> SubmissionOk(sys.db, sys.submissions[i]))
  }

  // ---- what growth keeps ----

  lemma ExecStable(db: Db, db': Db, eng: Aer.Engine, eng': Aer.Engine, unbilled: set<TaskId>, unbilled': set<TaskId>,
                   id: JobId, x: Exec)
    requires Grows(db, db') && Aer.Advances(eng, eng') && unbilled <= unbilled' && ExecOk(db, eng, unbilled, id, x)
    ensures ExecOk(db', eng', unbilled', id, x)
  {
  }

  lemma RowStable(db: Db, db': Db, eng: Aer.Engine, eng': Aer.Engine, r: LedgerRow)
    requires Grows(db, db') && Aer.Advances(eng, eng') && RowOk(db, eng, r)
    ensures RowOk(db', eng', r)
  {
  }

  lemma JustifiedStable(db: Db, db': Db, eng: Aer.Engine, eng': Aer.Engine, unbilled: set<TaskId>,
                        unbilled': set<TaskId>,
                        id: JobId, usage: map<string, real>, t: TaskId)
    requires Grows(db, db') && Aer.Advances(eng, eng') && unbilled <= unbilled'
    requires JustifiedBy(db, eng, unbilled, id, usage, t)
    ensures JustifiedBy(db', eng', unbilled', id, usage, t)
  {
  }

  // ---- sanctioned writes and calls ----

  /** What the protocol guarantees about each of its writes. */
  ghost predicate Sanctioned(sys: System, w: Tables.Step) {
    match w
    case TransitionStep(id, to, m) =>
      && to != Phases.Pending
      && (to == Phases.Succeeded ==>
            m.SetUsage? && exists t :: JustifiedBy(sys.db, sys.eng, sys.unbilled, id, m.usage, t))
      && (to == Phases.Cancelled && m.AddCondition? && m.cond.reason == "AdapterCancelled" ==>
            exists t :: CancelledAtAdapter(sys.db, sys.eng, id, t))
    case RecordStep(row) => RowOk(sys.db, sys.eng, row)
    case _ => true
  }

  /** Only SUCCEEDED transitions write usage into a job that succeeds. */
  lemma UsageWrites(db: Db, w: Tables.Step, id: JobId)
    requires Allowed(w) && id in Tables.Apply(db, w).jobs && Tables.Apply(db, w).jobs[id].phase == Phases.Succeeded
    ensures || (id in db.jobs && db.jobs[id].phase == Phases.Succeeded
                && db.jobs[id].status.usage == Tables.Apply(db, w).jobs[id].status.usage)
            || (w.TransitionStep? && w.id == id && w.to == Phases.Succeeded
                && (w.m.SetUsage? ==> Tables.Apply(db, w).jobs[id].status.usage == w.m.usage))
  {
  }

  /** Every effect of a step is sanctioned. */
  lemma StepSanctioned(sys: System, s: Protocol.Step)
    requires Inv(sys) && Enabled(sys, s) && WriteOf(sys, s).Some?
    ensures Allowed(WriteOf(sys, s).value) && Sanctioned(sys, WriteOf(sys, s).value)
  {
    if s.Execute? {
      assert ExecOk(sys.db, sys.eng, sys.unbilled, s.id, sys.execs[(s.p, s.id)]);
      ExecSanctioned(sys, s.id, sys.execs[(s.p, s.id)], s.m);
    } else {
      CycleSanctioned(sys, s);
    }
  }

  lemma CycleSanctioned(sys: System, s: Protocol.Step)
    requires Enabled(sys, s) && !s.Execute? && WriteOf(sys, s).Some?
    ensures Allowed(WriteOf(sys, s).value) && Sanctioned(sys, WriteOf(sys, s).value)
  {
  }

  lemma ExecSanctioned(sys: System, id: JobId, x: Exec, m: Move)
    requires ExecOk(sys.db, sys.eng, sys.unbilled, id, x) && MoveEnabled(sys.db, sys.eng, id, x, m)
    requires EffectOf(sys.db, sys.eng, id, x, m).write.Some?
    ensures Allowed(EffectOf(sys.db, sys.eng, id, x, m).write.value)
    ensures Sanctioned(sys, EffectOf(sys.db, sys.eng, id, x, m).write.value)
  {
    if m.Record? {
      assert Billed(sys.eng, x.target, x.task, x.pc.usage);
    } else if x.pc.Concluding? {
      assert JustifiedBy(sys.db, sys.eng, sys.unbilled, id, x.pc.usage, x.task);
    } else if x.pc.CancelMarking? {
      assert CancelledAtAdapter(sys.db, sys.eng, id, x.task);
    }
  }

  // ---- every step keeps the invariant ----

  ghost predicate Moved(sys: System, sys': System) {
    Grows(sys.db, sys'.db) && Aer.Advances(sys.eng, sys'.eng) && sys.unbilled <= sys'.unbilled
  }

  lemma DbMoves(db: Db, w: Option<Tables.Step>)
    requires Audit.Inv(db) && (w.Some? ==> Allowed(w.value))
    ensures Grows(db, Wrote(db, w)) && Audit.Inv(Wrote(db, w))
  {
    if w.Some? {
      WriteGrows(db, w.value);
      Audit.StepKeeps(db, w.value);
    }
  }

  lemma EngineMoves(eng: Aer.Engine, c: Option<Aer.Step>)
    requires Aer.Inv(eng) && (c.Some? ==> Aer.Enabled(eng, c.value))
    ensures Aer.Advances(eng, Called(eng, c)) && Aer.Inv(Called(eng, c))
  {
    if c.Some? {
      Aer.StepAdvances(eng, c.value);
      Aer.StepKeeps(eng, c.value);
    }
  }

  lemma StepMoves(sys: System, s: Protocol.Step, sys': System)
    requires Inv(sys) && StepTo(sys, s, sys')
    ensures Moved(sys, sys') && Audit.Inv(sys'.db) && Aer.Inv(sys'.eng)
  {
    var w, c := WriteOf(sys, s), CallOf(sys, s);
    CallsAreEnabled(sys, s);
    assert w.Some? ==> Allowed(w.value) by {
      if w.Some? {
        StepSanctioned(sys, s);
      }
    }
    assert sys'.db == Wrote(sys.db, w) && sys'.eng == Called(sys.eng, c);
    DbMoves(sys.db, w);
    EngineMoves(sys.eng, c);
  }

  /** An executor that has just moved is sound in the new state. */
  lemma ExecMoves(sys: System, s: Protocol.Step, sys': System)
    requires StepTo(sys, s, sys') && Moved(sys, sys') && s.Execute?
    requires Aer.Inv(sys.eng) && ExecOk(sys.db, sys.eng, sys.unbilled, s.id, sys.execs[(s.p, s.id)])
    ensures (s.p, s.id) in sys'.execs ==> ExecOk(sys'.db, sys'.eng, sys'.unbilled, s.id, sys'.execs[(s.p, s.id)])
  {
    var x := sys.execs[(s.p, s.id)];
    var next := EffectOf(sys.db, sys.eng, s.id, x, s.m).next;
    if s.m.Record? {
      ExecStable(sys.db, sys'.db, sys.eng, sys'.eng, sys.unbilled, sys'.unbilled, s.id, x);
      RecordOk(sys, s, sys');
    } else if s.m.SubmitTask? {
      SubmitOk(sys, s, sys');
    } else if next.Some? {
      LocalMoveOk(sys, s.id, x, s.m);
      ExecStable(sys.db, sys'.db, sys.eng, sys'.eng, sys.unbilled, sys'.unbilled, s.id, x.(pc := next.value));
    }
  }

  lemma LocalMoveOk(sys: System, id: JobId, x: Exec, m: Move)
    requires Aer.Inv(sys.eng) && ExecOk(sys.db, sys.eng, sys.unbilled, id, x) && MoveEnabled(sys.db, sys.eng, id, x, m)
    requires !m.Record? && !m.SubmitTask? && EffectOf(sys.db, sys.eng, id, x, m).next.Some?
    ensures ExecOk(sys.db, sys.eng, sys.unbilled, id, x.(pc := EffectOf(sys.db, sys.eng, id, x, m).next.value))
  {
    match m
    case Receive(status) => ReceiveOk(sys, id, x, status);
    case Persist(lost) => PersistOk(sys, id, x, lost);
    case _ => QuietMoveOk(sys, id, x, m);
  }

  lemma QuietMoveOk(sys: System, id: JobId, x: Exec, m: Move)
    requires ExecOk(sys.db, sys.eng, sys.unbilled, id, x) && MoveEnabled(sys.db, sys.eng, id, x, m)
    requires !m.Record? && !m.SubmitTask? && !m.Receive? && !m.Persist?
    requires EffectOf(sys.db, sys.eng, id, x, m).next.Some?
    ensures ExecOk(sys.db, sys.eng, sys.unbilled, id, x.(pc := EffectOf(sys.db, sys.eng, id, x, m).next.value))
  {
  }

  lemma PersistOk(sys: System, id: JobId, x: Exec, lost: bool)
    requires ExecOk(sys.db, sys.eng, sys.unbilled, id, x) && MoveEnabled(sys.db, sys.eng, id, x, Persist(lost))
    requires AfterOwnWrite(sys.db, id, x, lost).Some?
    ensures ExecOk(sys.db, sys.eng, sys.unbilled, id, x.(pc := AfterOwnWrite(sys.db, id, x, lost).value))
  {
  }

  lemma SubmitOk(sys: System, s: Protocol.Step, sys': System)
    requires StepTo(sys, s, sys') && Moved(sys, sys') && s.Execute? && s.m.SubmitTask?
    requires ExecOk(sys.db, sys.eng, sys.unbilled, s.id, sys.execs[(s.p, s.id)])
    ensures (s.p, s.id) in sys'.execs && ExecOk(sys'.db, sys'.eng, sys'.unbilled, s.id, sys'.execs[(s.p, s.id)])
  {
    var x := sys.execs[(s.p, s.id)];
    assert sys'.db == sys.db;
    assert sys'.eng == Aer.AfterSubmit(sys.eng, x.target, x.task, s.m.payload, s.m.precheck, s.m.newId, s.m.now);
  }

  /** A received SUCCEEDED status is final, so its usage is what the engine billed. */
  lemma ReceiveOk(sys: System, id: JobId, x: Exec, status: Aer.Task)
    requires ExecOk(sys.db, sys.eng, sys.unbilled, id, x) && MoveEnabled(sys.db, sys.eng, id, x, Receive(status))
    ensures PcOk(sys.db, sys.eng, sys.unbilled, id, x.(pc := OnStatus(x.pc.h, x.pc.running, status)))
  {
  }

  lemma RecordOk(sys: System, s: Protocol.Step, sys': System)
    requires StepTo(sys, s, sys') && s.Execute? && s.m.Record?
    requires ExecOk(sys'.db, sys'.eng, sys'.unbilled, s.id, sys.execs[(s.p, s.id)])
    ensures (s.p, s.id) in sys'.execs && ExecOk(sys'.db, sys'.eng, sys'.unbilled, s.id, sys'.execs[(s.p, s.id)])
  {
    var x := sys.execs[(s.p, s.id)];
    if !s.m.lost {
      var row := LedgerRow(s.id, x.task, sys.db.jobs[s.id].tenant, x.target, s.m.unit, x.pc.usage[s.m.unit]);
      assert sys'.db == RecordRow(sys.db, row);
      RecordIsRecorded(sys.db, row);
      assert AllRecorded(sys'.db.ledger, x.task, x.pc.usage, x.pc.todo - {s.m.unit});
    }
  }

  lemma RecordIsRecorded(db: Db, row: LedgerRow)
    ensures IsRecorded(RecordRow(db, row).ledger, row.taskId, row.unit)
  {
    if !IsRecorded(db.ledger, row.taskId, row.unit) {
      assert RecordRow(db, row).ledger[|db.ledger|] == row;
    }
  }

  lemma BindOk(sys: System, s: Protocol.Step, sys': System)
    requires StepTo(sys, s, sys') && Binds(sys, s)
    ensures TaskIs(sys'.db, s.task, sys.tries[s.p].id, s.how.attempt.target) && sys.tries[s.p].id in sys'.db.jobs
  {
  }

  lemma ExecsKeep(sys: System, s: Protocol.Step, sys': System, k: (Proc, JobId))
    requires Inv(sys) && StepTo(sys, s, sys') && Moved(sys, sys') && k in sys'.execs
    ensures ExecOk(sys'.db, sys'.eng, sys'.unbilled, k.1, sys'.execs[k])
  {
    if k in sys.execs {
      assert ExecOk(sys.db, sys.eng, sys.unbilled, k.1, sys.execs[k]);
    }
    if s.Resume? {
      assert Audit.TaskOk(sys.db, s.task);
    }
    ExecKeeps(sys, s, sys', k);
  }

  /** Which executors a step changes: the one that moves, and the one a bind or a resume starts. */
  lemma ExecsChange(sys: System, s: Protocol.Step, k: (Proc, JobId))
    requires Enabled(sys, s) && k in ExecsAfter(sys, s)
    ensures || (k in sys.execs && ExecsAfter(sys, s)[k] == sys.execs[k])
            || (s.Execute? && k == (s.p, s.id))
            || (Binds(sys, s) && k.1 == sys.tries[s.p].id
                && ExecsAfter(sys, s)[k] == Exec(s.task, s.how.attempt.target, Start))
            || (s.Resume? && k.1 == sys.db.tasks[s.task].jobId
                && ExecsAfter(sys, s)[k] == Exec(s.task, sys.db.tasks[s.task].target, Start))
  {
  }

  lemma ExecKeeps(sys: System, s: Protocol.Step, sys': System, k: (Proc, JobId))
    requires StepTo(sys, s, sys') && Moved(sys, sys') && k in sys'.execs && Aer.Inv(sys.eng)
    requires k in sys.execs ==> ExecOk(sys.db, sys.eng, sys.unbilled, k.1, sys.execs[k])
    requires s.Resume? ==> sys.db.tasks[s.task].jobId in sys.db.jobs
    ensures ExecOk(sys'.db, sys'.eng, sys'.unbilled, k.1, sys'.execs[k])
  {
    ExecsChange(sys, s, k);
    if k in sys.execs && sys'.execs[k] == sys.execs[k] {
      ExecStable(sys.db, sys'.db, sys.eng, sys'.eng, sys.unbilled, sys'.unbilled, k.1, sys.execs[k]);
    } else if s.Execute? {
      ExecMoves(sys, s, sys');
    } else if s.Decide? {
      BindOk(sys, s, sys');
    } else {
      ResumeOk(sys, s, sys');
    }
  }

  lemma ResumeOk(sys: System, s: Protocol.Step, sys': System)
    requires Enabled(sys, s) && Moved(sys, sys') && s.Resume? && sys.db.tasks[s.task].jobId in sys.db.jobs
    ensures var t := sys.db.tasks[s.task];
            ExecOk(sys'.db, sys'.eng, sys'.unbilled, t.jobId, Exec(s.task, t.target, Start))
  {
  }

  lemma TryKeeps(sys: System, s: Protocol.Step, sys': System, p: Proc)
    requires StepTo(sys, s, sys') && Moved(sys, sys') && p in sys'.tries
    requires p in sys.tries ==> TryOk(sys.db, sys.tries[p])
    ensures TryOk(sys'.db, sys'.tries[p])
  {
    TryMoves(sys, s, p);
    TryStable(sys.db, sys'.db, sys'.tries[p]);
  }

  lemma TryMoves(sys: System, s: Protocol.Step, p: Proc)
    requires Enabled(sys, s) && p in TriesAfter(sys, s) && (p in sys.tries ==> TryOk(sys.db, sys.tries[p]))
    ensures TryOk(sys.db, TriesAfter(sys, s)[p])
  {
  }

  lemma TryStable(db: Db, db': Db, t: Try)
    requires Grows(db, db') && TryOk(db, t)
    ensures TryOk(db', t)
  {
  }

  lemma KnownKeeps(sys: System, s: Protocol.Step, sys': System, e: Handle)
    requires StepTo(sys, s, sys') && Moved(sys, sys') && e in sys'.eng.tasks
    requires e in sys.eng.tasks ==> KnownTask(sys.db, sys.eng.tasks[e])
    requires s.Execute? ==> ExecOk(sys.db, sys.eng, sys.unbilled, s.id, sys.execs[(s.p, s.id)])
    ensures KnownTask(sys'.db, sys'.eng.tasks[e])
  {
    if e in sys.eng.tasks {
      assert Aer.TaskAdvances(sys.eng.tasks[e], sys'.eng.tasks[e]);
    } else {
      CallsAreEnabled(sys, s);
      NewEngineTask(sys.eng, CallOf(sys, s).value, e);
      assert s.Execute? && s.m.SubmitTask?;
    }
  }

  lemma NewEngineTask(eng: Aer.Engine, c: Aer.Step, e: Handle)
    requires Aer.Enabled(eng, c) && e in Aer.Apply(eng, c).tasks && e !in eng.tasks
    ensures c.Submit? && Aer.Apply(eng, c).tasks[e].key == c.key && Aer.Apply(eng, c).tasks[e].target == c.target
            && Aer.Apply(eng, c).tasks[e].shots == c.payload.shots
  {
  }

  lemma PlacedStable(db: Db, db': Db, how: Placing, id: JobId, target: string)
    requires Grows(db, db') && Placed(db, how, id, target)
    ensures Placed(db', how, id, target)
  {
  }

  ghost predicate TaskPlaced(sys: System, t: TaskId) {
    && t in sys.db.tasks && t in sys.placed
    && Placed(sys.db, sys.placed[t], sys.db.tasks[t].jobId, sys.db.tasks[t].target)
  }

  lemma PlacedKeeps(sys: System, s: Protocol.Step, sys': System, t: TaskId)
    requires StepTo(sys, s, sys') && Moved(sys, sys') && t in sys'.db.tasks
    requires t in sys.db.tasks ==> TaskPlaced(sys, t)
    requires WriteOf(sys, s).Some? ==> Allowed(WriteOf(sys, s).value)
    requires s.Decide? ==> TryOk(sys.db, sys.tries[s.p])
    ensures TaskPlaced(sys', t)
  {
    if t in sys.db.tasks {
      PlacementsStand(sys, s, t);
      PlacedOld(sys, sys', t);
    } else {
      PlacedNew(sys, s, sys', t);
    }
  }

  /** A bind records how its new task was placed and leaves the other records. */
  lemma PlacementsStand(sys: System, s: Protocol.Step, t: TaskId)
    requires Enabled(sys, s) && t in sys.db.tasks && t in sys.placed
    ensures t in Protocol.Apply(sys, s).placed && Protocol.Apply(sys, s).placed[t] == sys.placed[t]
  {
  }

  lemma PlacedOld(sys: System, sys': System, t: TaskId)
    requires Moved(sys, sys') && TaskPlaced(sys, t) && t in sys'.placed && sys'.placed[t] == sys.placed[t]
    ensures TaskPlaced(sys', t)
  {
    PlacedStable(sys.db, sys'.db, sys.placed[t], sys.db.tasks[t].jobId, sys.db.tasks[t].target);
  }

  lemma PlacedNew(sys: System, s: Protocol.Step, sys': System, t: TaskId)
    requires StepTo(sys, s, sys') && Moved(sys, sys') && t in sys'.db.tasks && t !in sys.db.tasks
    requires WriteOf(sys, s).Some? && Allowed(WriteOf(sys, s).value) && (s.Decide? ==> TryOk(sys.db, sys.tries[s.p]))
    ensures TaskPlaced(sys', t)
  {
    Audit.TaskStepKeeps(sys.db, WriteOf(sys, s).value, t);
    NewTaskIsBound(sys, s, t);
    PlacedStable(sys.db, sys'.db, s.how, sys.tries[s.p].id, s.how.attempt.target);
  }

  lemma NewTaskIsBound(sys: System, s: Protocol.Step, t: TaskId)
    requires Enabled(sys, s) && t !in sys.db.tasks && WriteOf(sys, s).Some? && t in Wrote(sys.db, WriteOf(sys, s)).tasks
    requires WriteOf(sys, s).value.BindStep?
    ensures Binds(sys, s) && s.task == t
  {
  }

  lemma RowsKeep(sys: System, s: Protocol.Step, sys': System, i: nat)
    requires Inv(sys) && StepTo(sys, s, sys') && Moved(sys, sys') && i < |sys'.db.ledger|
    ensures RowOk(sys'.db, sys'.eng, sys'.db.ledger[i])
  {
    if i < |sys.db.ledger| {
      assert sys'.db.ledger[i] == sys.db.ledger[i];
      RowStable(sys.db, sys'.db, sys.eng, sys'.eng, sys.db.ledger[i]);
    } else {
      StepSanctioned(sys, s);
      NewRow(sys.db, WriteOf(sys, s).value, i);
      RowStable(sys.db, sys'.db, sys.eng, sys'.eng, WriteOf(sys, s).value.row);
    }
  }

  lemma NewRow(db: Db, w: Tables.Step, i: nat)
    requires |db.ledger| <= i < |Tables.Apply(db, w).ledger|
    ensures w.RecordStep? && Tables.Apply(db, w).ledger[i] == w.row
  {
  }

  lemma UsageKeeps(sys: System, s: Protocol.Step, sys': System, id: JobId)
    requires Inv(sys) && StepTo(sys, s, sys') && Moved(sys, sys') && id in sys'.db.jobs
    ensures UsageOk(sys'.db, sys'.eng, sys'.unbilled, id)
  {
    if sys'.db.jobs[id].phase == Phases.Succeeded {
      var usage := sys'.db.jobs[id].status.usage;
      if WriteOf(sys, s).Some? {
        StepSanctioned(sys, s);
        UsageWrites(sys.db, WriteOf(sys, s).value, id);
      }
      assert id in sys.db.jobs ==> UsageOk(sys.db, sys.eng, sys.unbilled, id);
      var t :| JustifiedBy(sys.db, sys.eng, sys.unbilled, id, usage, t);
      JustifiedStable(sys.db, sys'.db, sys.eng, sys'.eng, sys.unbilled, sys'.unbilled, id, usage, t);
    }
  }

  lemma SubmissionsKeep(sys: System, s: Protocol.Step, sys': System, i: nat)
    requires StepTo(sys, s, sys') && Moved(sys, sys') && i < |sys'.submissions|
    requires i < |sys.submissions| ==> SubmissionOk(sys.db, sys.submissions[i])
    requires s.Execute? ==> ExecOk(sys.db, sys.eng, sys.unbilled, s.id, sys.execs[(s.p, s.id)])
    ensures SubmissionOk(sys'.db, sys'.submissions[i])
  {
  }

  /** Processes, the engine's tasks and the history stay sound. */
  lemma StepKeepsLocal(sys: System, s: Protocol.Step, sys': System)
    requires Inv(sys) && StepTo(sys, s, sys') && Moved(sys, sys')
    ensures forall k :: k in sys'.execs ==> ExecOk(sys'.db, sys'.eng, sys'.unbilled, k.1, sys'.execs[k])
    ensures forall p :: p in sys'.tries ==> TryOk(sys'.db, sys'.tries[p])
    ensures forall e :: e in sys'.eng.tasks ==> KnownTask(sys'.db, sys'.eng.tasks[e])
    ensures forall i :: 0 <= i < |sys'.submissions| ==> SubmissionOk(sys'.db, sys'.submissions[i])
  {
    forall k | k in sys'.execs ensures ExecOk(sys'.db, sys'.eng, sys'.unbilled, k.1, sys'.execs[k]) {
      ExecsKeep(sys, s, sys', k);
    }
    forall p | p in sys'.tries ensures TryOk(sys'.db, sys'.tries[p]) {
      TryKeeps(sys, s, sys', p);
    }
    forall e | e in sys'.eng.tasks ensures KnownTask(sys'.db, sys'.eng.tasks[e]) {
      KnownKeeps(sys, s, sys', e);
    }
    forall i | 0 <= i < |sys'.submissions| ensures SubmissionOk(sys'.db, sys'.submissions[i]) {
      assert i < |sys.submissions| ==> SubmissionOk(sys.db, sys.submissions[i]);
      SubmissionsKeep(sys, s, sys', i);
    }
  }

  /** Every step of every process keeps the invariant. */
  lemma StepKeeps(sys: System, s: Protocol.Step, sys': System)
    requires Inv(sys) && StepTo(sys, s, sys')
    ensures Inv(sys')
  {
    StepMoves(sys, s, sys');
    StepKeepsLocal(sys, s, sys');
    if WriteOf(sys, s).Some? {
      StepSanctioned(sys, s);
    }
    forall t | t in sys'.db.tasks ensures TaskPlaced(sys', t) {
      assert t in sys.db.tasks ==> TaskPlaced(sys, t);
      PlacedKeeps(sys, s, sys', t);
    }
    StepKeepsBilling(sys, s, sys');
  }

  /** The ledger and the usage of successful jobs stay sound. */
  lemma StepKeepsBilling(sys: System, s: Protocol.Step, sys': System)
    requires Inv(sys) && StepTo(sys, s, sys') && Moved(sys, sys')
    ensures forall i :: 0 <= i < |sys'.db.ledger| ==> RowOk(sys'.db, sys'.eng, sys'.db.ledger[i])
    ensures forall id :: id in sys'.db.jobs ==> UsageOk(sys'.db, sys'.eng, sys'.unbilled, id)
  {
    forall i | 0 <= i < |sys'.db.ledger| ensures RowOk(sys'.db, sys'.eng, sys'.db.ledger[i]) {
      RowsKeep(sys, s, sys', i);
    }
    forall id | id in sys'.db.jobs ensures UsageOk(sys'.db, sys'.eng, sys'.unbilled, id) {
      UsageKeeps(sys, s, sys', id);
    }
  }

  // ---- runs ----

  lemma InitInv(sys: System)
    requires Init(sys)
    ensures Inv(sys)
  {
    Aer.InitInv(sys.eng);
  }

  lemma RunInvariant(run: seq<System>, i: nat)
    requires IsRun(run) && i < |run|
    ensures Inv(run[i])
  {
    var r := (s: System) => Inv(s);
    forall a, b | r(a) && Next(a, b) ensures r(b) {
      NextKeeps(a, b);
    }
    InitInv(run[0]);
    RunKeeps(r, run, 0, i);
  }

  lemma DbNext(sys: System, s: Protocol.Step, sys': System)
    requires Inv(sys) && StepTo(sys, s, sys')
    ensures Audit.Next(sys.db, sys'.db)
  {
    if WriteOf(sys, s).Some? {
      StepSanctioned(sys, s);
    }
  }

  /** The tables of a run of the protocol are a run of the audited tables, so everything proved there holds here. */
  lemma RunIsAudited(run: seq<System>)
    requires IsRun(run)
    ensures Audit.IsRun(seq(|run|, i requires 0 <= i < |run| => run[i].db))
  {
    var dbs := seq(|run|, i requires 0 <= i < |run| => run[i].db);
    forall i: nat | i + 1 < |dbs| ensures Audit.Linked(dbs, i) {
      RunDbNext(run, i);
    }
  }

  lemma RunDbNext(run: seq<System>, i: nat)
    requires IsRun(run) && i + 1 < |run|
    ensures Audit.Next(run[i].db, run[i + 1].db)
  {
    RunInvariant(run, i);
    assert Linked(run, i);
    var s :| StepTo(run[i], s, run[i + 1]);
    DbNext(run[i], s, run[i + 1]);
  }

  // ---- one execution per job ----

  ghost predicate RunsFor(sys: System, e: Handle, id: JobId) {
    e in sys.eng.tasks && sys.eng.tasks[e].key in sys.db.tasks && sys.db.tasks[sys.eng.tasks[e].key].jobId == id
  }

  /**
   Whatever processes crash, resume, race for the bind or cancel: all submissions made for a job carry one task id and
   one target, and the engine runs at most one simulation for it.
   */
  lemma OneExecutionPerJob(run: seq<System>, i: nat, id: JobId)
    requires IsRun(run) && i < |run|
    ensures forall a, b :: a in run[i].submissions && b in run[i].submissions && a.job == b.job == id ==>
              a.task == b.task && a.target == b.target
    ensures forall m, n :: 0 <= m < n < |run[i].eng.simulations| ==>
              !(RunsFor(run[i], run[i].eng.simulations[m], id) && RunsFor(run[i], run[i].eng.simulations[n], id))
  {
    RunInvariant(run, i);
    var sys := run[i];
    forall a, b | a in sys.submissions && b in sys.submissions && a.job == b.job == id
      ensures a.task == b.task && a.target == b.target
    {
      assert SubmissionOk(sys.db, a) && SubmissionOk(sys.db, b);
    }
    forall m, n | 0 <= m < n < |sys.eng.simulations|
      ensures !(RunsFor(sys, sys.eng.simulations[m], id) && RunsFor(sys, sys.eng.simulations[n], id))
    {
      if RunsFor(sys, sys.eng.simulations[m], id) && RunsFor(sys, sys.eng.simulations[n], id) {
        SameSimulation(sys, id, sys.eng.simulations[m], sys.eng.simulations[n]);
        assert false;
      }
    }
  }

  lemma SameSimulation(sys: System, id: JobId, a: Handle, b: Handle)
    requires Inv(sys) && RunsFor(sys, a, id) && RunsFor(sys, b, id)
    ensures a == b
  {
    assert KnownTask(sys.db, sys.eng.tasks[a]) && KnownTask(sys.db, sys.eng.tasks[b]);
    assert Aer.TaskOk(sys.eng, a) && Aer.TaskOk(sys.eng, b);
  }

  // ---- billing ----

  /** The part of the invariant that billing rests on. */
  ghost predicate LedgerOk(db: Db, eng: Aer.Engine) {
    && (forall i :: 0 <= i < |db.ledger| ==> RowOk(db, eng, db.ledger[i]))
    && Audit.OneTaskPerJob(db) && Audit.LedgerUnique(db.ledger)
  }

  /** All ledger rows of a job come from its one task, at the engine's amounts. */
  lemma RowsOfJob(sys: System, t: TaskId, usage: map<string, real>, i: nat)
    requires LedgerOk(sys.db, sys.eng) && t in sys.db.tasks && Billed(sys.eng, sys.db.tasks[t].target, t, usage)
    requires i < |sys.db.ledger| && sys.db.ledger[i].jobId == sys.db.tasks[t].jobId
    ensures var r := sys.db.ledger[i];
            r.taskId == t && r.unit in usage && r.amount == usage[r.unit]
  {
    assert RowOk(sys.db, sys.eng, sys.db.ledger[i]);
  }

  lemma RecordedIsOwn(sys: System, t: TaskId, unit: string)
    requires LedgerOk(sys.db, sys.eng) && t in sys.db.tasks && IsRecorded(sys.db.ledger, t, unit)
    ensures exists i :: 0 <= i < |sys.db.ledger| && Ledger.OfJob(sys.db.tasks[t].jobId, unit)(sys.db.ledger[i])
  {
    var i :| 0 <= i < |sys.db.ledger| && sys.db.ledger[i].taskId == t && sys.db.ledger[i].unit == unit;
    assert RowOk(sys.db, sys.eng, sys.db.ledger[i]);
  }

  /** Per unit, a job's ledger sum is the engine's amount if that unit is recorded and zero otherwise - never more. */
  lemma BilledOnce(sys: System, t: TaskId, usage: map<string, real>, unit: string)
    requires LedgerOk(sys.db, sys.eng) && t in sys.db.tasks && Billed(sys.eng, sys.db.tasks[t].target, t, usage)
    ensures Ledger.SumWhere(sys.db.ledger, Ledger.OfJob(sys.db.tasks[t].jobId, unit)) ==
            if unit in usage && IsRecorded(sys.db.ledger, t, unit) then usage[unit] else 0.0
  {
    var rows, p := sys.db.ledger, Ledger.OfJob(sys.db.tasks[t].jobId, unit);
    if at :| 0 <= at < |rows| && p(rows[at]) {
      RowsOfJob(sys, t, usage, at);
      forall i | 0 <= i < |rows| && p(rows[i]) ensures i == at {
        RowsOfJob(sys, t, usage, i);
      }
      Ledger.SumOne(rows, p, at);
    } else {
      if IsRecorded(rows, t, unit) {
        RecordedIsOwn(sys, t, unit);
        assert false;
      }
      Ledger.SumNone(rows, p);
    }
  }

  /**
   Billing is exactly-once and reconciles: in every reachable state, for every SUCCEEDED job and every unit, the
   ledger sum is exactly the usage in the job's status - unless a ledger write failed for its task, and then it is
   that usage or zero.
   */
  lemma BillingReconciles(run: seq<System>, i: nat, id: JobId, unit: string)
    requires IsRun(run) && i < |run| && id in run[i].db.jobs && run[i].db.jobs[id].phase == Phases.Succeeded
    ensures exists t :: t in run[i].db.tasks && run[i].db.tasks[t].jobId == id &&
              Reconciles(run[i], id, t, unit)
  {
    RunInvariant(run, i);
    var sys := run[i];
    assert UsageOk(sys.db, sys.eng, sys.unbilled, id);
    var t :| JustifiedBy(sys.db, sys.eng, sys.unbilled, id, sys.db.jobs[id].status.usage, t);
    BilledOnce(sys, t, sys.db.jobs[id].status.usage, unit);
  }

  ghost predicate Reconciles(sys: System, id: JobId, t: TaskId, unit: string)
    requires id in sys.db.jobs
  {
    var usage := sys.db.jobs[id].status.usage;
    var declared := if unit in usage then usage[unit] else 0.0;
    var billed := Ledger.SumWhere(sys.db.ledger, Ledger.OfJob(id, unit));
    && (t !in sys.unbilled ==> billed == declared)
    && billed == if IsRecorded(sys.db.ledger, t, unit) then declared else 0.0
  }

  /**
   The condition is needed: an executor whose first ledger write fails logs the error and still concludes the job, which
   then reports usage the ledger does not have.
   */
  lemma LostLedgerWriteBreaksReconciliation(sys: System, p: Proc, id: JobId, unit: string)
    returns (sys1: System, sys2: System)
    requires LedgerOk(sys.db, sys.eng) && (p, id) in sys.execs
    requires ExecOk(sys.db, sys.eng, sys.unbilled, id, sys.execs[(p, id)])
    requires sys.execs[(p, id)].pc.Recording? && sys.db.jobs[id].phase == Phases.Running
    requires var pc := sys.execs[(p, id)].pc; unit in pc.todo && unit in pc.usage && pc.usage[unit] != 0.0
    requires !IsRecorded(sys.db.ledger, sys.execs[(p, id)].task, unit)
    ensures StepTo(sys, Execute(p, id, Record(unit, true)), sys1) && StepTo(sys1, Execute(p, id, Persist(false)), sys2)
    ensures id in sys2.db.jobs && sys2.db.jobs[id].phase == Phases.Succeeded && unit in sys2.db.jobs[id].status.usage
    ensures sys2.db.jobs[id].status.usage[unit] != Ledger.SumWhere(sys2.db.ledger, Ledger.OfJob(id, unit)) == 0.0
  {
    BilledOnce(sys, sys.execs[(p, id)].task, sys.execs[(p, id)].pc.usage, unit);
    sys1 := LoseRecord(sys, p, id, unit);
    sys2 := Conclude(sys1, p, id);
  }

  lemma LoseRecord(sys: System, p: Proc, id: JobId, unit: string) returns (sys': System)
    requires (p, id) in sys.execs && sys.execs[(p, id)].pc.Recording? && id in sys.db.jobs
    requires unit in sys.execs[(p, id)].pc.todo && unit in sys.execs[(p, id)].pc.usage
    ensures StepTo(sys, Execute(p, id, Record(unit, true)), sys') && sys'.db == sys.db && (p, id) in sys'.execs
    ensures sys'.execs[(p, id)].pc == Concluding(sys.execs[(p, id)].pc.h, sys.execs[(p, id)].pc.usage)
  {
    sys' := Protocol.Apply(sys, Execute(p, id, Record(unit, true)));
  }

  lemma Conclude(sys: System, p: Proc, id: JobId) returns (sys': System)
    requires (p, id) in sys.execs && sys.execs[(p, id)].pc.Concluding? && id in sys.db.jobs
    requires sys.db.jobs[id].phase == Phases.Running
    ensures StepTo(sys, Execute(p, id, Persist(false)), sys') && sys'.db.ledger == sys.db.ledger
    ensures id in sys'.db.jobs && sys'.db.jobs[id].phase == Phases.Succeeded
    ensures sys'.db.jobs[id].status.usage == sys.execs[(p, id)].pc.usage
  {
    var x := sys.execs[(p, id)];
    var write := TransitionStep(id, Phases.Succeeded, SetUsage(x.pc.usage));
    assert EffectOf(sys.db, sys.eng, id, x, Persist(false)) == Effect(Some(write), None, None);
    sys' := Protocol.Apply(sys, Execute(p, id, Persist(false)));
    assert sys'.db == Tables.Apply(sys.db, write);
    ConcludedFacts(sys.db, id, x.pc.usage);
  }

  lemma ConcludedFacts(db: Db, id: JobId, usage: map<string, real>)
    requires id in db.jobs && db.jobs[id].phase == Phases.Running
    ensures var db' := Tables.Apply(db, TransitionStep(id, Phases.Succeeded, SetUsage(usage)));
            && db'.ledger == db.ledger && id in db'.jobs && db'.jobs[id].phase == Phases.Succeeded
            && db'.jobs[id].status.usage == usage
  {
  }

  lemma BillUnits(shots: nat)
    ensures UsageMap(Aer.Bill(shots)) == map["shots" := shots as real, "tasks" := 1.0]
  {
    var bill := Aer.Bill(shots);
    assert bill[..1] == [bill[0]];
    assert bill[..1][..0] == [];
    assert UsageMap(bill[..1]) == map["shots" := shots as real];
  }

  /** The part of the invariant that ties the engine to the task rows. */
  ghost predicate EngineOk(db: Db, eng: Aer.Engine) {
    && (forall e :: e in eng.tasks ==> KnownTask(db, eng.tasks[e]) && Aer.WellFormed(eng.tasks[e]))
    && (forall k :: k in eng.byKey ==> Aer.KeyOk(eng, k))
  }

  lemma InvEngineOk(sys: System)
    requires Inv(sys)
    ensures EngineOk(sys.db, sys.eng)
  {
    forall e | e in sys.eng.tasks ensures Aer.WellFormed(sys.eng.tasks[e]) {
      assert Aer.TaskOk(sys.eng, e);
    }
  }

  /** What the engine billed is the job's declared shots and one task. */
  lemma BilledUnits(db: Db, eng: Aer.Engine, t: TaskId, target: string, usage: map<string, real>)
    requires EngineOk(db, eng) && Billed(eng, target, t, usage)
    ensures t in db.tasks && db.tasks[t].jobId in db.jobs
    ensures usage == map["shots" := db.jobs[db.tasks[t].jobId].doc.view.shots as real, "tasks" := 1.0]
  {
    var e := eng.byKey[(target, t)];
    assert Aer.KeyOk(eng, (target, t)) && KnownTask(db, eng.tasks[e]);
    BillUnits(eng.tasks[e].shots);
  }

  /** usageWithinCaps: no job is ever billed more shots than its document declares, or more than one task. */
  lemma UsageWithinCaps(run: seq<System>, i: nat, id: JobId)
    requires IsRun(run) && i < |run| && id in run[i].db.jobs
    ensures Ledger.SumWhere(run[i].db.ledger, Ledger.OfJob(id, "shots")) <= run[i].db.jobs[id].doc.view.shots as real
    ensures Ledger.SumWhere(run[i].db.ledger, Ledger.OfJob(id, "tasks")) <= 1.0
  {
    RunInvariant(run, i);
    if k :| 0 <= k < |run[i].db.ledger| && run[i].db.ledger[k].jobId == id {
      InvEngineOk(run[i]);
      CapsHold(run[i], id, k);
    } else {
      Ledger.SumNone(run[i].db.ledger, Ledger.OfJob(id, "shots"));
      Ledger.SumNone(run[i].db.ledger, Ledger.OfJob(id, "tasks"));
    }
  }

  lemma CapsHold(sys: System, id: JobId, k: nat)
    requires LedgerOk(sys.db, sys.eng) && EngineOk(sys.db, sys.eng) && id in sys.db.jobs && k < |sys.db.ledger|
    requires sys.db.ledger[k].jobId == id
    ensures Ledger.SumWhere(sys.db.ledger, Ledger.OfJob(id, "shots")) <= sys.db.jobs[id].doc.view.shots as real
    ensures Ledger.SumWhere(sys.db.ledger, Ledger.OfJob(id, "tasks")) <= 1.0
  {
    var r := sys.db.ledger[k];
    var usage := RowUsage(sys.db, sys.eng, r);
    BilledUnits(sys.db, sys.eng, r.taskId, r.target, usage);
    BilledOnce(sys, r.taskId, usage, "shots");
    BilledOnce(sys, r.taskId, usage, "tasks");
  }

  lemma RowUsage(db: Db, eng: Aer.Engine, r: LedgerRow) returns (usage: map<string, real>)
    requires RowOk(db, eng, r)
    ensures Billed(eng, r.target, r.taskId, usage) && TaskIs(db, r.taskId, r.jobId, r.target) && r.unit in usage
    ensures r.amount == usage[r.unit]
  {
    usage :| Billed(eng, r.target, r.taskId, usage) && r.unit in usage && r.amount == usage[r.unit];
  }

  // ---- sessions ----

  /**
   Session affinity over whole runs: whatever is submitted for a joining job - after a normal or a relaxed placement,
   first or resumed - goes to the joined session's target, carries its adapter session and has its tenant.
   */
  lemma SessionAffinity(run: seq<System>, i: nat, k: nat)
    requires IsRun(run) && i < |run| && k < |run[i].submissions|
    ensures var s, db := run[i].submissions[k], run[i].db;
            && s.job in db.jobs
            && (JoinOf(db, s.job).Some? ==>
                  && JoinOf(db, s.job).value in db.sessions
                  && s.target == db.sessions[JoinOf(db, s.job).value].target
                  && db.jobs[s.job].tenant == db.sessions[JoinOf(db, s.job).value].tenant
                  && s.session == Some(db.sessions[JoinOf(db, s.job).value].adapterSessionId))
  {
    RunInvariant(run, i);
    var sys, s := run[i], run[i].submissions[k];
    assert SubmissionOk(sys.db, s) && TaskPlaced(sys, s.task);
    PlacedIsAffine(sys.db, sys.placed[s.task], s.job, s.target);
  }

  lemma PlacedIsAffine(db: Db, how: Placing, id: JobId, target: string)
    requires Placed(db, how, id, target)
    ensures Affine(db, id, target)
  {
    if JoinOf(db, id).Some? {
      Placement.PinnedJobsStay(how.policy, how.view, how.fleet, how.now, how.fleet', how.now', how.attempt,
                               db.sessions[JoinOf(db, id).value].target);
    }
  }

  lemma TerminalStaysUnbound(sys: System, s: Protocol.Step, sys': System, id: JobId)
    requires Inv(sys) && StepTo(sys, s, sys') && id in sys.db.jobs && Phases.Terminal(sys.db.jobs[id].phase)
    ensures id in sys'.db.jobs && sys'.db.jobs[id].phase == sys.db.jobs[id].phase
    ensures forall t :: t in sys'.db.tasks && sys'.db.tasks[t].jobId == id ==>
              t in sys.db.tasks && sys.db.tasks[t].jobId == id
    ensures sys'.db.jobs[id].status.error == sys.db.jobs[id].status.error
  {
    if WriteOf(sys, s).Some? {
      StepSanctioned(sys, s);
      TerminalWrite(sys.db, WriteOf(sys, s).value, id);
    }
  }

  lemma TerminalWrite(db: Db, w: Tables.Step, id: JobId)
    requires Allowed(w) && id in db.jobs && Phases.Terminal(db.jobs[id].phase)
    ensures id in Tables.Apply(db, w).jobs && Tables.Apply(db, w).jobs[id].phase == db.jobs[id].phase
    ensures Tables.Apply(db, w).jobs[id].status.error == db.jobs[id].status.error
    ensures forall t :: t in Tables.Apply(db, w).tasks && Tables.Apply(db, w).tasks[t].jobId == id ==>
              t in db.tasks && db.tasks[t].jobId == id
  {
  }

  /** A job that has ended - in particular one failed with SESSION_LOST - keeps its end and is never bound again. */
  lemma EndedJobsAreNeverBound(run: seq<System>, i: nat, k: nat, id: JobId)
    requires IsRun(run) && i <= k < |run| && id in run[i].db.jobs && Phases.Terminal(run[i].db.jobs[id].phase)
    ensures id in run[k].db.jobs && run[k].db.jobs[id].phase == run[i].db.jobs[id].phase
    ensures run[k].db.jobs[id].status.error == run[i].db.jobs[id].status.error
    ensures forall t :: t in run[k].db.tasks && run[k].db.tasks[t].jobId == id ==>
              t in run[i].db.tasks && run[i].db.tasks[t].jobId == id
  {
    EndStays(run, i, k, id);
  }

  /** The job has ended in a, and in b it has the same end and no further task. */
  ghost predicate SameEnd(a: System, b: System, id: JobId) {
    && id in a.db.jobs && id in b.db.jobs && Phases.Terminal(a.db.jobs[id].phase)
    && b.db.jobs[id].phase == a.db.jobs[id].phase && b.db.jobs[id].status.error == a.db.jobs[id].status.error
    && forall t :: t in b.db.tasks && b.db.tasks[t].jobId == id ==> t in a.db.tasks && a.db.tasks[t].jobId == id
  }

  lemma EndStays(run: seq<System>, i: nat, k: nat, id: JobId)
    requires IsRun(run) && i <= k < |run| && SameEnd(run[i], run[i], id)
    ensures SameEnd(run[i], run[k], id)
  {
    var from := run[i];
    var r := (s: System) => Inv(s) && SameEnd(from, s, id);
    forall a, b | r(a) && Next(a, b) ensures r(b) {
      EndNext(from, a, b, id);
    }
    RunInvariant(run, i);
    RunKeeps(r, run, i, k);
  }

  /** A property that every step keeps stays along a run. */
  lemma {:induction false} RunKeeps(r: System -> bool, run: seq<System>, i: nat, k: nat)
    requires forall a, b :: r(a) && Next(a, b) ==> r(b)
    requires IsRun(run) && i <= k < |run| && r(run[i])
    ensures r(run[k])
  {
    if i < k {
      RunKeeps(r, run, i, k - 1);
      assert Linked(run, k - 1);
    }
  }

  lemma EndNext(a: System, b: System, c: System, id: JobId)
    requires SameEnd(a, b, id) && Inv(b) && Next(b, c)
    ensures SameEnd(a, c, id) && Inv(c)
  {
    NextStaysUnbound(b, c, id);
    NextKeeps(b, c);
  }

  lemma NextKeeps(sys: System, sys': System)
    requires Inv(sys) && Next(sys, sys')
    ensures Inv(sys')
  {
    var s :| StepTo(sys, s, sys');
    StepKeeps(sys, s, sys');
  }

  lemma NextStaysUnbound(sys: System, sys': System, id: JobId)
    requires Inv(sys) && Next(sys, sys') && id in sys.db.jobs && Phases.Terminal(sys.db.jobs[id].phase)
    ensures id in sys'.db.jobs && sys'.db.jobs[id].phase == sys.db.jobs[id].phase
    ensures sys'.db.jobs[id].status.error == sys.db.jobs[id].status.error
    ensures forall t :: t in sys'.db.tasks && sys'.db.tasks[t].jobId == id ==>
              t in sys.db.tasks && sys.db.tasks[t].jobId == id
  {
    var s :| StepTo(sys, s, sys');
    TerminalStaysUnbound(sys, s, sys', id);
  }

  /** The job joins a session that is missing, unreadable, of another tenant, closed or expired. */
  ghost predicate SessionRefused(db: Db, id: JobId, now: real, unread: bool) {
    id in db.jobs && db.jobs[id].doc.view.sessionJoin.Some? &&
    var sid := db.jobs[id].doc.view.sessionJoin.value;
    || unread || sid !in db.sessions || db.sessions[sid].tenant != db.jobs[id].tenant || db.sessions[sid].closed
    || (db.sessions[sid].expiresAt.Some? && db.sessions[sid].expiresAt.value <= now)
  }

  /** A joiner of a session that serves it is pinned to the session's target; any other job is placed freely. */
  lemma JoinersArePinned(sys: System, p: Proc, now: real, unread: bool, lost: bool, sys': System)
    requires StepTo(sys, Pin(p, now, unread, lost), sys') && !SessionRefused(sys.db, sys.tries[p].id, now, unread)
    ensures var id := sys.tries[p].id;
            var view := sys.db.jobs[id].doc.view;
            && sys'.db == sys.db && p in sys'.tries
            && (view.sessionJoin.None? ==> sys'.tries[p] == Ready(id, view))
            && (view.sessionJoin.Some? ==>
                  && view.sessionJoin.value in sys.db.sessions
                  && sys'.tries[p]
                     == Ready(id, view.(requireTargets := [sys.db.sessions[view.sessionJoin.value].target])))
  {
  }

  /** Before it submits, a joiner's executor looks again: it submits into a session still open, or fails the job. */
  lemma JoinersSubmitIntoTheirSession(sys: System, p: Proc, id: JobId, now: real, sys': System)
    requires StepTo(sys, Execute(p, id, ResolveSession(now)), sys') && sys.db.jobs[id].doc.view.sessionJoin.Some?
    ensures var sid := sys.db.jobs[id].doc.view.sessionJoin.value;
            var open := sid in sys.db.sessions && !sys.db.sessions[sid].closed
                        && (sys.db.sessions[sid].expiresAt.None? || now < sys.db.sessions[sid].expiresAt.value);
            && (p, id) in sys'.execs && sys'.db == sys.db
            && sys'.execs[(p, id)].pc == if open then Submitting(Some(sys.db.sessions[sid].adapterSessionId))
                                         else Failing("SESSION_LOST")
  {
  }

  ghost predicate ClosedIn(db: Db, sid: SessionId) {
    sid in db.sessions && db.sessions[sid].closed
  }

  lemma NextKeepsClosed(a: System, b: System, sid: SessionId)
    requires Inv(a) && Next(a, b) && ClosedIn(a.db, sid)
    ensures Inv(b) && ClosedIn(b.db, sid)
  {
    NextKeeps(a, b);
    NextWrites(a, b, sid);
  }

  lemma NextWrites(a: System, b: System, sid: SessionId)
    requires Next(a, b) && ClosedIn(a.db, sid)
    ensures ClosedIn(b.db, sid)
  {
    var s :| StepTo(a, s, b);
    if WriteOf(a, s).Some? {
      WriteKeepsClosed(a.db, WriteOf(a, s).value, sid);
    }
  }

  lemma WriteKeepsClosed(db: Db, w: Tables.Step, sid: SessionId)
    requires ClosedIn(db, sid)
    ensures ClosedIn(Tables.Apply(db, w), sid)
  {
  }

  /** A session that the sweep has closed refuses its joiners from then on. */
  lemma SweptSessionsStayClosed(run: seq<System>, i: nat, k: nat, sid: SessionId, id: JobId, now: real)
    requires IsRun(run) && i < k < |run| && StepTo(run[i], ExpireSession(sid), run[i + 1]) && sid in run[i].db.sessions
    requires id in run[k].db.jobs && run[k].db.jobs[id].doc.view.sessionJoin == Some(sid)
    ensures SessionRefused(run[k].db, id, now, false)
  {
    SweepCloses(run[i], sid, run[i + 1]);
    StaysClosed(run, i + 1, k, sid);
    ClosedRefuses(run[k].db, sid, id, now);
  }

  lemma StaysClosed(run: seq<System>, i: nat, k: nat, sid: SessionId)
    requires IsRun(run) && i <= k < |run| && ClosedIn(run[i].db, sid)
    ensures ClosedIn(run[k].db, sid)
  {
    var r := (s: System) => Inv(s) && ClosedIn(s.db, sid);
    forall a, b | r(a) && Next(a, b) ensures r(b) {
      NextKeepsClosed(a, b, sid);
    }
    RunInvariant(run, i);
    RunKeeps(r, run, i, k);
  }

  lemma SweepCloses(sys: System, sid: SessionId, sys': System)
    requires StepTo(sys, ExpireSession(sid), sys') && sid in sys.db.sessions
    ensures ClosedIn(sys'.db, sid)
  {
  }

  lemma ClosedRefuses(db: Db, sid: SessionId, id: JobId, now: real)
    requires ClosedIn(db, sid)
    requires id in db.jobs && db.jobs[id].doc.view.sessionJoin == Some(sid)
    ensures SessionRefused(db, id, now, false)
  {
  }

  /**
   A joining job whose session is missing, unreadable, foreign, closed or expired when a cycle resolves it ends there,
   if the failing write is not lost: unless it had already ended, it is FAILED with SESSION_LOST, and from then on it is
   never bound again. A lost write leaves the job as it was, and this attempt binds nothing.
   */
  lemma LostSessionsFailTheJob(run: seq<System>, i: nat, p: Proc, now: real, unread: bool, lost: bool, k: nat)
    requires IsRun(run) && i < k < |run| && StepTo(run[i], Pin(p, now, unread, lost), run[i + 1])
    requires SessionRefused(run[i].db, run[i].tries[p].id, now, unread)
    ensures p !in run[i + 1].tries && run[i + 1].db.tasks == run[i].db.tasks
    ensures lost ==> run[i + 1].db == run[i].db
    ensures var id := run[i].tries[p].id;
            !lost ==>
            && id in run[k].db.jobs && Phases.Terminal(run[k].db.jobs[id].phase)
            && (!Phases.Terminal(run[i].db.jobs[id].phase) ==>
                  run[k].db.jobs[id].phase == Phases.Failed && run[k].db.jobs[id].status.error == Some("SESSION_LOST"))
            && forall t :: t in run[k].db.tasks && run[k].db.tasks[t].jobId == id ==> t in run[i].db.tasks
  {
    var id := run[i].tries[p].id;
    RunInvariant(run, i);
    PinFails(run[i], p, now, unread, lost, run[i + 1]);
    if !lost {
      EndedJobsAreNeverBound(run, i + 1, k, id);
    }
  }

  lemma PinFails(sys: System, p: Proc, now: real, unread: bool, lost: bool, sys': System)
    requires Audit.Inv(sys.db) && StepTo(sys, Pin(p, now, unread, lost), sys')
    requires SessionRefused(sys.db, sys.tries[p].id, now, unread)
    ensures p !in sys'.tries && sys'.db.tasks == sys.db.tasks && (lost ==> sys'.db == sys.db)
    ensures var id := sys.tries[p].id;
            !lost ==>
            && id in sys'.db.jobs && Phases.Terminal(sys'.db.jobs[id].phase)
            && (!Phases.Terminal(sys.db.jobs[id].phase) ==>
                  sys'.db.jobs[id].phase == Phases.Failed && sys'.db.jobs[id].status.error == Some("SESSION_LOST"))
  {
    var id := sys.tries[p].id;
    SessionLostWrite(sys.db, id);
    assert !lost ==> sys'.db == Tables.Apply(sys.db, TransitionStep(id, Phases.Failed, SESSION_LOST));
  }

  lemma SessionLostWrite(db: Db, id: JobId)
    requires Audit.Inv(db) && id in db.jobs
    ensures var db' := Tables.Apply(db, TransitionStep(id, Phases.Failed, SESSION_LOST));
            && id in db'.jobs && Phases.Terminal(db'.jobs[id].phase) && db'.tasks == db.tasks
            && (!Phases.Terminal(db.jobs[id].phase) ==>
                  db'.jobs[id].phase == Phases.Failed && db'.jobs[id].status.error == Some("SESSION_LOST"))
  {
    assert Audit.JobOk(db, id);
    KnownPhase(Tables.ChainOf(db.events, id));
  }

  lemma KnownPhase(c: seq<Phases.Phase>)
    requires Phases.Lifecycle(c)
    ensures Phases.Valid(c[|c| - 1])
  {
    if |c| > 1 {
      assert Phases.Follows(c[|c| - 2], c[|c| - 1]);
      KnownPhase(c[..|c| - 1]);
    }
  }

  // ---- quality floors ----

  /**
   Over whole runs, under floor-checking policies, a task sits on a target whose floors held when it was placed, or
   its job prefers its deadline, was placed at or past the decision horizon, and every broken floor was recorded.
   */
  lemma FloorsHoldOrWereWaived(run: seq<System>, i: nat, t: TaskId)
    requires IsRun(run) && i < |run| && t in run[i].db.tasks
    ensures t in run[i].placed && run[i].placed[t].attempt.BindTo?
    ensures run[i].placed[t].attempt.target == run[i].db.tasks[t].target
    ensures var how := run[i].placed[t];
            Scheduling.ChecksFloors(how.policy) ==>
              if how.attempt.relaxedFloors == [] then
                exists v :: v in how.fleet && v.name == run[i].db.tasks[t].target && Scheduling.FloorsHold(how.view, v)
              else
                && how.view.onConflict == "prefer-deadline" && how.view.deadline.Some?
                && exists v :: v in how.fleet' && v.name == run[i].db.tasks[t].target
                               && how.now' >= how.view.deadline.value - v.waitSeconds
                               && how.attempt.relaxedFloors == Placement.ViolationsOf(how.view, v)
  {
    RunInvariant(run, i);
    assert TaskPlaced(run[i], t);
    var how := run[i].placed[t];
    assert Placed(run[i].db, how, run[i].db.tasks[t].jobId, run[i].db.tasks[t].target);
    if Scheduling.ChecksFloors(how.policy) {
      Placement.FloorsBrokenOnlyAsDeclared(how.policy, how.view, how.fleet, how.now, how.fleet', how.now', how.attempt);
    }
  }
}
