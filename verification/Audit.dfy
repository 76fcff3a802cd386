/**
 What every reachable state of the tables guarantees: the invariants the repository checks after a chaos run
 (internal/chaos/invariants.go), for all interleavings of all writers.
 */
module Audit {
  import opened Common
  import opened Phases
  import opened Tables

  ghost predicate Distinct<T>(s: seq<T>) {
    forall i, k :: 0 <= i < k < |s| ==> s[i] != s[k]
  }

  /** The event chain is a lifecycle whose last phase is both the phase column and the status phase. */
  ghost predicate JobOk(db: Db, id: JobId)
    requires id in db.jobs
  {
    var c := ChainOf(db.events, id);
    Lifecycle(c) && c[|c| - 1] == db.jobs[id].phase == db.jobs[id].status.phase
  }

  /** A task belongs to a job that has left PENDING. */
  ghost predicate TaskOk(db: Db, t: TaskId)
    requires t in db.tasks
  {
    db.tasks[t].jobId in db.jobs && db.jobs[db.tasks[t].jobId].phase != Pending
  }

  ghost predicate OneTaskPerJob(db: Db) {
    forall t, u :: t in db.tasks && u in db.tasks && db.tasks[t].jobId == db.tasks[u].jobId ==> t == u
  }

  ghost predicate LedgerUnique(ledger: seq<LedgerRow>) {
    forall i, k :: 0 <= i < k < |ledger| ==> (ledger[i].taskId, ledger[i].unit) != (ledger[k].taskId, ledger[k].unit)
  }

  ghost predicate Inv(db: Db) {
    && (forall id :: id in db.jobs ==> JobOk(db, id))
    && (forall id :: id !in db.jobs ==> ChainOf(db.events, id) == [])
    && (forall t :: t in db.tasks ==> TaskOk(db, t))
    && OneTaskPerJob(db)
    && LedgerUnique(db.ledger)
    && Distinct(db.order) && (forall id :: id in db.order <==> id in db.jobs)
  }

  // ---- each write keeps it ----

  lemma WriteJobKeeps(db: Db, id: JobId, row: JobRow, other: JobId)
    requires row.phase == row.status.phase
    requires if id in db.jobs then JobOk(db, id) && Follows(db.jobs[id].phase, row.phase)
             else ChainOf(db.events, id) == [] && row.phase == Pending
    requires other in db.jobs ==> JobOk(db, other)
    ensures other in WriteJob(db, id, row).jobs ==> JobOk(WriteJob(db, id, row), other)
    ensures other !in WriteJob(db, id, row).jobs && ChainOf(db.events, other) == [] ==>
              ChainOf(WriteJob(db, id, row).events, other) == []
  {
  }

  /** The row a step writes together with its event, if any. */
  function Written(db: Db, s: Step): Option<(JobId, JobRow)> {
    match s
    case InsertStep(id, tenant, doc, conditions) =>
      if id in db.jobs then None
      else Some((id, JobRow(tenant, Pending, doc, Status(Pending, conditions, map[], None, None, None))))
    case BindStep(id, task, target) =>
      if Bind(db, id, task, target).Err? then None
      else
        var status := db.jobs[id].status.(phase := Scheduled, boundTarget := Some(target));
        Some((id, db.jobs[id].(phase := Scheduled, status := status)))
    case TransitionStep(id, to, m) =>
      if TransitionJob(db, id, to, m).Err? then None
      else Some((id, db.jobs[id].(phase := to, status := Mutate(m, db.jobs[id].status).(phase := to))))
    case ConditionStep(id, c) =>
      if id !in db.jobs || ConditionUnchanged(db.jobs[id].status.conditions, c) then None
      else
        var conditions := ReplaceCondition(db.jobs[id].status.conditions, c);
        Some((id, db.jobs[id].(status := db.jobs[id].status.(conditions := conditions))))
    case _ => None
  }

  /** Every change of the jobs table is such a write, except for stamping a session id into a status. */
  lemma ApplyWrites(db: Db, s: Step)
    ensures Written(db, s).Some? ==>
              && Apply(db, s).jobs == WriteJob(db, Written(db, s).value.0, Written(db, s).value.1).jobs
              && Apply(db, s).events == WriteJob(db, Written(db, s).value.0, Written(db, s).value.1).events
    ensures Written(db, s).None? ==> Apply(db, s).events == db.events && Apply(db, s).jobs.Keys == db.jobs.Keys
    ensures Written(db, s).None? ==> forall id :: id in db.jobs ==>
              var sid := Apply(db, s).jobs[id].status.sessionId;
              Apply(db, s).jobs[id] == db.jobs[id].(status := db.jobs[id].status.(sessionId := sid))
  {
  }

  lemma WrittenFollows(db: Db, s: Step)
    requires Allowed(s) && Written(db, s).Some?
    ensures var (id, row) := Written(db, s).value;
            if id in db.jobs then
              && Follows(db.jobs[id].phase, row.phase)
              && (db.jobs[id].phase == db.jobs[id].status.phase ==> row.phase == row.status.phase)
            else row.phase == Pending == row.status.phase
  {
  }

  lemma JobStepKeeps(db: Db, s: Step, other: JobId)
    requires Allowed(s)
    requires forall id :: id in db.jobs ==> JobOk(db, id)
    requires forall id :: id !in db.jobs ==> ChainOf(db.events, id) == []
    ensures other in Apply(db, s).jobs ==> JobOk(Apply(db, s), other)
    ensures other !in Apply(db, s).jobs ==> ChainOf(Apply(db, s).events, other) == []
  {
    ApplyWrites(db, s);
    assert other in db.jobs ==> JobOk(db, other);
    if Written(db, s).Some? {
      WrittenFollows(db, s);
      var (id, row) := Written(db, s).value;
      assert id in db.jobs ==> JobOk(db, id);
      WriteJobKeeps(db, id, row, other);
    }
  }

  lemma PhaseLeavesPending(db: Db, s: Step, id: JobId)
    requires Allowed(s) && id in db.jobs
    ensures id in Apply(db, s).jobs
    ensures Apply(db, s).jobs[id].tenant == db.jobs[id].tenant && Apply(db, s).jobs[id].doc == db.jobs[id].doc
    ensures db.jobs[id].phase != Pending ==> Apply(db, s).jobs[id].phase != Pending
    ensures Follows(db.jobs[id].phase, Apply(db, s).jobs[id].phase)
  {
  }

  lemma TaskStepKeeps(db: Db, s: Step, t: TaskId)
    requires Allowed(s) && t in Apply(db, s).tasks && (t in db.tasks ==> TaskOk(db, t))
    ensures TaskOk(Apply(db, s), t)
    ensures t in db.tasks ==>
              Apply(db, s).tasks[t].jobId == db.tasks[t].jobId && Apply(db, s).tasks[t].target == db.tasks[t].target
    ensures t !in db.tasks ==>
              && s.BindStep? && s.task == t && s.id in db.jobs && db.jobs[s.id].phase == Pending
              && Apply(db, s).tasks[t].jobId == s.id && Apply(db, s).tasks[t].target == s.target
  {
    if t in db.tasks {
      PhaseLeavesPending(db, s, db.tasks[t].jobId);
    }
  }

  lemma OneTaskStep(db: Db, s: Step)
    requires Allowed(s) && OneTaskPerJob(db) && forall t :: t in db.tasks ==> TaskOk(db, t)
    ensures OneTaskPerJob(Apply(db, s)) && forall t :: t in Apply(db, s).tasks ==> TaskOk(Apply(db, s), t)
  {
  }

  lemma LedgerStep(db: Db, s: Step)
    requires LedgerUnique(db.ledger)
    ensures LedgerUnique(Apply(db, s).ledger) && db.ledger <= Apply(db, s).ledger
  {
  }

  lemma OrderStep(db: Db, s: Step)
    requires Allowed(s) && Distinct(db.order) && forall id :: id in db.order <==> id in db.jobs
    ensures Distinct(Apply(db, s).order) && forall id :: id in Apply(db, s).order <==> id in Apply(db, s).jobs
  {
  }

  /** Every write of the control plane keeps the audit invariant. */
  lemma StepKeeps(db: Db, s: Step)
    requires Inv(db) && Allowed(s)
    ensures Inv(Apply(db, s))
  {
    forall id ensures id in Apply(db, s).jobs ==> JobOk(Apply(db, s), id)
      ensures id !in Apply(db, s).jobs ==> ChainOf(Apply(db, s).events, id) == []
    {
      JobStepKeeps(db, s, id);
    }
    OneTaskStep(db, s);
    LedgerStep(db, s);
    OrderStep(db, s);
  }

  // ---- runs ----

  const EMPTY := Db(map[], [], map[], [], [], map[])

  ghost predicate Next(db: Db, db': Db) {
    db' == db || exists s :: Allowed(s) && db' == Apply(db, s)
  }

  ghost predicate Linked(run: seq<Db>, i: nat)
    requires i + 1 < |run|
  {
    Next(run[i], run[i + 1])
  }

  /** Any interleaving of writes by any number of processes, from empty tables; the tables may also stand still. */
  ghost predicate IsRun(run: seq<Db>) {
    run != [] && run[0] == EMPTY && forall i: nat :: i + 1 < |run| ==> Linked(run, i)
  }

  lemma {:induction false} RunInvariant(run: seq<Db>, i: nat)
    requires IsRun(run) && i < |run|
    ensures Inv(run[i])
  {
    if i > 0 {
      RunInvariant(run, i - 1);
      assert Linked(run, i - 1);
      if run[i] != run[i - 1] {
        var s :| Allowed(s) && run[i] == Apply(run[i - 1], s);
        StepKeeps(run[i - 1], s);
      }
    }
  }

  /** A row, once inserted, stays, keeps its tenant and document, and its phase only moves along the lifecycle. */
  lemma {:induction false} RunRows(run: seq<Db>, i: nat, k: nat, id: JobId)
    requires IsRun(run) && i <= k < |run| && id in run[i].jobs
    ensures id in run[k].jobs && run[k].jobs[id].tenant == run[i].jobs[id].tenant
    ensures run[k].jobs[id].doc == run[i].jobs[id].doc
    ensures Rank(run[i].jobs[id].phase) <= Rank(run[k].jobs[id].phase)
    ensures Terminal(run[i].jobs[id].phase) ==> run[k].jobs[id].phase == run[i].jobs[id].phase
  {
    if i < k {
      RunRows(run, i, k - 1, id);
      assert Linked(run, k - 1);
      if run[k] != run[k - 1] {
        var s :| Allowed(s) && run[k] == Apply(run[k - 1], s);
        PhaseLeavesPending(run[k - 1], s, id);
      }
    }
  }

  /**
   The audit theorem. In every reachable state: each job's chain passes auditGapless, ends in the phase column
   and the status phase, holds at most four phase changes, and a terminal phase is final.
   */
  lemma AuditHolds(run: seq<Db>, i: nat, id: JobId)
    requires IsRun(run) && i < |run| && id in run[i].jobs
    ensures var c := ChainOf(run[i].events, id);
            && c != [] && c[0] == Pending
            && (forall n :: 0 < n < |c| ==> c[n - 1] == c[n] || Transition(c[n - 1], c[n]).None?)
            && c[|c| - 1] == run[i].jobs[id].phase == run[i].jobs[id].status.phase
            && Changes(c) <= 4
            && (forall m, n :: 0 <= m <= n < |c| && Terminal(c[m]) ==> c[n] == c[m])
  {
    RunInvariant(run, i);
    assert JobOk(run[i], id);
    var c := ChainOf(run[i].events, id);
    LifecycleIsShort(c);
    forall n | 0 < n < |c| ensures c[n - 1] == c[n] || Transition(c[n - 1], c[n]).None? {
      assert Follows(c[n - 1], c[n]);
    }
    forall m, n | 0 <= m <= n < |c| && Terminal(c[m]) ensures c[n] == c[m] {
      TerminalSticks(c, m, n);
    }
  }

  /** In every reachable state a job has at most one task row, and a task is billed at most once per unit. */
  lemma NoDuplicateExecution(run: seq<Db>, i: nat)
    requires IsRun(run) && i < |run|
    ensures OneTaskPerJob(run[i]) && LedgerUnique(run[i].ledger)
  {
    RunInvariant(run, i);
  }

  /** The target a job's status names is the one its task row was bound to. */
  ghost predicate BoundOk(db: Db) {
    forall t :: t in db.tasks ==>
      && db.tasks[t].jobId in db.jobs && db.jobs[db.tasks[t].jobId].phase != Pending
      && db.jobs[db.tasks[t].jobId].status.boundTarget == Some(db.tasks[t].target)
  }

  lemma BoundStep(db: Db, s: Step)
    requires BoundOk(db) && Allowed(s)
    ensures BoundOk(Apply(db, s))
  {
    forall t | t in Apply(db, s).tasks
      ensures && Apply(db, s).tasks[t].jobId in Apply(db, s).jobs
              && Apply(db, s).jobs[Apply(db, s).tasks[t].jobId].phase != Pending
              && Apply(db, s).jobs[Apply(db, s).tasks[t].jobId].status.boundTarget == Some(Apply(db, s).tasks[t].target)
    {
      if t in db.tasks {
        PhaseLeavesPending(db, s, db.tasks[t].jobId);
      }
    }
  }

  lemma {:induction false} StatusNamesTheTarget(run: seq<Db>, i: nat)
    requires IsRun(run) && i < |run|
    ensures BoundOk(run[i])
  {
    if i > 0 {
      StatusNamesTheTarget(run, i - 1);
      assert Linked(run, i - 1);
      if run[i] != run[i - 1] {
        var s :| Allowed(s) && run[i] == Apply(run[i - 1], s);
        BoundStep(run[i - 1], s);
      }
    }
  }

  // ---- "no event follows a terminal one" ----

  lemma NothingAfterTerminalExtends(c: seq<Phase>, p: Phase)
    requires c != []
    ensures NothingAfterTerminal(c + [p]) <==> NothingAfterTerminal(c) && !Terminal(c[|c| - 1])
  {
    var d := c + [p];
    if NothingAfterTerminal(d) {
      forall i | 0 <= i < |c| ensures !Terminal(c[i]) {
        assert d[i] == c[i];
      }
    }
  }

  /**
   terminalImmutable is not an invariant: SetJobCondition does not look at the phase. From a state that passes,
   the next state passes for a job exactly when the write is not a changing SetJobCondition on that job while it
   is terminal.
   */
  lemma TerminalEventsIff(db: Db, s: Step, id: JobId)
    requires Inv(db) && Allowed(s) && id in db.jobs && NothingAfterTerminal(ChainOf(db.events, id))
    ensures NothingAfterTerminal(ChainOf(Apply(db, s).events, id)) <==>
              !(s.ConditionStep? && s.id == id && Terminal(db.jobs[id].phase)
                && !ConditionUnchanged(db.jobs[id].status.conditions, s.c))
  {
    assert JobOk(db, id);
    ApplyWrites(db, s);
    if Written(db, s).Some? {
      WrittenFollows(db, s);
      var (wid, row) := Written(db, s).value;
      ChainAppend(db.events, Event(wid, row.phase, row.status), id);
      if wid == id {
        NothingAfterTerminalExtends(ChainOf(db.events, id), row.phase);
        WrittenToTerminal(db, s);
      }
    }
  }

  /** Only SetJobCondition writes to a terminal job. */
  lemma WrittenToTerminal(db: Db, s: Step)
    requires Written(db, s).Some? && Written(db, s).value.0 in db.jobs
    ensures Terminal(db.jobs[Written(db, s).value.0].phase) ==> s.ConditionStep?
  {
  }
}
