/**
 The job/task protocol as one transition system: any number of dispatcher processes (internal/dispatch/dispatcher.go,
 sessions.go, conflict.go), the API (internal/api/jobs.go), the tables and the adapter's task engine. Between two
 steps of a process anything else may happen, and a process may stop at any point.
 */
module Protocol {
  import opened Common
  import opened Tables
  import Phases
  import Audit
  import Fleet
  import Scheduling
  import Placement
  import Aer = AerEngine

  type Proc = nat
  type Handle = Uuid

  // ---- usage records ----

  /** usageToMap: amounts added up per unit. */
  function UsageMap(rs: seq<Aer.Usage>): map<string, real> {
    if rs == [] then map[]
    else
      var m, last := UsageMap(rs[..|rs| - 1]), rs[|rs| - 1];
      m[last.unit := (if last.unit in m then m[last.unit] else 0.0) + last.amount]
  }

  ghost predicate Bills(rs: seq<Aer.Usage>, unit: string) {
    exists r :: r in rs && r.unit == unit
  }

  function UnitTotal(rs: seq<Aer.Usage>, unit: string): real {
    if rs == [] then 0.0 else (if rs[0].unit == unit then rs[0].amount else 0.0) + UnitTotal(rs[1..], unit)
  }

  /** The map has exactly the units that occur, each with the sum of its amounts. */
  lemma {:induction false} UsageMapSums(rs: seq<Aer.Usage>, unit: string)
    ensures unit in UsageMap(rs) <==> Bills(rs, unit)
    ensures unit in UsageMap(rs) ==> UsageMap(rs)[unit] == UnitTotal(rs, unit)
    ensures unit !in UsageMap(rs) ==> UnitTotal(rs, unit) == 0.0
  {
    if rs != [] {
      var rest, last := rs[..|rs| - 1], rs[|rs| - 1];
      assert rs == rest + [last];
      UsageMapSums(rest, unit);
      TotalSplit(rest, [last], unit);
      BillsAppend(rest, last, unit);
    }
  }

  lemma BillsAppend(rs: seq<Aer.Usage>, r: Aer.Usage, unit: string)
    ensures Bills(rs + [r], unit) <==> Bills(rs, unit) || r.unit == unit
  {
    assert r in rs + [r];
    if Bills(rs, unit) {
      var x :| x in rs && x.unit == unit;
      assert x in rs + [r];
    }
  }

  lemma {:induction false} TotalSplit(a: seq<Aer.Usage>, b: seq<Aer.Usage>, unit: string)
    ensures UnitTotal(a + b, unit) == UnitTotal(a, unit) + UnitTotal(b, unit)
  {
    if a == [] {
      assert a + b == b;
    } else {
      assert (a + b)[1..] == a[1..] + b;
      TotalSplit(a[1..], b, unit);
    }
  }

  lemma {:induction false} TotalForgetsOrder(rs: seq<Aer.Usage>, ts: seq<Aer.Usage>, unit: string)
    requires multiset(rs) == multiset(ts)
    ensures UnitTotal(rs, unit) == UnitTotal(ts, unit)
  {
    if rs == [] {
      assert |ts| == |multiset(ts)| == |multiset(rs)| == 0;
    } else {
      var k := Fleet.MatchFirst(rs, ts);
      assert rs[..0] + rs[1..] == rs[1..];
      TotalForgetsOrder(rs[1..], ts[..k] + ts[k + 1..], unit);
      assert ts == ts[..k] + ([ts[k]] + ts[k + 1..]);
      TotalSplit(ts[..k], [ts[k]] + ts[k + 1..], unit);
      TotalSplit([ts[k]], ts[k + 1..], unit);
      TotalSplit(ts[..k], ts[k + 1..], unit);
    }
  }

  /** The order of the adapter's records does not matter. */
  lemma UsageForgetsOrder(rs: seq<Aer.Usage>, ts: seq<Aer.Usage>)
    requires multiset(rs) == multiset(ts)
    ensures UsageMap(rs) == UsageMap(ts)
  {
    forall unit ensures unit in UsageMap(rs) <==> unit in UsageMap(ts)
      ensures unit in UsageMap(rs) ==> UsageMap(rs)[unit] == UsageMap(ts)[unit]
    {
      UsageMapSums(rs, unit);
      UsageMapSums(ts, unit);
      TotalForgetsOrder(rs, ts, unit);
      SameBills(rs, ts, unit);
    }
  }

  lemma SameBills(rs: seq<Aer.Usage>, ts: seq<Aer.Usage>, unit: string)
    requires multiset(rs) == multiset(ts)
    ensures Bills(rs, unit) <==> Bills(ts, unit)
  {
    forall r ensures r in rs <==> r in ts {
      assert r in rs <==> r in multiset(rs);
      assert r in ts <==> r in multiset(ts);
    }
  }

  method UsageToMap(rs: seq<Aer.Usage>) returns (m: map<string, real>)
    ensures m == UsageMap(rs)
    ensures forall unit :: unit in m <==> Bills(rs, unit)
    ensures forall unit :: unit in m ==> m[unit] == UnitTotal(rs, unit)
  {
    m := map[];
    for i := 0 to |rs|
      invariant m == UsageMap(rs[..i])
    {
      assert rs[..i + 1][..i] == rs[..i];
      m := m[rs[i].unit := (if rs[i].unit in m then m[rs[i].unit] else 0.0) + rs[i].amount];
    }
    assert rs[..|rs|] == rs;
    forall unit ensures unit in m <==> Bills(rs, unit)
      ensures unit in m ==> m[unit] == UnitTotal(rs, unit)
    {
      UsageMapSums(rs, unit);
    }
  }

  // ---- executors ----

  /** Where an executor stands between two effects. */
  datatype Pc =
    | Start
    | Opening(sid: SessionId, srow: SessionRow)
    | Noting(sid: SessionId, adapterSession: string)
    | Stamping(sid: SessionId, adapterSession: string)
    | Submitting(session: Option<string>)
    | Queueing(h: Handle)
    | Marking(h: Handle)
    | Rechecking(h: Handle, running: bool)
    | Following(h: Handle, running: bool)
    | RunStoring(h: Handle)
    | RunMarking(h: Handle)
    | Passing(h: Handle, usage: map<string, real>)
    | Storing(h: Handle, usage: map<string, real>)
    | Recording(h: Handle, usage: map<string, real>, todo: set<string>)
    | Concluding(h: Handle, usage: map<string, real>)
    | FailStoring(h: Handle, category: string)
    | Failing(category: string)
    | FailMarking(category: string)
    | CancelStoring(h: Handle)
    | CancelMarking

  datatype Exec = Exec(task: TaskId, target: string, pc: Pc)

  /** The choices left to the environment: whether a write or a call is lost, and what a read returns. */
  datatype Move =
    | NoAdapter
    | BadPayload
    | ResolveSession(now: real)
    | OpenSession(sid: SessionId, srow: SessionRow)
    | SessionFails
    | Persist(lost: bool)
    | SubmitTask(newId: Handle, payload: Aer.Payload, precheck: Option<Aer.Category>, now: real, lost: bool)
    | SubmitFails
    | Reread(failed: bool, now: real, lost: bool)
    | Receive(status: Aer.Task)
    | Record(unit: string, lost: bool)
    | RecordDone

  datatype Effect = Effect(write: Option<Tables.Step>, call: Option<Aer.Step>, next: Option<Pc>)

  predicate SessionLive(s: SessionRow, now: real) {
    !s.closed && (s.expiresAt.None? || now < s.expiresAt.value)
  }

  /** The write a program counter stands before. */
  function OwnWrite(db: Db, id: JobId, x: Exec): Option<Tables.Step> {
    match x.pc
    case Opening(sid, srow) => Some(InsertSessionStep(sid, srow))
    case Noting(sid, _) => Some(ConditionStep(id, Condition("SessionOpened", "True", "SessionOpened", sid)))
    case Stamping(sid, _) => Some(StampStep(id, sid))
    case Queueing(h) => Some(UpdateTaskStep(x.task, Some(h), "QUEUED"))
    case Marking(h) => Some(TransitionStep(id, Phases.Submitted, Keep))
    case RunStoring(h) => Some(UpdateTaskStep(x.task, Some(h), "RUNNING"))
    case RunMarking(h) => Some(TransitionStep(id, Phases.Running, Keep))
    case Passing(h, _) => Some(TransitionStep(id, Phases.Running, Keep))
    case Storing(h, _) => Some(UpdateTaskStep(x.task, Some(h), "SUCCEEDED"))
    case Concluding(h, usage) => Some(TransitionStep(id, Phases.Succeeded, SetUsage(usage)))
    case FailStoring(h, _) => Some(UpdateTaskStep(x.task, Some(h), "FAILED"))
    case Failing(_) => Some(UpdateTaskStep(x.task, None, "FAILED"))
    case FailMarking(category) =>
      Some(TransitionStep(id, Phases.Failed, AddCondition(Condition("Failed", "True", category, ""))))
    case CancelStoring(h) => Some(UpdateTaskStep(x.task, Some(h), "CANCELLED"))
    case CancelMarking =>
      Some(TransitionStep(id, Phases.Cancelled, AddCondition(Condition("Cancelled", "True", "AdapterCancelled", ""))))
    case _ => None
  }

  /** Where the executor goes after that write; only three writes have their error looked at. */
  function AfterOwnWrite(db: Db, id: JobId, x: Exec, lost: bool): Option<Pc> {
    match x.pc
    case Opening(sid, srow) =>
      Some(if lost || sid in db.sessions then Failing("VENDOR_ERROR") else Noting(sid, srow.adapterSessionId))
    case Noting(sid, a) => Some(Stamping(sid, a))
    case Stamping(sid, a) => Some(Submitting(Some(a)))
    case Queueing(h) => Some(Marking(h))
    case Marking(h) =>
      Some(if lost || TransitionJob(db, id, Phases.Submitted, Keep).Err? then Rechecking(h, false)
           else Following(h, false))
    case RunStoring(h) => Some(RunMarking(h))
    case RunMarking(h) =>
      Some(if lost || TransitionJob(db, id, Phases.Running, Keep).Err? then Rechecking(h, true) else Following(h, true))
    case Passing(h, usage) => Some(Storing(h, usage))
    case Storing(h, usage) => Some(Recording(h, usage, usage.Keys))
    case FailStoring(h, category) => Some(Failing(category))
    case Failing(category) => Some(FailMarking(category))
    case CancelStoring(h) => Some(CancelMarking)
    case _ => None
  }

  function CategoryName(c: Aer.Category): string {
    match c
    case InvalidProgram => "INVALID_PROGRAM"
    case CapabilityMismatch => "CAPABILITY_MISMATCH"
    case VendorError => "VENDOR_ERROR"
    case SessionLost => "SESSION_LOST"
  }

  /** applyTaskStatus: the branch taken on a received status. */
  function OnStatus(h: Handle, running: bool, status: Aer.Task): Pc {
    match status.state
    case Queued => Following(h, running)
    case Running => if running then Following(h, running) else RunStoring(h)
    case Succeeded => Passing(h, UsageMap(status.usage))
    case Failed => FailStoring(h, if status.error.Some? then CategoryName(status.error.value) else "VENDOR_ERROR")
    case Cancelled => CancelStoring(h)
  }

  function JoinOf(db: Db, id: JobId): Option<SessionId>
    requires id in db.jobs
  {
    db.jobs[id].doc.view.sessionJoin
  }

  /** sessionForExecution for a joining job. */
  function Rejoin(db: Db, sid: SessionId, now: real): Pc {
    if sid in db.sessions && SessionLive(db.sessions[sid], now) then Submitting(Some(db.sessions[sid].adapterSessionId))
    else Failing("SESSION_LOST")
  }

  ghost predicate MoveEnabled(db: Db, eng: Aer.Engine, id: JobId, x: Exec, m: Move) {
    && id in db.jobs
    && match m
       case NoAdapter => x.pc.Start?
       case BadPayload => x.pc.Start?
       case ResolveSession(now) => x.pc.Start?
       case OpenSession(sid, srow) =>
         && x.pc.Start? && JoinOf(db, id).None? && srow.tenant == db.jobs[id].tenant && srow.target == x.target
         && !srow.closed
       case SessionFails => x.pc.Start?
       case Persist(lost) => OwnWrite(db, id, x).Some?
       case SubmitTask(newId, payload, precheck, now, lost) =>
         x.pc.Submitting? && payload.shots == db.jobs[id].doc.view.shots && x.target in eng.cfg && newId !in eng.tasks
       case SubmitFails => x.pc.Submitting?
       case Reread(failed, now, lost) => x.pc.Rechecking?
       case Receive(status) =>
         // streams deliver copies of a state the task has been in
         x.pc.Following? && x.pc.h in eng.tasks && Aer.TaskAdvances(status, eng.tasks[x.pc.h])
       case Record(unit, lost) => x.pc.Recording? && unit in x.pc.todo && unit in x.pc.usage
       case RecordDone => x.pc.Recording? && x.pc.todo == {}
  }

  function SubmittedHandle(eng: Aer.Engine, target: string, task: TaskId, newId: Handle): Handle {
    if (target, task) in eng.byKey then eng.byKey[(target, task)] else newId
  }

  function EffectOf(db: Db, eng: Aer.Engine, id: JobId, x: Exec, m: Move): Effect
    requires MoveEnabled(db, eng, id, x, m)
  {
    match m
    case NoAdapter => Effect(None, None, Some(Failing("DEVICE_OFFLINE")))
    case BadPayload => Effect(None, None, Some(Failing("INVALID_PROGRAM")))
    case ResolveSession(now) =>
      Effect(None, None, Some(if JoinOf(db, id).Some? then Rejoin(db, JoinOf(db, id).value, now) else Submitting(None)))
    case OpenSession(sid, srow) => Effect(None, None, Some(Opening(sid, srow)))
    case SessionFails =>
      // a session that cannot be read counts as lost, one that cannot be opened as the vendor's error
      Effect(None, None, Some(Failing(if JoinOf(db, id).Some? then "SESSION_LOST" else "VENDOR_ERROR")))
    case Persist(lost) => Effect(if lost then None else OwnWrite(db, id, x), None, AfterOwnWrite(db, id, x, lost))
    case SubmitTask(newId, payload, precheck, now, lost) =>
      Effect(None, Some(Aer.Submit(x.target, x.task, payload, precheck, newId, now)),
             Some(if lost then Failing("VENDOR_ERROR") else Queueing(SubmittedHandle(eng, x.target, x.task, newId))))
    case SubmitFails => Effect(None, None, Some(Failing("VENDOR_ERROR")))
    case Reread(failed, now, lost) =>
      if failed || Phases.Terminal(db.jobs[id].phase) then
        Effect(None, if lost then None else Some(Aer.Cancel(x.pc.h, now)), None)
      else Effect(None, None, Some(Following(x.pc.h, x.pc.running)))
    case Receive(status) => Effect(None, None, Some(OnStatus(x.pc.h, x.pc.running, status)))
    case Record(unit, lost) =>
      if lost then Effect(None, None, Some(Concluding(x.pc.h, x.pc.usage)))
      else Effect(Some(RecordStep(LedgerRow(id, x.task, db.jobs[id].tenant, x.target, unit, x.pc.usage[unit]))), None,
                  Some(x.pc.(todo := x.pc.todo - {unit})))
    case RecordDone => Effect(None, None, Some(Concluding(x.pc.h, x.pc.usage)))
  }

  // ---- the system ----

  /** Where a process stands with the job its cycle is dispatching. */
  datatype Try = Looked(id: JobId) | Ready(id: JobId, view: Fleet.JobView)

  /** One run of dispatchOne up to the bind. */
  datatype Placing = Placing(policy: Scheduling.Policy, view: Fleet.JobView, fleet: seq<Fleet.TargetView>, now: real,
                             fleet': seq<Fleet.TargetView>, now': real, attempt: Placement.Attempt)

  datatype Submission = Submission(job: JobId, task: TaskId, target: string, session: Option<string>)

  /**
   `execs` holds the executors of every process, keyed like inFlight. `submissions` (every SubmitTask sent), `placed`
   (how each task was placed) and `unbilled` (tasks for which a ledger write failed) are history.
   */
  datatype System = System(db: Db, eng: Aer.Engine, execs: map<(Proc, JobId), Exec>, tries: map<Proc, Try>,
                           submissions: seq<Submission>, placed: map<TaskId, Placing>, unbilled: set<TaskId>)

  datatype Step =
    | SubmitJob(id: JobId, tenant: string, doc: Doc, conditions: seq<Condition>)
    | CancelJob(id: JobId)
    | ExpireSession(sid: SessionId)
    | Adapter(s: Aer.Step)
    | Look(p: Proc, id: JobId)
    | Pin(p: Proc, now: real, unread: bool, lost: bool)
    | Annotate(p: Proc, c: Condition)
    | Decide(p: Proc, how: Placing, task: TaskId, lost: bool)
    | Execute(p: Proc, id: JobId, m: Move)
    | Crash(p: Proc)
    | Resume(p: Proc, task: TaskId)

  ghost predicate Enabled(sys: System, s: Step) {
    match s
    case SubmitJob(id, tenant, doc, conditions) => true
    case CancelJob(id) => true
    case ExpireSession(sid) => true
    case Adapter(a) => Aer.Enabled(sys.eng, a) && !a.Submit?
    case Look(p, id) => p !in sys.tries && id in sys.db.jobs
    case Pin(p, now, unread, lost) => p in sys.tries && sys.tries[p].Looked? && sys.tries[p].id in sys.db.jobs
    case Annotate(p, c) => p in sys.tries
    case Decide(p, how, task, lost) =>
      && p in sys.tries && sys.tries[p].Ready? && how.view == sys.tries[p].view && task !in sys.db.tasks
      && Placement.UniqueNames(how.fleet')
      && Placement.Attempts(how.policy, how.view, how.fleet, how.now, how.fleet', how.now', how.attempt)
    case Execute(p, id, m) => (p, id) in sys.execs && MoveEnabled(sys.db, sys.eng, id, sys.execs[(p, id)], m)
    case Crash(p) => true
    case Resume(p, task) => task in sys.db.tasks
  }

  function Wrote(db: Db, w: Option<Tables.Step>): Db {
    if w.Some? then Tables.Apply(db, w.value) else db
  }

  ghost function Called(eng: Aer.Engine, c: Option<Aer.Step>): Aer.Engine
    requires c.Some? ==> Aer.Enabled(eng, c.value)
  {
    if c.Some? then Aer.Apply(eng, c.value) else eng
  }

  /** sessionAffinity; a session that cannot be read is treated as missing. */
  function Affinity(db: Db, id: JobId, now: real, unread: bool): Option<Fleet.JobView>
    requires id in db.jobs
  {
    var view := db.jobs[id].doc.view;
    if view.sessionJoin.None? then Some(view)
    else
      var sid := view.sessionJoin.value;
      if unread || sid !in db.sessions then None
      else if db.sessions[sid].tenant != db.jobs[id].tenant || !SessionLive(db.sessions[sid], now) then None
      else Some(view.(requireTargets := [db.sessions[sid].target]))
  }

  const SESSION_LOST := Fail(Condition("SessionLost", "True", "SessionUnavailable", ""), "SESSION_LOST")

  /** The write of a dispatch attempt. */
  function DecisionWrite(id: JobId, how: Placing, task: TaskId): Option<Tables.Step> {
    match how.attempt
    case BindTo(target, _) => Some(BindStep(id, task, target))
    case FailUnsatisfiable =>
      var cond := Condition("UnsatisfiableBeforeDeadline", "True", "OnConflictReject", "");
      Some(TransitionStep(id, Phases.Failed, Fail(cond, "CAPABILITY_MISMATCH")))
    case StayPending => None
  }

  /** The write of any step. */
  function WriteOf(sys: System, s: Step): Option<Tables.Step>
    requires Enabled(sys, s)
  {
    match s
    case SubmitJob(id, tenant, doc, conditions) => Some(InsertStep(id, tenant, doc, conditions))
    case CancelJob(id) =>
      Some(TransitionStep(id, Phases.Cancelled, AddCondition(Condition("Cancelled", "True", "UserRequested", ""))))
    case ExpireSession(sid) => Some(CloseSessionStep(sid))
    case Pin(p, now, unread, lost) =>
      if !lost && Affinity(sys.db, sys.tries[p].id, now, unread).None? then
        Some(TransitionStep(sys.tries[p].id, Phases.Failed, SESSION_LOST))
      else None
    case Annotate(p, c) => Some(ConditionStep(sys.tries[p].id, c))
    case Decide(p, how, task, lost) => if lost then None else DecisionWrite(sys.tries[p].id, how, task)
    case Execute(p, id, m) => EffectOf(sys.db, sys.eng, id, sys.execs[(p, id)], m).write
    case _ => None
  }

  function CallOf(sys: System, s: Step): Option<Aer.Step>
    requires Enabled(sys, s)
  {
    match s
    case Adapter(a) => Some(a)
    case Execute(p, id, m) => EffectOf(sys.db, sys.eng, id, sys.execs[(p, id)], m).call
    case _ => None
  }

  /** startExecutor: one executor per job and process. */
  function Started(execs: map<(Proc, JobId), Exec>, p: Proc, id: JobId, task: TaskId,
                   target: string): map<(Proc, JobId), Exec> {
    if (p, id) in execs then execs else execs[(p, id) := Exec(task, target, Start)]
  }

  predicate Binds(sys: System, s: Step) {
    && s.Decide? && !s.lost && s.p in sys.tries && s.how.attempt.BindTo?
    && Bind(sys.db, sys.tries[s.p].id, s.task, s.how.attempt.target).Ok?
  }

  function ExecsAfter(sys: System, s: Step): map<(Proc, JobId), Exec>
    requires Enabled(sys, s)
  {
    match s
    case Decide(p, how, task, _) =>
      if Binds(sys, s) then Started(sys.execs, p, sys.tries[p].id, task, how.attempt.target) else sys.execs
    case Execute(p, id, m) =>
      var x := sys.execs[(p, id)];
      var next := EffectOf(sys.db, sys.eng, id, x, m).next;
      if next.Some? then sys.execs[(p, id) := x.(pc := next.value)] else sys.execs - {(p, id)}
    case Crash(p) => map k | k in sys.execs && k.0 != p :: sys.execs[k]
    case Resume(p, task) => Started(sys.execs, p, sys.db.tasks[task].jobId, task, sys.db.tasks[task].target)
    case _ => sys.execs
  }

  function TriesAfter(sys: System, s: Step): map<Proc, Try>
    requires Enabled(sys, s)
  {
    match s
    case Look(p, id) => sys.tries[p := Looked(id)]
    case Pin(p, now, unread, _) =>
      var view := Affinity(sys.db, sys.tries[p].id, now, unread);
      if view.Some? then sys.tries[p := Ready(sys.tries[p].id, view.value)] else sys.tries - {p}
    case Decide(p, _, _, _) => sys.tries - {p}
    case Crash(p) => sys.tries - {p}
    case _ => sys.tries
  }

  function SubmissionOf(sys: System, s: Step): seq<Submission> {
    if s.Execute? && s.m.SubmitTask? && (s.p, s.id) in sys.execs && sys.execs[(s.p, s.id)].pc.Submitting? then
      var x := sys.execs[(s.p, s.id)];
      [Submission(s.id, x.task, x.target, x.pc.session)]
    else []
  }

  function UnbilledOf(sys: System, s: Step): set<TaskId> {
    if s.Execute? && s.m.Record? && s.m.lost && (s.p, s.id) in sys.execs then {sys.execs[(s.p, s.id)].task} else {}
  }

  /** Every call a step makes is one the engine accepts. */
  lemma CallsAreEnabled(sys: System, s: Step)
    requires Enabled(sys, s)
    ensures CallOf(sys, s).Some? ==> Aer.Enabled(sys.eng, CallOf(sys, s).value)
  {
  }

  ghost function Apply(sys: System, s: Step): System
    requires Enabled(sys, s)
  {
    CallsAreEnabled(sys, s);
    System(Wrote(sys.db, WriteOf(sys, s)), Called(sys.eng, CallOf(sys, s)), ExecsAfter(sys, s), TriesAfter(sys, s),
           sys.submissions + SubmissionOf(sys, s),
           if Binds(sys, s) then sys.placed[s.task := s.how] else sys.placed,
           sys.unbilled + UnbilledOf(sys, s))
  }

  ghost predicate Init(sys: System) {
    && sys.db == Audit.EMPTY && Aer.Init(sys.eng) && sys.execs == map[] && sys.tries == map[]
    && sys.submissions == [] && sys.placed == map[] && sys.unbilled == {}
  }

  ghost predicate StepTo(sys: System, s: Step, sys': System) {
    Enabled(sys, s) && sys' == Apply(sys, s)
  }

  ghost predicate Next(sys: System, sys': System) {
    exists s :: StepTo(sys, s, sys')
  }

  ghost predicate Linked(run: seq<System>, i: nat)
    requires i + 1 < |run|
  {
    Next(run[i], run[i + 1])
  }

  ghost predicate IsRun(run: seq<System>) {
    run != [] && Init(run[0]) && forall i: nat :: i + 1 < |run| ==> Linked(run, i)
  }
}
