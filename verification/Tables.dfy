/**
 The Postgres tables and the store's transactions over them (internal/store/jobs.go, tasks.go, sessions.go).
 Row locks make each transaction atomic, so each is a function from tables to tables.
 */
module Tables {
  import opened Common
  import opened Phases
  import Fleet

  type JobId = Uuid
  type TaskId = Uuid
  type SessionId = string

  datatype Condition = Condition(kind: string, status: string, reason: string, message: string)

  datatype Status = Status(phase: Phase, conditions: seq<Condition>, usage: map<string, real>,
                           boundTarget: Option<string>, error: Option<string>, sessionId: Option<SessionId>)

  /** The parts of a job document the control plane reads: its scheduling view and its gate-model shots. */
  datatype Doc = Doc(view: Fleet.JobView, gateShots: Option<real>)

  datatype JobRow = JobRow(tenant: string, phase: Phase, doc: Doc, status: Status)

  datatype TaskRow = TaskRow(jobId: JobId, target: string, adapterTaskId: Option<Uuid>, state: string)

  datatype Event = Event(jobId: JobId, phase: Phase, status: Status)

  datatype LedgerRow = LedgerRow(jobId: JobId, taskId: TaskId, tenant: string, target: string, unit: string,
                                 amount: real)

  datatype SessionRow = SessionRow(tenant: string, target: string, adapterSessionId: string, expiresAt: Option<real>,
                                   closed: bool)

  /** `order` lists the jobs by creation; `events` and `ledger` are in append order. */
  datatype Db = Db(jobs: map<JobId, JobRow>, order: seq<JobId>, tasks: map<TaskId, TaskRow>, events: seq<Event>,
                   ledger: seq<LedgerRow>, sessions: map<SessionId, SessionRow>)

  datatype DbError = NotFound | NotPending(phase: Phase) | DuplicateKey | IllegalTransition(why: Illegal)

  // ---- events ----

  function ChainOf(events: seq<Event>, id: JobId): seq<Phase> {
    if events == [] then []
    else
      var rest, last := events[..|events| - 1], events[|events| - 1];
      if last.jobId == id then ChainOf(rest, id) + [last.phase] else ChainOf(rest, id)
  }

  lemma ChainAppend(events: seq<Event>, e: Event, id: JobId)
    ensures ChainOf(events + [e], id) == if e.jobId == id then ChainOf(events, id) + [e.phase] else ChainOf(events, id)
  {
    assert (events + [e])[..|events|] == events;
  }

  /** Rewrites a job row and appends the matching event. */
  function WriteJob(db: Db, id: JobId, row: JobRow): Db {
    db.(jobs := db.jobs[id := row], events := db.events + [Event(id, row.phase, row.status)])
  }

  // ---- transactions ----

  /** insertJobTx: a PENDING row and its first event. */
  function Insert(db: Db, id: JobId, tenant: string, doc: Doc, conditions: seq<Condition>): Result<Db, DbError> {
    if id in db.jobs then Err(DuplicateKey)
    else
      var status := Status(Pending, conditions, map[], None, None, None);
      Ok(WriteJob(db, id, JobRow(tenant, Pending, doc, status)).(order := db.order + [id]))
  }

  /** BindJob: PENDING to SCHEDULED with the task row, or nothing. */
  function Bind(db: Db, id: JobId, taskId: TaskId, target: string): Result<Db, DbError> {
    if id !in db.jobs then Err(NotFound)
    else if db.jobs[id].phase != Pending then Err(NotPending(db.jobs[id].phase))
    else if taskId in db.tasks then Err(DuplicateKey)
    else
      var row := db.jobs[id];
      var status := row.status.(phase := Scheduled, boundTarget := Some(target));
      Ok(WriteJob(db, id, row.(phase := Scheduled, status := status))
           .(tasks := db.tasks[taskId := TaskRow(id, target, None, "QUEUED")]))
  }

  /** The status rewrites that the callers of TransitionJob pass. */
  datatype Mutation = Keep | AddCondition(cond: Condition) | Fail(cond: Condition,
                                                                  category: string) | SetUsage(usage: map<string, real>)

  function Mutate(m: Mutation, s: Status): Status {
    match m
    case Keep => s
    case AddCondition(c) => s.(conditions := s.conditions + [c])
    case Fail(c, category) => s.(conditions := s.conditions + [c], error := Some(category))
    case SetUsage(u) => s.(usage := u)
  }

  /** TransitionJob: the lifecycle check inside the row lock. */
  function TransitionJob(db: Db, id: JobId, to: Phase, m: Mutation): Result<Db, DbError> {
    if id !in db.jobs then Err(NotFound)
    else if Transition(db.jobs[id].phase, to).Some? then Err(IllegalTransition(Transition(db.jobs[id].phase, to).value))
    else
      var row := db.jobs[id];
      Ok(WriteJob(db, id, row.(phase := to, status := Mutate(m, row.status).(phase := to))))
  }

  /** Position of the first condition of a kind, or the length. */
  function FirstOfKind(cs: seq<Condition>, kind: string): (i: nat)
    ensures i <= |cs| && (i < |cs| ==> cs[i].kind == kind) && forall k :: 0 <= k < i ==> cs[k].kind != kind
  {
    if cs == [] then 0 else if cs[0].kind == kind then 0 else 1 + FirstOfKind(cs[1..], kind)
  }

  predicate ConditionUnchanged(cs: seq<Condition>, c: Condition) {
    var i := FirstOfKind(cs, c.kind);
    i < |cs| && cs[i].status == c.status && cs[i].message == c.message
  }

  function ReplaceCondition(cs: seq<Condition>, c: Condition): seq<Condition> {
    var i := FirstOfKind(cs, c.kind);
    if i < |cs| then cs[i := c] else cs + [c]
  }

  /** SetJobCondition: no phase check; an event only when the condition changed. */
  function SetCondition(db: Db, id: JobId, c: Condition): Result<Db, DbError> {
    if id !in db.jobs then Err(NotFound)
    else
      var row := db.jobs[id];
      if ConditionUnchanged(row.status.conditions, c) then Ok(db)
      else Ok(WriteJob(db, id, row.(status := row.status.(conditions := ReplaceCondition(row.status.conditions, c)))))
  }

  /**
   After SetJobCondition the job's first condition of that kind says what was asked, and every other condition stands
   where it stood; phase, tenant, document and the rest of the status are as before.
   */
  lemma ConditionIsSet(db: Db, id: JobId, c: Condition)
    requires id in db.jobs
    ensures SetCondition(db, id, c).Ok?
    ensures var row, row' := db.jobs[id], SetCondition(db, id, c).value.jobs[id];
            var cs, cs', i := row.status.conditions, row'.status.conditions, FirstOfKind(row.status.conditions, c.kind);
            && row' == row.(status := row.status.(conditions := cs'))
            && i < |cs'| && cs'[i].kind == c.kind && cs'[i].status == c.status && cs'[i].message == c.message
            && |cs'| == (if i < |cs| then |cs| else |cs| + 1)
            && forall k :: 0 <= k < |cs| && k != i ==> cs'[k] == cs[k]
  {
  }

  lemma SameKindFound(cs: seq<Condition>, cs': seq<Condition>, kind: string, i: nat)
    requires i < |cs'| && cs'[i].kind == kind && i == FirstOfKind(cs, kind) <= |cs|
    requires forall k :: 0 <= k < i ==> cs'[k] == cs[k]
    ensures FirstOfKind(cs', kind) == i
  {
  }

  /** Setting the same condition again changes nothing and writes no event. */
  lemma ConditionSetTwice(db: Db, id: JobId, c: Condition)
    requires id in db.jobs
    ensures var db' := SetCondition(db, id, c).value;
            id in db'.jobs && SetCondition(db', id, c) == Ok(db')
  {
    ConditionIsSet(db, id, c);
    var db' := SetCondition(db, id, c).value;
    SameKindFound(db.jobs[id].status.conditions, db'.jobs[id].status.conditions, c.kind,
                  FirstOfKind(db.jobs[id].status.conditions, c.kind));
  }

  /** UpdateTask: an empty adapter id keeps the stored one; the state is overwritten without any check. */
  function UpdateTask(db: Db, taskId: TaskId, adapterTaskId: Option<Uuid>, state: string): Result<Db, DbError> {
    if taskId !in db.tasks then Err(NotFound)
    else
      var row := db.tasks[taskId];
      var known := if adapterTaskId.Some? then adapterTaskId else row.adapterTaskId;
      Ok(db.(tasks := db.tasks[taskId := row.(adapterTaskId := known, state := state)]))
  }

  predicate IsRecorded(ledger: seq<LedgerRow>, taskId: TaskId, unit: string) {
    exists i :: 0 <= i < |ledger| && ledger[i].taskId == taskId && ledger[i].unit == unit
  }

  /** One INSERT ... ON CONFLICT (task_id, unit) DO NOTHING. */
  function RecordRow(db: Db, row: LedgerRow): Db {
    if IsRecorded(db.ledger, row.taskId, row.unit) then db else db.(ledger := db.ledger + [row])
  }

  function InsertSession(db: Db, sid: SessionId, row: SessionRow): Result<Db, DbError> {
    if sid in db.sessions then Err(DuplicateKey) else Ok(db.(sessions := db.sessions[sid := row]))
  }

  function CloseSession(db: Db, sid: SessionId): Db {
    if sid in db.sessions then db.(sessions := db.sessions[sid := db.sessions[sid].(closed := true)]) else db
  }

  /** stampSessionID: rewrites one status field, without an event. */
  function StampSession(db: Db, id: JobId, sid: SessionId): Db {
    if id !in db.jobs then db
    else db.(jobs := db.jobs[id := db.jobs[id].(status := db.jobs[id].status.(sessionId := Some(sid)))])
  }

  /** A new job is PENDING with the given conditions, last in order, and its first event says so. */
  lemma InsertedJob(db: Db, id: JobId, tenant: string, doc: Doc, conditions: seq<Condition>)
    ensures Insert(db, id, tenant, doc, conditions).Ok? <==> id !in db.jobs
    ensures id !in db.jobs ==>
              var db' := Insert(db, id, tenant, doc, conditions).value;
              && id in db'.jobs && db'.jobs[id].tenant == tenant && db'.jobs[id].doc == doc
              && db'.jobs[id].phase == Pending && db'.jobs[id].status.conditions == conditions
              && db'.order == db.order + [id] && db'.events == db.events + [Event(id, Pending, db'.jobs[id].status)]
              && (forall k :: k in db.jobs ==> k in db'.jobs && db'.jobs[k] == db.jobs[k])
  {
  }

  /** A task row takes the new state, and the new adapter id if there is one; everything else stands. */
  lemma UpdatedTask(db: Db, taskId: TaskId, adapterTaskId: Option<Uuid>, state: string)
    requires taskId in db.tasks
    ensures var r := UpdateTask(db, taskId, adapterTaskId, state);
            && r.Ok? && r.value.tasks.Keys == db.tasks.Keys
            && r.value.tasks[taskId].state == state && r.value.tasks[taskId].jobId == db.tasks[taskId].jobId
            && r.value.tasks[taskId].target == db.tasks[taskId].target
            && (adapterTaskId.Some? ==> r.value.tasks[taskId].adapterTaskId == adapterTaskId)
            && (adapterTaskId.None? ==> r.value.tasks[taskId].adapterTaskId == db.tasks[taskId].adapterTaskId)
            && (forall t :: t in db.tasks && t != taskId ==> r.value.tasks[t] == db.tasks[t])
            && r.value.jobs == db.jobs && r.value.events == db.events && r.value.ledger == db.ledger
  {
  }

  /** A session is stored once, closing it touches that row alone, stamping it touches one field of one status. */
  lemma SessionWrites(db: Db, sid: SessionId, row: SessionRow, id: JobId)
    ensures InsertSession(db, sid, row).Ok? <==> sid !in db.sessions
    ensures sid !in db.sessions ==> InsertSession(db, sid, row).value == db.(sessions := db.sessions[sid := row])
    ensures sid in db.sessions ==>
              && CloseSession(db, sid).sessions.Keys == db.sessions.Keys && CloseSession(db, sid).sessions[sid].closed
              && forall s :: s in db.sessions && s != sid ==> CloseSession(db, sid).sessions[s] == db.sessions[s]
    ensures CloseSession(db, sid).jobs == db.jobs && CloseSession(db, sid).tasks == db.tasks
    ensures id in db.jobs ==>
              && id in StampSession(db, id, sid).jobs
              && StampSession(db, id, sid).jobs[id].status == db.jobs[id].status.(sessionId := Some(sid))
              && StampSession(db, id, sid).jobs[id].phase == db.jobs[id].phase
              && StampSession(db, id, sid).events == db.events
  {
  }

  // ---- the step relation ----

  /** Every write the control plane issues. No caller of TransitionJob asks for PENDING. */
  datatype Step =
    | InsertStep(id: JobId, tenant: string, doc: Doc, conditions: seq<Condition>)
    | BindStep(id: JobId, task: TaskId, target: string)
    | TransitionStep(id: JobId, to: Phase, m: Mutation)
    | ConditionStep(id: JobId, c: Condition)
    | UpdateTaskStep(task: TaskId, adapterTaskId: Option<Uuid>, state: string)
    | RecordStep(row: LedgerRow)
    | InsertSessionStep(sid: SessionId, srow: SessionRow)
    | CloseSessionStep(sid: SessionId)
    | StampStep(id: JobId, sid: SessionId)

  predicate Allowed(s: Step) {
    s.TransitionStep? ==> s.to != Pending
  }

  function OrElse(r: Result<Db, DbError>, db: Db): Db {
    if r.Ok? then r.value else db
  }

  /** A failing transaction leaves the tables as they were. */
  function Apply(db: Db, s: Step): Db {
    match s
    case InsertStep(id, tenant, doc, conditions) => OrElse(Insert(db, id, tenant, doc, conditions), db)
    case BindStep(id, task, target) => OrElse(Bind(db, id, task, target), db)
    case TransitionStep(id, to, m) => OrElse(TransitionJob(db, id, to, m), db)
    case ConditionStep(id, c) => OrElse(SetCondition(db, id, c), db)
    case UpdateTaskStep(task, adapterTaskId, state) => OrElse(UpdateTask(db, task, adapterTaskId, state), db)
    case RecordStep(row) => RecordRow(db, row)
    case InsertSessionStep(sid, srow) => OrElse(InsertSession(db, sid, srow), db)
    case CloseSessionStep(sid) => CloseSession(db, sid)
    case StampStep(id, sid) => StampSession(db, id, sid)
  }
}
