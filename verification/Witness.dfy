/**
 Runs of the whole control plane that show which promises fail: usage that arrives after a cancel overdraws a quota,
 a lost ledger write leaves a successful job that the ledger does not cover, and a lost answer leaves a failed job whose
 task runs on.
 */
module Witness {
  import opened Common
  import opened Tables
  import opened Protocol
  import Phases
  import Fleet
  import Scheduling
  import Placement
  import Guarantees
  import Audit
  import Ledger
  import Quota
  import Deployment
  import Orphans
  import Aer = AerEngine

  // ---- one job, one target ----

  /** A tenant with a document, the only device of the fleet and what the adapter knows of it. */
  datatype Scene = Scene(tenant: string, doc: Doc, device: Fleet.TargetView, cfg: Aer.TargetConfig,
                         payload: Aer.Payload)

  /** A gate-model job that joins no session, on a device the adapter accepts it for. */
  ghost predicate SceneOk(g: Scene) {
    && Deployment.GateModel(g.doc) && g.doc.view.shots > 0 && g.doc.view.sessionJoin.None?
    && g.payload.shots == g.doc.view.shots && Aer.AdmissionError(g.cfg, g.payload).None?
    && Placeable(g)
  }

  ghost predicate Placeable(g: Scene) {
    g.device.waitSeconds >= 0.0 && Scheduling.Feasible(Scheduling.Fifo, g.doc.view, g.device, 0.0)
  }

  function Limit(g: Scene): real {
    g.doc.view.shots as real
  }

  function LimitsOf(g: Scene): map<(string, string), real> {
    map[(g.tenant, "shots") := Limit(g)]
  }

  function UsageOf(g: Scene): map<string, real> {
    map["shots" := g.doc.view.shots as real, "tasks" := 1.0]
  }

  function How(g: Scene): Placing {
    Placing(Scheduling.Fifo, g.doc.view, [g.device], 0.0, [g.device], 0.0, Placement.BindTo(g.device.name, []))
  }

  function TakenTask(g: Scene): Aer.Task {
    Aer.Task(g.device.name, 0, g.doc.view.shots, Aer.Running, None, None, [], 0.0, false)
  }

  function IdleEngine(g: Scene): Aer.Engine {
    Aer.Engine(map[g.device.name := g.cfg], map[], map[], map[g.device.name := []], map[g.device.name := Aer.Idle], [])
  }

  function Initial(g: Scene): System {
    System(Audit.EMPTY, IdleEngine(g), map[], map[], [], map[], {})
  }

  /** The scheduler places the job on the device. */
  lemma DeviceIsChosen(g: Scene)
    requires Placeable(g)
    ensures var how := How(g);
            && Placement.Attempts(how.policy, how.view, how.fleet, how.now, how.fleet', how.now', how.attempt)
            && Placement.UniqueNames(how.fleet')
  {
    Placement.SoleTargetIsChosen(g.doc.view, g.device, 0.0);
  }

  /** Such scenes exist. */
  lemma SceneExists() returns (g: Scene)
    ensures SceneOk(g)
  {
    var view := Fleet.JobView("gate-model", "openqasm3", 10, 0, [], 0.0, 0.0, 0.0, "", "", None, [], None, [], [], [],
                              None);
    var device := Fleet.TargetView("site/aer", "gate-model", "simulator", 5, ["openqasm3"], 1000, ["shots"], true,
                                   false, "", None, [], 0.0, [], 0.0);
    g := Scene("acme", Doc(view, Some(10.0)), device, Aer.TargetConfig(["openqasm3"], 1000),
               Aer.Payload("openqasm3", 0, 10));
    assert Scheduling.HardCapability(view, device, 0.0) == None;
    assert Scheduling.QualityFloors(view, device, 0.0) == None;
    assert Scheduling.Selectors(view, device) == None;
  }

  // ---- working on a job ----

  /** A step of the protocol that neither submits a job nor records usage. */
  ghost predicate Works(sys: System, sys': System) {
    exists s :: StepTo(sys, s, sys') && !s.SubmitJob? && !(s.Execute? && s.m.Record?)
  }

  /** A property of states that such steps keep, such as being reachable. */
  ghost predicate Closed(r: System -> bool) {
    forall a, b :: r(a) && Works(a, b) ==> r(b)
  }

  lemma Go(r: System -> bool, a: System, s: Protocol.Step, b: System)
    requires Closed(r) && r(a) && StepTo(a, s, b) && !s.SubmitJob? && !(s.Execute? && s.m.Record?)
    ensures r(b)
  {
    assert Works(a, b);
  }

  // ---- from a pending job to an executor that is recording ----

  /** Process 0 executes job id: the tables, the engine and its program counter have moved on from sys. */
  function At(g: Scene, sys: System, id: JobId, task: TaskId, db: Db, eng: Aer.Engine, pc: Pc): System {
    sys.(db := db, eng := eng, execs := sys.execs[(0, id) := Exec(task, g.device.name, pc)])
  }

  /** A quiet move of the executor. */
  lemma QuietStep(g: Scene, sys: System, id: JobId, task: TaskId, db: Db, eng: Aer.Engine, pc: Pc, m: Move, next: Pc)
    requires MoveEnabled(db, eng, id, Exec(task, g.device.name, pc), m) && !m.Record? && !m.SubmitTask?
    requires EffectOf(db, eng, id, Exec(task, g.device.name, pc), m) == Effect(None, None, Some(next))
    ensures StepTo(At(g, sys, id, task, db, eng, pc), Execute(0, id, m), At(g, sys, id, task, db, eng, next))
  {
  }

  lemma QuietMove(g: Scene, r: System -> bool, sys: System, id: JobId, task: TaskId, db: Db, eng: Aer.Engine, pc: Pc,
                  m: Move, next: Pc)
    requires Closed(r)
    requires MoveEnabled(db, eng, id, Exec(task, g.device.name, pc), m) && !m.Record? && !m.SubmitTask?
    requires EffectOf(db, eng, id, Exec(task, g.device.name, pc), m) == Effect(None, None, Some(next))
    requires r(At(g, sys, id, task, db, eng, pc))
    ensures r(At(g, sys, id, task, db, eng, next))
  {
    QuietStep(g, sys, id, task, db, eng, pc, m, next);
    Go(r, At(g, sys, id, task, db, eng, pc), Execute(0, id, m), At(g, sys, id, task, db, eng, next));
  }

  /** The executor's own write, which arrives. */
  lemma OwnStep(g: Scene, sys: System, id: JobId, task: TaskId, db: Db, eng: Aer.Engine, pc: Pc, w: Tables.Step,
                next: Pc)
    requires id in db.jobs && OwnWrite(db, id, Exec(task, g.device.name, pc)) == Some(w)
    requires AfterOwnWrite(db, id, Exec(task, g.device.name, pc), false) == Some(next)
    ensures StepTo(At(g, sys, id, task, db, eng, pc), Execute(0, id, Persist(false)),
                   At(g, sys, id, task, Tables.Apply(db, w), eng, next))
  {
    var a, b := At(g, sys, id, task, db, eng, pc), At(g, sys, id, task, Tables.Apply(db, w), eng, next);
    assert a.execs[(0, id) := Exec(task, g.device.name, next)] == b.execs;
    assert EffectOf(db, eng, id, a.execs[(0, id)], Persist(false)) == Effect(Some(w), None, Some(next));
  }

  lemma OwnMove(g: Scene, r: System -> bool, sys: System, id: JobId, task: TaskId, db: Db, eng: Aer.Engine, pc: Pc,
                w: Tables.Step, next: Pc)
    requires Closed(r)
    requires id in db.jobs && OwnWrite(db, id, Exec(task, g.device.name, pc)) == Some(w)
    requires AfterOwnWrite(db, id, Exec(task, g.device.name, pc), false) == Some(next)
    requires r(At(g, sys, id, task, db, eng, pc))
    ensures r(At(g, sys, id, task, Tables.Apply(db, w), eng, next))
  {
    OwnStep(g, sys, id, task, db, eng, pc, w, next);
    Go(r, At(g, sys, id, task, db, eng, pc), Execute(0, id, Persist(false)),
            At(g, sys, id, task, Tables.Apply(db, w), eng, next));
  }

  lemma EngineMove(g: Scene, r: System -> bool, sys: System, id: JobId, task: TaskId, db: Db, eng: Aer.Engine, pc: Pc,
                   c: Aer.Step)
    requires Closed(r)
    requires Aer.Enabled(eng, c) && !c.Submit?
    requires r(At(g, sys, id, task, db, eng, pc))
    ensures r(At(g, sys, id, task, db, Aer.Apply(eng, c), pc))
  {
    var a, b := At(g, sys, id, task, db, eng, pc), At(g, sys, id, task, db, Aer.Apply(eng, c), pc);
    assert Protocol.Apply(a, Adapter(c)) == b;
    Go(r, a, Adapter(c), b);
  }

  // ---- the engine's part ----

  /** The device is configured, idle and does not know the task. */
  ghost predicate Free(g: Scene, eng: Aer.Engine, task: TaskId, h: Handle) {
    && g.device.name in eng.cfg && eng.cfg[g.device.name] == g.cfg && g.device.name in eng.pools
    && g.device.name in eng.workers
    && eng.pools[g.device.name] == [] && eng.workers[g.device.name] == Aer.Idle && h !in eng.tasks
    && (g.device.name, task) !in eng.byKey
  }

  function Queued(g: Scene, eng: Aer.Engine, task: TaskId, h: Handle): Aer.Engine
    requires g.device.name in eng.cfg
  {
    Aer.AfterSubmit(eng, g.device.name, task, g.payload, None, h, 0.0)
  }

  const OUTCOME := Aer.Simulated(map[])

  /** The engine with the task taken from the queue: its state, the worker's and the simulations started. */
  function Taken(g: Scene, eng: Aer.Engine, task: TaskId, h: Handle, t: Aer.Task, w: Aer.Worker,
                 started: seq<Handle>): Aer.Engine {
    eng.(tasks := eng.tasks[h := t.(key := task)], byKey := eng.byKey[(g.device.name, task) := h],
         pools := eng.pools[g.device.name := []], workers := eng.workers[g.device.name := w], simulations := started)
  }

  /** After the worker has taken, simulated and concluded the task. */
  function Ran(g: Scene, eng: Aer.Engine, task: TaskId, h: Handle): Aer.Engine {
    var done := TakenTask(g).(state := Aer.Succeeded, result := Some(map[]), usage := Aer.Bill(g.doc.view.shots));
    Taken(g, eng, task, h, done, Aer.Idle, eng.simulations + [h])
  }

  lemma TaskBegins(g: Scene, eng: Aer.Engine, task: TaskId, h: Handle)
    requires Aer.AdmissionError(g.cfg, g.payload).None? && g.payload.shots == g.doc.view.shots
    requires Free(g, eng, task, h)
    ensures Aer.Enabled(Queued(g, eng, task, h), Aer.Begin(g.device.name, 0.0))
    ensures Aer.AfterBegin(Queued(g, eng, task, h), g.device.name, 0.0)
              == Taken(g, eng, task, h, TakenTask(g), Aer.Started(h), eng.simulations)
  {
    assert Queued(g, eng, task, h).pools[g.device.name] == [h];
  }

  lemma TaskSimulates(g: Scene, eng: Aer.Engine, task: TaskId, h: Handle)
    ensures var e := Taken(g, eng, task, h, TakenTask(g), Aer.Started(h), eng.simulations);
            && Aer.Enabled(e, Aer.Gate(g.device.name))
            && Aer.AfterGate(e, g.device.name)
               == Taken(g, eng, task, h, TakenTask(g), Aer.Simulating(h), eng.simulations + [h])
  {
  }

  lemma TaskEnds(g: Scene, eng: Aer.Engine, task: TaskId, h: Handle)
    ensures var e := Taken(g, eng, task, h, TakenTask(g), Aer.Simulating(h), eng.simulations + [h]);
            && Aer.Enabled(e, Aer.SimulationEnds(g.device.name, OUTCOME))
            && Aer.AfterOutcome(e, g.device.name, OUTCOME)
               == Taken(g, eng, task, h, TakenTask(g), Aer.Finishing(h, OUTCOME), eng.simulations + [h])
  {
  }

  lemma TaskFinishes(g: Scene, eng: Aer.Engine, task: TaskId, h: Handle)
    ensures var e := Taken(g, eng, task, h, TakenTask(g), Aer.Finishing(h, OUTCOME), eng.simulations + [h]);
            && Aer.Enabled(e, Aer.Finish(g.device.name, 0.0))
            && Aer.AfterFinish(e, g.device.name, 0.0) == Ran(g, eng, task, h)
  {
  }

  // ---- the tables' part ----

  function Enqueued(db: Db, task: TaskId, h: Handle): Db {
    Tables.Apply(db, UpdateTaskStep(task, Some(h), "QUEUED"))
  }

  /** The tables once a bound job's executor has stored the adapter's success. */
  function Stored(db: Db, id: JobId, task: TaskId, h: Handle): Db {
    Tables.Apply(Passed(Marked(db, id, task, h), id), UpdateTaskStep(task, Some(h), "SUCCEEDED"))
  }

  /** What that does to the tables: the job runs, nothing else about other jobs, billing or sessions changes. */
  ghost predicate OnlyMoved(db: Db, db': Db, id: JobId, phase: Phases.Phase) {
    && id in db.jobs && db'.jobs.Keys == db.jobs.Keys
    && (forall k :: k in db.jobs && k != id ==> db'.jobs[k] == db.jobs[k])
    && db'.jobs[id].phase == phase && db'.jobs[id].doc == db.jobs[id].doc && db'.jobs[id].tenant == db.jobs[id].tenant
    && db'.order == db.order && db'.ledger == db.ledger && db'.sessions == db.sessions
  }

  lemma StoredFacts(db: Db, id: JobId, task: TaskId, h: Handle)
    requires id in db.jobs && db.jobs[id].phase == Phases.Scheduled && task in db.tasks
    ensures OnlyMoved(db, Stored(db, id, task, h), id, Phases.Running)
    ensures Stored(db, id, task, h).tasks.Keys == db.tasks.Keys
  {
  }

  // ---- the whole path ----

  /** A pending job of the tenant, nothing of it started, the device free. */
  ghost predicate Startable(g: Scene, sys: System, id: JobId, task: TaskId, h: Handle) {
    && id in sys.db.jobs && sys.db.jobs[id].phase == Phases.Pending && sys.db.jobs[id].doc == g.doc
    && sys.db.jobs[id].tenant == g.tenant
    && task !in sys.db.tasks && 0 !in sys.tries && (0, id) !in sys.execs && Free(g, sys.eng, task, h)
  }

  /** After look, pin and bind. */
  function Bound(g: Scene, sys: System, id: JobId, task: TaskId): System {
    sys.(db := OrElse(Bind(sys.db, id, task, g.device.name), sys.db),
         execs := sys.execs[(0, id) := Exec(task, g.device.name, Start)],
         placed := sys.placed[task := How(g)])
  }

  lemma LookAt(sys: System, id: JobId)
    requires 0 !in sys.tries && id in sys.db.jobs
    ensures StepTo(sys, Look(0, id), sys.(tries := sys.tries[0 := Looked(id)]))
  {
  }

  lemma PinIt(g: Scene, sys: System, id: JobId)
    requires g.doc.view.sessionJoin.None?
    requires id in sys.db.jobs && sys.db.jobs[id].doc == g.doc
    ensures StepTo(sys.(tries := sys.tries[0 := Looked(id)]), Pin(0, 0.0, false, false),
                   sys.(tries := sys.tries[0 := Ready(id, g.doc.view)]))
  {
    var s1 := sys.(tries := sys.tries[0 := Looked(id)]);
    assert s1.tries[0 := Ready(id, g.doc.view)] == sys.tries[0 := Ready(id, g.doc.view)];
  }

  lemma BindIt(g: Scene, sys: System, id: JobId, task: TaskId)
    requires Enabled(sys.(tries := sys.tries[0 := Ready(id, g.doc.view)]), Decide(0, How(g), task, false))
    requires id in sys.db.jobs && sys.db.jobs[id].phase == Phases.Pending && task !in sys.db.tasks
    requires 0 !in sys.tries && (0, id) !in sys.execs
    ensures StepTo(sys.(tries := sys.tries[0 := Ready(id, g.doc.view)]), Decide(0, How(g), task, false),
                   Bound(g, sys, id, task))
  {
    assert sys.tries[0 := Ready(id, g.doc.view)] - {0} == sys.tries;
  }

  lemma DecideIsEnabled(g: Scene, sys: System, id: JobId, task: TaskId)
    requires Placeable(g) && task !in sys.db.tasks
    ensures Enabled(sys.(tries := sys.tries[0 := Ready(id, g.doc.view)]), Decide(0, How(g), task, false))
  {
    DeviceIsChosen(g);
  }

  lemma BindPath(g: Scene, r: System -> bool, sys: System, id: JobId, task: TaskId, h: Handle)
    requires SceneOk(g)
    requires Closed(r) && r(sys) && Startable(g, sys, id, task, h)
    ensures r(Bound(g, sys, id, task))
  {
    var s1, s2 := sys.(tries := sys.tries[0 := Looked(id)]), sys.(tries := sys.tries[0 := Ready(id, g.doc.view)]);
    LookAt(sys, id);
    Go(r, sys, Look(0, id), s1);
    PinIt(g, sys, id);
    Go(r, s1, Pin(0, 0.0, false, false), s2);
    DecideIsEnabled(g, sys, id, task);
    BindIt(g, sys, id, task);
    Go(r, s2, Decide(0, How(g), task, false), Bound(g, sys, id, task));
  }

  /** The bound job with its task sent to the adapter. */
  function Sent(g: Scene, sys: System, id: JobId, task: TaskId): System {
    Bound(g, sys, id, task).(submissions := sys.submissions + [Submission(id, task, g.device.name, None)])
  }

  lemma SubmitIt(g: Scene, sys: System, id: JobId, task: TaskId, db: Db, h: Handle)
    requires g.payload.shots == g.doc.view.shots
    requires id in db.jobs && db.jobs[id].doc == g.doc && Free(g, sys.eng, task, h)
    ensures StepTo(At(g, sys, id, task, db, sys.eng, Submitting(None)),
                   Execute(0, id, SubmitTask(h, g.payload, None, 0.0, false)),
                   At(g, sys.(submissions := sys.submissions + [Submission(id, task, g.device.name, None)]),
                      id, task, db, Queued(g, sys.eng, task, h), Queueing(h)))
  {
  }

  lemma SendPath(g: Scene, r: System -> bool, sys: System, id: JobId, task: TaskId, h: Handle)
    requires SceneOk(g)
    requires Closed(r) && r(sys) && Startable(g, sys, id, task, h)
    ensures r(At(g, Sent(g, sys, id, task), id, task, Bound(g, sys, id, task).db, Queued(g, sys.eng, task, h),
                 Queueing(h)))
  {
    var b := Bound(g, sys, id, task);
    BindPath(g, r, sys, id, task, h);
    assert b.execs[(0, id) := Exec(task, g.device.name, Start)] == b.execs;
    assert At(g, b, id, task, b.db, b.eng, Start) == b;
    QuietMove(g, r, b, id, task, b.db, b.eng, Start, ResolveSession(0.0), Submitting(None));
    SubmitIt(g, b, id, task, b.db, h);
    Go(r, At(g, b, id, task, b.db, b.eng, Submitting(None)), Execute(0, id, SubmitTask(h, g.payload, None, 0.0, false)),
       At(g, Sent(g, sys, id, task), id, task, b.db, Queued(g, sys.eng, task, h), Queueing(h)));
  }

  lemma EnginePath(g: Scene, r: System -> bool, sys: System, id: JobId, task: TaskId, db: Db, eng: Aer.Engine,
                   h: Handle, pc: Pc)
    requires SceneOk(g)
    requires Closed(r)
    requires Free(g, eng, task, h) && r(At(g, sys, id, task, db, Queued(g, eng, task, h), pc))
    ensures r(At(g, sys, id, task, db, Ran(g, eng, task, h), pc))
  {
    TaskBegins(g, eng, task, h);
    EngineMove(g, r, sys, id, task, db, Queued(g, eng, task, h), pc, Aer.Begin(g.device.name, 0.0));
    TaskSimulates(g, eng, task, h);
    EngineMove(g, r, sys, id, task, db, Taken(g, eng, task, h, TakenTask(g), Aer.Started(h), eng.simulations), pc,
               Aer.Gate(g.device.name));
    TaskEnds(g, eng, task, h);
    EngineMove(g, r, sys, id, task, db,
               Taken(g, eng, task, h, TakenTask(g), Aer.Simulating(h), eng.simulations + [h]), pc,
               Aer.SimulationEnds(g.device.name, OUTCOME));
    TaskFinishes(g, eng, task, h);
    EngineMove(g, r, sys, id, task, db,
               Taken(g, eng, task, h, TakenTask(g), Aer.Finishing(h, OUTCOME), eng.simulations + [h]), pc,
               Aer.Finish(g.device.name, 0.0));
  }

  function Marked(db: Db, id: JobId, task: TaskId, h: Handle): Db {
    Tables.Apply(Enqueued(db, task, h), TransitionStep(id, Phases.Submitted, Keep))
  }

  lemma MarkPath(g: Scene, r: System -> bool, sys: System, id: JobId, task: TaskId, db: Db, eng: Aer.Engine, h: Handle)
    requires Closed(r)
    requires id in db.jobs && db.jobs[id].phase == Phases.Scheduled && task in db.tasks
    requires r(At(g, sys, id, task, db, eng, Queueing(h)))
    ensures r(At(g, sys, id, task, Marked(db, id, task, h), eng, Following(h, false)))
  {
    OwnMove(g, r, sys, id, task, db, eng, Queueing(h), UpdateTaskStep(task, Some(h), "QUEUED"), Marking(h));
    OwnMove(g, r, sys, id, task, Enqueued(db, task, h), eng, Marking(h), TransitionStep(id, Phases.Submitted, Keep),
            Following(h, false));
  }

  /** Told of the success. */
  lemma ToldPath(g: Scene, r: System -> bool, sys: System, id: JobId, task: TaskId, db: Db, eng: Aer.Engine, h: Handle)
    requires Closed(r)
    requires id in db.jobs
    requires h in eng.tasks && eng.tasks[h].state == Aer.Succeeded && eng.tasks[h].usage == Aer.Bill(g.doc.view.shots)
    requires r(At(g, sys, id, task, db, eng, Following(h, false)))
    ensures r(At(g, sys, id, task, db, eng, Passing(h, UsageOf(g))))
  {
    Billing(g);
    QuietMove(g, r, sys, id, task, db, eng, Following(h, false), Receive(eng.tasks[h]), Passing(h, UsageOf(g)));
  }

  /** Passed through RUNNING, stored. */
  lemma SuccessPath(g: Scene, r: System -> bool, sys: System, id: JobId, task: TaskId, db: Db, eng: Aer.Engine,
                    h: Handle, usage: map<string, real>)
    requires Closed(r)
    requires id in db.jobs && r(At(g, sys, id, task, db, eng, Passing(h, usage)))
    ensures r(At(g, sys, id, task, Tables.Apply(Passed(db, id), UpdateTaskStep(task, Some(h), "SUCCEEDED")), eng,
                 Recording(h, usage, usage.Keys)))
  {
    OwnMove(g, r, sys, id, task, db, eng, Passing(h, usage), TransitionStep(id, Phases.Running, Keep),
            Storing(h, usage));
    StorePath(g, r, sys, id, task, Passed(db, id), eng, h, usage);
  }

  function Passed(db: Db, id: JobId): Db {
    Tables.Apply(db, TransitionStep(id, Phases.Running, Keep))
  }

  lemma StorePath(g: Scene, r: System -> bool, sys: System, id: JobId, task: TaskId, db: Db, eng: Aer.Engine,
                  h: Handle, usage: map<string, real>)
    requires Closed(r)
    requires id in db.jobs && r(At(g, sys, id, task, db, eng, Storing(h, usage)))
    ensures r(At(g, sys, id, task, Tables.Apply(db, UpdateTaskStep(task, Some(h), "SUCCEEDED")), eng,
                 Recording(h, usage, usage.Keys)))
  {
    OwnMove(g, r, sys, id, task, db, eng, Storing(h, usage), UpdateTaskStep(task, Some(h), "SUCCEEDED"),
            Recording(h, usage, usage.Keys));
  }

  lemma Billing(g: Scene)
    ensures UsageMap(Aer.Bill(g.doc.view.shots)) == UsageOf(g)
  {
    Guarantees.BillUnits(g.doc.view.shots);
  }

  /** Where the path ends: the adapter has succeeded, the job runs, and its usage is about to be recorded. */
  function Recorder(g: Scene, sys: System, id: JobId, task: TaskId, h: Handle): System {
    At(g, Sent(g, sys, id, task), id, task, Stored(Bound(g, sys, id, task).db, id, task, h), Ran(g, sys.eng, task, h),
       Recording(h, UsageOf(g), UsageOf(g).Keys))
  }

  lemma WorkPath(g: Scene, r: System -> bool, sys: System, id: JobId, task: TaskId, h: Handle)
    requires SceneOk(g)
    requires Closed(r) && r(sys) && Startable(g, sys, id, task, h)
    ensures r(Recorder(g, sys, id, task, h))
  {
    var b, sent, ran := Bound(g, sys, id, task).db, Sent(g, sys, id, task), Ran(g, sys.eng, task, h);
    BoundFacts(g, sys, id, task, h);
    SendPath(g, r, sys, id, task, h);
    EnginePath(g, r, sent, id, task, b, sys.eng, h, Queueing(h));
    MarkPath(g, r, sent, id, task, b, ran, h);
    ToldPath(g, r, sent, id, task, Marked(b, id, task, h), ran, h);
    SuccessPath(g, r, sent, id, task, Marked(b, id, task, h), ran, h, UsageOf(g));
  }

  lemma BoundFacts(g: Scene, sys: System, id: JobId, task: TaskId, h: Handle)
    requires Startable(g, sys, id, task, h)
    ensures var db := Bound(g, sys, id, task).db;
            && OnlyMoved(sys.db, db, id, Phases.Scheduled) && db.tasks.Keys == sys.db.tasks.Keys + {task}
            && id in Marked(db, id, task, h).jobs
    ensures h in Ran(g, sys.eng, task, h).tasks && Ran(g, sys.eng, task, h).tasks[h].state == Aer.Succeeded
    ensures Ran(g, sys.eng, task, h).tasks[h].usage == Aer.Bill(g.doc.view.shots)
  {
  }

  /** What the path changed and what it left. */
  lemma RecorderFacts(g: Scene, sys: System, id: JobId, task: TaskId, h: Handle)
    requires Startable(g, sys, id, task, h)
    ensures var r := Recorder(g, sys, id, task, h);
            && OnlyMoved(sys.db, r.db, id, Phases.Running) && r.db.tasks.Keys == sys.db.tasks.Keys + {task}
            && r.execs == sys.execs[(0, id) := Exec(task, g.device.name, Recording(h, UsageOf(g), UsageOf(g).Keys))]
            && r.tries == sys.tries && r.eng == Ran(g, sys.eng, task, h) && r.unbilled == sys.unbilled
  {
    var b := Bound(g, sys, id, task);
    StoredFacts(b.db, id, task, h);
  }

  // ---- runs of the protocol ----

  ghost predicate Reachable(sys: System) {
    exists run :: IsRun(run) && run[|run| - 1] == sys
  }

  lemma StartIsReachable(g: Scene)
    ensures Init(Initial(g)) && Reachable(Initial(g))
  {
    assert IsRun([Initial(g)]);
  }

  lemma ReachNext(sys: System, sys': System)
    requires Reachable(sys) && Next(sys, sys')
    ensures Reachable(sys')
  {
    var run :| IsRun(run) && run[|run| - 1] == sys;
    var longer := run + [sys'];
    forall i: nat | i + 1 < |longer| ensures Linked(longer, i) {
      ReachLink(run, sys', i);
    }
    assert longer[|longer| - 1] == sys';
  }

  lemma ReachLink(run: seq<System>, sys': System, i: nat)
    requires run != [] && i < |run| && Next(run[|run| - 1], sys') && (i + 1 < |run| ==> Linked(run, i))
    ensures Linked(run + [sys'], i)
  {
  }

  lemma ReachableIsClosed() returns (r: System -> bool)
    ensures Closed(r) && forall s :: r(s) <==> Reachable(s)
  {
    r := (s: System) => Reachable(s);
    forall a, b | r(a) && Works(a, b) ensures r(b) {
      WorkIsNext(a, b);
      ReachNext(a, b);
    }
  }

  lemma ReachRecorder(g: Scene, sys: System, id: JobId, task: TaskId, h: Handle)
    requires SceneOk(g)
    requires Reachable(sys) && Startable(g, sys, id, task, h)
    ensures Reachable(Recorder(g, sys, id, task, h))
  {
    var r := ReachableIsClosed();
    WorkPath(g, r, sys, id, task, h);
  }

  lemma WorkIsNext(a: System, b: System)
    requires Works(a, b)
    ensures Next(a, b)
  {
  }

  function Submitted(g: Scene, sys: System, id: JobId): System {
    sys.(db := OrElse(Insert(sys.db, id, g.tenant, g.doc, []), sys.db))
  }

  lemma SubmitStep(g: Scene, sys: System, id: JobId)
    ensures StepTo(sys, SubmitJob(id, g.tenant, g.doc, []), Submitted(g, sys, id))
  {
  }

  /**
   A run in which the ledger write fails: the error is logged, the job still succeeds, and its status reports shots
   of which the ledger has none.
   */
  lemma LostLedgerWriteBreaksReconciliation(g: Scene) returns (run: seq<System>)
    requires SceneOk(g)
    ensures IsRun(run)
    ensures var db := run[|run| - 1].db;
            && 1 in db.jobs && db.jobs[1].phase == Phases.Succeeded && db.jobs[1].status.usage == UsageOf(g)
            && Ledger.SumWhere(db.ledger, Ledger.OfJob(1, "shots")) == 0.0
  {
    StartIsReachable(g);
    SubmitStep(g, Initial(g), 1);
    var s1 := Submitted(g, Initial(g), 1);
    ReachNext(Initial(g), s1);
    RecorderFacts(g, s1, 1, 101, 201);
    var s2 := Recorder(g, s1, 1, 101, 201);
    ReachRecorder(g, s1, 1, 101, 201);
    var s3 := Guarantees.LoseRecord(s2, 0, 1, "shots");
    ReachNext(s2, s3);
    var s4 := Guarantees.Conclude(s3, 0, 1);
    ReachNext(s3, s4);
    assert s4.db.ledger == [];
    run :| IsRun(run) && run[|run| - 1] == s4;
  }

  // ---- an orphan ----

  /** The adapter takes the task and the answer is lost. */
  lemma LoseAnswer(g: Scene, sys: System, id: JobId, task: TaskId, db: Db, h: Handle)
    requires g.payload.shots == g.doc.view.shots
    requires id in db.jobs && db.jobs[id].doc == g.doc && Free(g, sys.eng, task, h)
    ensures StepTo(At(g, sys, id, task, db, sys.eng, Submitting(None)),
                   Execute(0, id, SubmitTask(h, g.payload, None, 0.0, true)),
                   At(g, sys.(submissions := sys.submissions + [Submission(id, task, g.device.name, None)]),
                      id, task, db, Queued(g, sys.eng, task, h), Failing("VENDOR_ERROR")))
  {
  }

  lemma LosePath(g: Scene, r: System -> bool, sys: System, id: JobId, task: TaskId, h: Handle)
    requires SceneOk(g)
    requires Closed(r) && r(sys) && Startable(g, sys, id, task, h)
    ensures r(At(g, Sent(g, sys, id, task), id, task, Bound(g, sys, id, task).db, Queued(g, sys.eng, task, h),
                 Failing("VENDOR_ERROR")))
  {
    var b := Bound(g, sys, id, task);
    BindPath(g, r, sys, id, task, h);
    assert b.execs[(0, id) := Exec(task, g.device.name, Start)] == b.execs;
    assert At(g, b, id, task, b.db, b.eng, Start) == b;
    QuietMove(g, r, b, id, task, b.db, b.eng, Start, ResolveSession(0.0), Submitting(None));
    LoseAnswer(g, b, id, task, b.db, h);
    Go(r, At(g, b, id, task, b.db, b.eng, Submitting(None)), Execute(0, id, SubmitTask(h, g.payload, None, 0.0, true)),
       At(g, Sent(g, sys, id, task), id, task, b.db, Queued(g, sys.eng, task, h), Failing("VENDOR_ERROR")));
  }

  const REFUSED := Condition("Failed", "True", "VENDOR_ERROR", "")

  /** failJob: the task row and the job are marked, and the executor ends. */
  function GivenUp(sys: System, id: JobId, task: TaskId, db: Db, eng: Aer.Engine): System {
    var noted := Tables.Apply(db, UpdateTaskStep(task, None, "FAILED"));
    sys.(db := Tables.Apply(noted, TransitionStep(id, Phases.Failed, AddCondition(REFUSED))), eng := eng,
         execs := sys.execs - {(0, id)})
  }

  lemma FailPath(g: Scene, r: System -> bool, sys: System, id: JobId, task: TaskId, db: Db, eng: Aer.Engine)
    requires Closed(r)
    requires id in db.jobs && r(At(g, sys, id, task, db, eng, Failing("VENDOR_ERROR")))
    ensures r(GivenUp(sys, id, task, db, eng))
  {
    var w := UpdateTaskStep(task, None, "FAILED");
    OwnMove(g, r, sys, id, task, db, eng, Failing("VENDOR_ERROR"), w, FailMarking("VENDOR_ERROR"));
    EndStep(g, sys, id, task, Tables.Apply(db, w), eng, FailMarking("VENDOR_ERROR"),
            TransitionStep(id, Phases.Failed, AddCondition(REFUSED)));
    Go(r, At(g, sys, id, task, Tables.Apply(db, w), eng, FailMarking("VENDOR_ERROR")), Execute(0, id, Persist(false)),
       GivenUp(sys, id, task, db, eng));
  }

  /** An executor's last write, which arrives. */
  lemma EndStep(g: Scene, sys: System, id: JobId, task: TaskId, db: Db, eng: Aer.Engine, pc: Pc, w: Tables.Step)
    requires id in db.jobs && OwnWrite(db, id, Exec(task, g.device.name, pc)) == Some(w)
    requires AfterOwnWrite(db, id, Exec(task, g.device.name, pc), false) == None
    ensures StepTo(At(g, sys, id, task, db, eng, pc), Execute(0, id, Persist(false)),
                   sys.(db := Tables.Apply(db, w), eng := eng, execs := sys.execs - {(0, id)}))
  {
    var a := At(g, sys, id, task, db, eng, pc);
    assert a.execs - {(0, id)} == sys.execs - {(0, id)};
    assert EffectOf(db, eng, id, a.execs[(0, id)], Persist(false)) == Effect(Some(w), None, None);
  }

  lemma FailFacts(db: Db, id: JobId, task: TaskId)
    requires id in db.jobs && db.jobs[id].phase == Phases.Scheduled
    ensures var noted := Tables.Apply(db, UpdateTaskStep(task, None, "FAILED"));
            var failed := Tables.Apply(noted, TransitionStep(id, Phases.Failed, AddCondition(REFUSED)));
            id in failed.jobs && failed.jobs[id].phase == Phases.Failed
  {
  }

  lemma QueuedIsOpen(g: Scene, eng: Aer.Engine, task: TaskId, h: Handle)
    requires Aer.AdmissionError(g.cfg, g.payload).None? && Free(g, eng, task, h)
    ensures Orphans.Open(Queued(g, eng, task, h), h)
  {
  }

  /** The job has been given up while its task waits at the adapter. */
  function Orphaned(g: Scene, sys: System, id: JobId, task: TaskId, h: Handle): System
    requires g.device.name in sys.eng.cfg
  {
    GivenUp(Sent(g, sys, id, task), id, task, Bound(g, sys, id, task).db, Queued(g, sys.eng, task, h))
  }

  lemma OrphanPath(g: Scene, r: System -> bool, sys: System, id: JobId, task: TaskId, h: Handle)
    requires SceneOk(g)
    requires Closed(r) && r(sys) && Startable(g, sys, id, task, h)
    ensures r(Orphaned(g, sys, id, task, h))
  {
    BoundFacts(g, sys, id, task, h);
    LosePath(g, r, sys, id, task, h);
    FailPath(g, r, Sent(g, sys, id, task), id, task, Bound(g, sys, id, task).db, Queued(g, sys.eng, task, h));
  }

  lemma OrphanFacts(g: Scene, sys: System, id: JobId, task: TaskId, h: Handle)
    requires Aer.AdmissionError(g.cfg, g.payload).None? && Startable(g, sys, id, task, h)
    ensures var s := Orphaned(g, sys, id, task, h);
            && id in s.db.jobs && s.db.jobs[id].phase == Phases.Failed
            && s.execs == sys.execs && Orphans.Open(s.eng, h)
  {
    BoundFacts(g, sys, id, task, h);
    FailFacts(Bound(g, sys, id, task).db, id, task);
    QueuedIsOpen(g, sys.eng, task, h);
  }

  lemma ReachOrphan(g: Scene, sys: System, id: JobId, task: TaskId, h: Handle)
    requires SceneOk(g)
    requires Reachable(sys) && Startable(g, sys, id, task, h)
    ensures Reachable(Orphaned(g, sys, id, task, h))
  {
    var r := ReachableIsClosed();
    OrphanPath(g, r, sys, id, task, h);
  }

  /**
   A run in which the answer to SubmitTask is lost: the job ends FAILED, nobody executes anything any more, and the
   adapter still has its task to run.
   */
  lemma LostAnswerLeavesOrphan(g: Scene) returns (run: seq<System>)
    requires SceneOk(g)
    ensures IsRun(run)
    ensures var sys := run[|run| - 1];
            && 1 in sys.db.jobs && sys.db.jobs[1].phase == Phases.Failed
            && sys.execs == map[] && Orphans.Open(sys.eng, 201)
  {
    StartIsReachable(g);
    SubmitStep(g, Initial(g), 1);
    var s1 := Submitted(g, Initial(g), 1);
    ReachNext(Initial(g), s1);
    FreshStart(g);
    ReachOrphan(g, s1, 1, 101, 201);
    OrphanFacts(g, s1, 1, 101, 201);
    run :| IsRun(run) && run[|run| - 1] == Orphaned(g, s1, 1, 101, 201);
  }

  /**
   A cycle that has looked at a job sets a condition on it after the job was cancelled: an event follows the terminal
   one.
   */
  lemma ConditionAfterTerminal(g: Scene) returns (run: seq<System>)
    ensures IsRun(run) && Audit.IsRun(seq(|run|, i requires 0 <= i < |run| => run[i].db))
    ensures !Phases.NothingAfterTerminal(ChainOf(run[|run| - 1].db.events, 1))
  {
    var s1 := Submitted(g, Initial(g), 1);
    var s2 := s1.(tries := map[0 := Looked(1)]);
    CancelledBehindTheCycle(g);
    FreshJob(g);
    CancelEvent(s2.db, 1);
    EventAfterCancel(Cancelled(s2, 1).db, 1);
    run :| IsRun(run) && run[|run| - 1] == Annotated(Cancelled(s2, 1), 1);
    Guarantees.RunIsAudited(run);
  }

  lemma CancelledBehindTheCycle(g: Scene)
    ensures Reachable(Annotated(Cancelled(Submitted(g, Initial(g), 1).(tries := map[0 := Looked(1)]), 1), 1))
  {
    var s1 := Submitted(g, Initial(g), 1);
    var s2 := s1.(tries := map[0 := Looked(1)]);
    StartIsReachable(g);
    SubmitStep(g, Initial(g), 1);
    ReachNext(Initial(g), s1);
    LookAt(s1, 1);
    ReachNext(s1, s2);
    CancelStep(s2, 1);
    ReachNext(s2, Cancelled(s2, 1));
    AnnotateStep(Cancelled(s2, 1), 1);
    ReachNext(Cancelled(s2, 1), Annotated(Cancelled(s2, 1), 1));
  }

  lemma FreshJob(g: Scene)
    ensures var db := Submitted(g, Initial(g), 1).db;
            && 1 in db.jobs && db.jobs[1].phase == Phases.Pending && db.jobs[1].status.conditions == []
            && ChainOf(db.events, 1) == [Phases.Pending]
  {
    var db := Submitted(g, Initial(g), 1).db;
    ChainAppend([], Event(1, Phases.Pending, db.jobs[1].status), 1);
  }

  const BY_USER := Condition("Cancelled", "True", "UserRequested", "")
  const NO_TARGET := Condition("Schedulable", "False", "NoFeasibleTarget", "")

  function Cancelled(sys: System, id: JobId): System {
    sys.(db := Tables.Apply(sys.db, TransitionStep(id, Phases.Cancelled, AddCondition(BY_USER))))
  }

  function Annotated(sys: System, id: JobId): System {
    sys.(db := Tables.Apply(sys.db, ConditionStep(id, NO_TARGET)))
  }

  lemma CancelStep(sys: System, id: JobId)
    ensures StepTo(sys, CancelJob(id), Cancelled(sys, id))
  {
  }

  lemma AnnotateStep(sys: System, id: JobId)
    requires 0 in sys.tries && sys.tries[0].id == id
    ensures StepTo(sys, Annotate(0, NO_TARGET), Annotated(sys, id))
  {
  }

  lemma CancelEvent(db: Db, id: JobId)
    requires id in db.jobs && db.jobs[id].phase == Phases.Pending && db.jobs[id].status.conditions == []
    requires ChainOf(db.events, id) == [Phases.Pending]
    ensures var db' := Tables.Apply(db, TransitionStep(id, Phases.Cancelled, AddCondition(BY_USER)));
            && id in db'.jobs && db'.jobs[id].phase == Phases.Cancelled && db'.jobs[id].status.conditions == [BY_USER]
            && ChainOf(db'.events, id) == [Phases.Pending, Phases.Cancelled]
  {
    var db' := Tables.Apply(db, TransitionStep(id, Phases.Cancelled, AddCondition(BY_USER)));
    ChainAppend(db.events, Event(id, Phases.Cancelled, db'.jobs[id].status), id);
  }

  lemma EventAfterCancel(db: Db, id: JobId)
    requires id in db.jobs && db.jobs[id].phase == Phases.Cancelled && db.jobs[id].status.conditions == [BY_USER]
    requires ChainOf(db.events, id) == [Phases.Pending, Phases.Cancelled]
    ensures !Phases.NothingAfterTerminal(ChainOf(Tables.Apply(db, ConditionStep(id, NO_TARGET)).events, id))
  {
    var db' := Tables.Apply(db, ConditionStep(id, NO_TARGET));
    assert !ConditionUnchanged([BY_USER], NO_TARGET);
    ChainAppend(db.events, Event(id, Phases.Cancelled, db'.jobs[id].status), id);
    var chain := ChainOf(db'.events, id);
    assert chain == [Phases.Pending, Phases.Cancelled, Phases.Cancelled];
    assert Phases.Terminal(chain[1]) && 1 < |chain| - 1;
  }

  // ---- runs of the whole control plane ----

  /** Both sides see the same tables and no admission is open. */
  ghost predicate Settled(g: Scene, r: Deployment.Whole -> bool, w: Deployment.Whole) {
    w.q.db == w.sys.db && w.q.txs == map[] && w.q.limits == LimitsOf(g) && w.q.bypassed == [] && r(w)
  }

  /** The same tables seen by both sides. */
  function With(w: Deployment.Whole, sys: System): Deployment.Whole {
    Deployment.Whole(sys, w.q.(db := sys.db))
  }

  lemma WorkWritesNoUsage(sys: System, s: Protocol.Step)
    requires Enabled(sys, s) && !(s.Execute? && s.m.Record?) && WriteOf(sys, s).Some?
    ensures !WriteOf(sys, s).value.RecordStep?
  {
  }

  lemma DeployWork(g: Scene, r: Deployment.Whole -> bool, w: Deployment.Whole, sys': System)
    requires Deployment.Kept(r)
    requires Settled(g, r, w) && Works(w.sys, sys')
    ensures Settled(g, r, With(w, sys'))
  {
    var s :| StepTo(w.sys, s, sys') && !s.SubmitJob? && !(s.Execute? && s.m.Record?);
    if WriteOf(w.sys, s).Some? {
      WorkWritesNoUsage(w.sys, s);
    }
    assert Deployment.Controls(w, s, With(w, sys'));
    assert Deployment.Next(w, With(w, sys'));
  }

  lemma DeployRecorder(g: Scene, r: Deployment.Whole -> bool, w: Deployment.Whole, id: JobId, task: TaskId, h: Handle)
    requires Deployment.Kept(r)
    requires SceneOk(g)
    requires Settled(g, r, w) && Startable(g, w.sys, id, task, h)
    ensures Settled(g, r, With(w, Recorder(g, w.sys, id, task, h)))
  {
    var sound := (s: System) => Settled(g, r, With(w, s));
    assert With(w, w.sys) == w;
    forall a, b | sound(a) && Works(a, b) ensures sound(b) {
      DeployOn(g, r, w, a, b);
    }
    WorkPath(g, sound, w.sys, id, task, h);
  }

  lemma DeployOn(g: Scene, r: Deployment.Whole -> bool, w: Deployment.Whole, a: System, b: System)
    requires Deployment.Kept(r)
    requires Settled(g, r, With(w, a)) && Works(a, b)
    ensures Settled(g, r, With(w, b))
  {
    DeployWork(g, r, With(w, a), b);
    assert With(With(w, a), b) == With(w, b);
  }

  lemma DeployAdmission(r: Deployment.Whole -> bool, w: Deployment.Whole, a: Quota.Step, q': Quota.State)
    requires Deployment.Kept(r)
    requires r(w) && Quota.Enabled(w.q, a) && !a.Write? && Deployment.Entering(w.q, a).None?
    requires q' == Quota.Apply(w.q, a)
    ensures r(w.(q := q'))
  {
    assert Deployment.Admits(w, a, w.(q := q'));
    assert Deployment.Next(w, w.(q := q'));
  }

  /** Begin, lock, check, commit: an undisturbed submission that the limit affords is admitted. */
  lemma AdmitJob(g: Scene, r: Deployment.Whole -> bool, w: Deployment.Whole, id: JobId)
    requires Deployment.Kept(r)
    requires SceneOk(g)
    requires Settled(g, r, w) && id !in w.sys.db.jobs && Quota.Committed(w.sys.db, g.tenant, "shots") == 0.0
    ensures Settled(g, r, With(w, Submitted(g, w.sys, id)))
  {
    var q, req := w.q, Quota.Request(id, g.tenant, g.doc, []);
    AdmissionSteps(g, q, req);
    var q1 := q.(txs := map[0 := Quota.Tx(req, {"shots"}, {}, map[])]);
    DeployAdmission(r, w, Quota.Begin(0, req), q1);
    var q2 := q.(txs := map[0 := Quota.Tx(req, {"shots"}, {"shots"}, map[])]);
    DeployAdmission(r, w.(q := q1), Quota.Lock(0, "shots"), q2);
    var q3 := q.(txs := map[0 := Quota.Tx(req, {}, {"shots"}, map["shots" := 0.0])]);
    DeployAdmission(r, w.(q := q2), Quota.Check(0, "shots"), q3);
    CommitJob(g, r, w, w.(q := q3), id);
  }

  lemma AdmissionSteps(g: Scene, q: Quota.State, req: Quota.Request)
    requires SceneOk(g)
    requires q.txs == map[] && q.limits == LimitsOf(g) && req.tenant == g.tenant && req.doc == g.doc
    requires Quota.Committed(q.db, g.tenant, "shots") == 0.0
    ensures var q1 := q.(txs := map[0 := Quota.Tx(req, {"shots"}, {}, map[])]);
            var q2 := q.(txs := map[0 := Quota.Tx(req, {"shots"}, {"shots"}, map[])]);
            var q3 := q.(txs := map[0 := Quota.Tx(req, {}, {"shots"}, map["shots" := 0.0])]);
            && Quota.Enabled(q, Quota.Begin(0, req)) && Quota.Apply(q, Quota.Begin(0, req)) == q1
            && Quota.Enabled(q1, Quota.Lock(0, "shots")) && Quota.Apply(q1, Quota.Lock(0, "shots")) == q2
            && Quota.Enabled(q2, Quota.Check(0, "shots")) && Quota.Apply(q2, Quota.Check(0, "shots")) == q3
  {
    assert Quota.Costs(g.doc).Keys == {"shots"};
    assert {} + {"shots"} == {"shots"};
  }

  lemma CommitJob(g: Scene, r: Deployment.Whole -> bool, w: Deployment.Whole, w3: Deployment.Whole, id: JobId)
    requires Deployment.Kept(r)
    requires SceneOk(g)
    requires Settled(g, r, w) && id !in w.sys.db.jobs && r(w3)
    requires var tx := Quota.Tx(Quota.Request(id, g.tenant, g.doc, []), {}, {"shots"}, map["shots" := 0.0]);
             w3 == w.(q := w.q.(txs := map[0 := tx]))
    ensures Settled(g, r, With(w, Submitted(g, w.sys, id)))
  {
    var w' := With(w, Submitted(g, w.sys, id));
    SubmitStep(g, w.sys, id);
    assert Quota.Apply(w3.q, Quota.Commit(0)) == w'.q;
    assert Deployment.Admits(w3, Quota.Commit(0), w');
    assert Deployment.Next(w3, w');
  }

  // ---- the overdraft ----

  function Row(g: Scene, id: JobId, task: TaskId): LedgerRow {
    LedgerRow(id, task, g.tenant, g.device.name, "shots", Limit(g))
  }

  /** The executor of a recording job writes its shots. */
  function Billed(g: Scene, sys: System, id: JobId, task: TaskId, h: Handle): System {
    sys.(db := RecordRow(sys.db, Row(g, id, task)),
         execs := sys.execs[(0, id) := Exec(task, g.device.name, Recording(h, UsageOf(g), {"tasks"}))])
  }

  ghost predicate AboutToBill(g: Scene, sys: System, id: JobId, task: TaskId, h: Handle) {
    && id in sys.db.jobs && sys.db.jobs[id].tenant == g.tenant && sys.db.jobs[id].doc == g.doc
    && (0, id) in sys.execs
    && sys.execs[(0, id)] == Exec(task, g.device.name, Recording(h, UsageOf(g), UsageOf(g).Keys))
    && !IsRecorded(sys.db.ledger, task, "shots")
  }

  lemma BillStep(g: Scene, sys: System, id: JobId, task: TaskId, h: Handle)
    requires AboutToBill(g, sys, id, task, h)
    ensures StepTo(sys, Execute(0, id, Record("shots", false)), Billed(g, sys, id, task, h))
  {
    assert UsageOf(g).Keys - {"shots"} == {"tasks"};
  }

  lemma DeployBill(g: Scene, r: Deployment.Whole -> bool, w: Deployment.Whole, id: JobId, task: TaskId, h: Handle)
    returns (w': Deployment.Whole)
    requires Deployment.Kept(r)
    requires SceneOk(g)
    requires Settled(g, r, w) && AboutToBill(g, w.sys, id, task, h)
    ensures Settled(g, r, w') && w'.sys == Billed(g, w.sys, id, task, h)
    ensures w'.q.usage == Quota.Classified(w.q.db, w.q.usage, Row(g, id, task))
  {
    var s := Execute(0, id, Record("shots", false));
    BillStep(g, w.sys, id, task, h);
    assert WriteOf(w.sys, s) == Some(RecordStep(Row(g, id, task)));
    w' := Deployment.Whole(Billed(g, w.sys, id, task, h), Quota.AfterWrite(w.q, RecordStep(Row(g, id, task))));
    assert Deployment.Controls(w, s, w');
    assert Deployment.Next(w, w');
  }

  /**
   Two jobs, one limit: the first cancelled while its usage is about to be recorded, the second admitted in its place.
   */
  lemma ReplacedJob(g: Scene, r: Deployment.Whole -> bool) returns (w: Deployment.Whole)
    requires Deployment.Kept(r) && r(StartWhole(g))
    requires SceneOk(g)
    ensures Settled(g, r, w) && w.q.usage == Quota.NOTHING && w.sys.db.ledger == []
    ensures AboutToBill(g, w.sys, 1, 101, 201) && AboutToBill(g, w.sys, 2, 102, 202)
    ensures w.sys.db.jobs[1].phase == Phases.Cancelled && w.sys.db.jobs[2].phase == Phases.Running
  {
    var w3 := FirstCancelled(g, r);
    var sys := CancelledFacts(g);
    NothingReserved(g, sys.db);
    AdmitJob(g, r, w3, 2);
    SecondFacts(g, sys);
    DeployRecorder(g, r, With(w3, Submitted(g, sys, 2)), 2, 102, 202);
    w := With(w3, Recorder(g, Submitted(g, sys, 2), 2, 102, 202));
  }

  lemma FirstCancelled(g: Scene, r: Deployment.Whole -> bool) returns (w: Deployment.Whole)
    requires Deployment.Kept(r) && r(StartWhole(g))
    requires SceneOk(g)
    ensures Settled(g, r, w) && w.q.usage == Quota.NOTHING
    ensures w.sys == Cancelled(Recorder(g, Submitted(g, Initial(g), 1), 1, 101, 201), 1)
  {
    var w2 := FirstJob(g, r);
    CancelStep(w2.sys, 1);
    assert Works(w2.sys, Cancelled(w2.sys, 1));
    DeployWork(g, r, w2, Cancelled(w2.sys, 1));
    w := With(w2, Cancelled(w2.sys, 1));
  }

  lemma SecondFacts(g: Scene, sys: System)
    requires sys.db.ledger == [] && sys.db.jobs.Keys == {1} && sys.db.jobs[1].phase == Phases.Cancelled
    requires AboutToBill(g, sys, 1, 101, 201) && sys.db.tasks.Keys == {101} && sys.execs.Keys == {(0, 1)}
    requires sys.tries == map[]
    requires sys.eng == Ran(g, IdleEngine(g), 101, 201)
    ensures Startable(g, Submitted(g, sys, 2), 2, 102, 202)
    ensures var r := Recorder(g, Submitted(g, sys, 2), 2, 102, 202);
            && r.db.ledger == [] && AboutToBill(g, r, 1, 101, 201) && AboutToBill(g, r, 2, 102, 202)
            && r.db.jobs[1].phase == Phases.Cancelled && r.db.jobs[2].phase == Phases.Running
  {
    assert Free(g, sys.eng, 102, 202);
    RecorderFacts(g, Submitted(g, sys, 2), 2, 102, 202);
  }

  lemma FirstJob(g: Scene, r: Deployment.Whole -> bool) returns (w: Deployment.Whole)
    requires Deployment.Kept(r) && r(StartWhole(g))
    requires SceneOk(g)
    ensures Settled(g, r, w) && w.q.usage == Quota.NOTHING
    ensures w.sys == Recorder(g, Submitted(g, Initial(g), 1), 1, 101, 201)
  {
    var w1 := FirstAdmitted(g, r);
    FreshStart(g);
    DeployRecorder(g, r, w1, 1, 101, 201);
    w := With(w1, Recorder(g, w1.sys, 1, 101, 201));
  }

  lemma FirstAdmitted(g: Scene, r: Deployment.Whole -> bool) returns (w: Deployment.Whole)
    requires Deployment.Kept(r) && r(StartWhole(g))
    requires SceneOk(g)
    ensures Settled(g, r, w) && w.q.usage == Quota.NOTHING && w.sys == Submitted(g, Initial(g), 1)
  {
    var w0 := StartWhole(g);
    assert Quota.Committed(Audit.EMPTY, g.tenant, "shots") == 0.0;
    AdmitJob(g, r, w0, 1);
    w := With(w0, Submitted(g, Initial(g), 1));
  }

  function StartWhole(g: Scene): Deployment.Whole {
    Deployment.Whole(Initial(g), Quota.State(Audit.EMPTY, LimitsOf(g), map[], Quota.NOTHING, [], []))
  }

  lemma FreshStart(g: Scene)
    ensures var sys := Submitted(g, Initial(g), 1);
            && Startable(g, sys, 1, 101, 201) && sys.db.ledger == [] && sys.db.order == [1] && sys.db.jobs.Keys == {1}
            && sys.db.tasks == map[] && sys.execs == map[] && sys.tries == map[] && sys.eng == IdleEngine(g)
  {
  }

  /** The first job, cancelled while its executor is about to bill it. */
  lemma CancelledFacts(g: Scene) returns (sys: System)
    ensures sys == Cancelled(Recorder(g, Submitted(g, Initial(g), 1), 1, 101, 201), 1)
    ensures sys.db.ledger == [] && sys.db.order == [1] && sys.db.jobs.Keys == {1}
    ensures sys.db.jobs[1].phase == Phases.Cancelled
    ensures AboutToBill(g, sys, 1, 101, 201) && sys.db.tasks.Keys == {101} && sys.execs.Keys == {(0, 1)}
    ensures sys.tries == map[]
    ensures sys.eng == Ran(g, IdleEngine(g), 101, 201)
  {
    FreshStart(g);
    RecorderFacts(g, Submitted(g, Initial(g), 1), 1, 101, 201);
    var r := Recorder(g, Submitted(g, Initial(g), 1), 1, 101, 201);
    CancelFacts(r.db, 1);
    sys := Cancelled(r, 1);
  }

  lemma CancelFacts(db: Db, id: JobId)
    requires id in db.jobs && db.jobs[id].phase == Phases.Running
    ensures var db' := Tables.Apply(db, TransitionStep(id, Phases.Cancelled, AddCondition(BY_USER)));
            OnlyMoved(db, db', id, Phases.Cancelled) && db'.tasks == db.tasks
  {
  }

  lemma NothingReserved(g: Scene, db: Db)
    requires db.ledger == [] && db.order == [1] && 1 in db.jobs && db.jobs[1].phase == Phases.Cancelled
    ensures Quota.Committed(db, g.tenant, "shots") == 0.0
  {
    assert Ledger.Sum([1], Quota.Reserved(db, g.tenant, "shots")) == 0.0;
  }

  lemma BothAreBilled(g: Scene, r: Deployment.Whole -> bool) returns (w: Deployment.Whole)
    requires Deployment.Kept(r) && r(StartWhole(g))
    requires SceneOk(g)
    ensures Settled(g, r, w) && w.q.usage.excess == [] && w.q.usage.late == [Row(g, 1, 101)]
    ensures w.sys.db.ledger == [Row(g, 2, 102), Row(g, 1, 101)]
  {
    var w0 := ReplacedJob(g, r);
    var w1 := DeployBill(g, r, w0, 2, 102, 202);
    assert w1.sys.db.ledger == [Row(g, 2, 102)];
    w := DeployBill(g, r, w1, 1, 101, 201);
  }

  ghost predicate Deployed(w: Deployment.Whole) {
    exists run :: Deployment.IsRun(run) && run[|run| - 1] == w
  }

  lemma DeployNext(w: Deployment.Whole, w': Deployment.Whole)
    requires Deployed(w) && Deployment.Next(w, w')
    ensures Deployed(w')
  {
    var run :| Deployment.IsRun(run) && run[|run| - 1] == w;
    var longer := run + [w'];
    forall i: nat | i + 1 < |longer| ensures Deployment.Linked(longer, i) {
      DeployLink(run, w', i);
    }
    assert longer[|longer| - 1] == w';
  }

  lemma DeployLink(run: seq<Deployment.Whole>, w': Deployment.Whole, i: nat)
    requires run != [] && i < |run| && Deployment.Next(run[|run| - 1], w')
    requires i + 1 < |run| ==> Deployment.Linked(run, i)
    ensures Deployment.Linked(run + [w'], i)
  {
  }

  lemma StartIsDeployed(g: Scene)
    requires SceneOk(g)
    ensures Deployed(StartWhole(g))
  {
    StartIsReachable(g);
    assert Deployment.IsRun([StartWhole(g)]);
  }

  /**
   The overdraft is real: whoever the tenant and whatever the document and the device, there is a run in which both jobs
   are executed and billed in full. The tenant has then spent twice its limit, exactly the limit plus the late usage of
   the cancelled job.
   */
  lemma OverdraftHappens(g: Scene) returns (run: seq<Deployment.Whole>)
    requires SceneOk(g)
    ensures Deployment.IsRun(run)
    ensures var w := run[|run| - 1];
            && w.q.limits == map[(g.tenant, "shots") := Limit(g)] && w.q.bypassed == [] && w.q.usage.excess == []
            && Quota.Spent(w.sys.db, g.tenant, "shots") == 2.0 * Limit(g)
            && 2.0 * Limit(g) == Limit(g) + Quota.Late(w.q, g.tenant, "shots")
  {
    var r := (w: Deployment.Whole) => Deployed(w);
    forall a, b | r(a) && Deployment.Next(a, b) ensures r(b) {
      DeployNext(a, b);
    }
    StartIsDeployed(g);
    var w := BothAreBilled(g, r);
    BothBilled(g, w.sys.db, w.q);
    run :| Deployment.IsRun(run) && run[|run| - 1] == w;
  }

  lemma BothBilled(g: Scene, db: Db, q: Quota.State)
    requires db.ledger == [Row(g, 2, 102), Row(g, 1, 101)] && q.usage.late == [Row(g, 1, 101)]
    ensures Quota.Spent(db, g.tenant, "shots") == 2.0 * Limit(g) == Limit(g) + Quota.Late(q, g.tenant, "shots")
  {
    Ledger.SumAppend([], Row(g, 2, 102), Ledger.OfTenant(g.tenant, "shots"));
    Ledger.SumAppend([Row(g, 2, 102)], Row(g, 1, 101), Ledger.OfTenant(g.tenant, "shots"));
    Ledger.SumAppend([], Row(g, 1, 101), Ledger.OfTenant(g.tenant, "shots"));
    assert [] + [Row(g, 2, 102)] == [Row(g, 2, 102)] && [] + [Row(g, 1, 101)] == [Row(g, 1, 101)];
    assert [Row(g, 2, 102)] + [Row(g, 1, 101)] == db.ledger;
  }
}
