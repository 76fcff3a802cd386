/**
 The Aer adapter's task engine (adapters/aer/src/rabi_aer/tasks.py): one idempotency map, one FIFO queue
 and one worker thread per target, and a lock. Each region the source executes under the lock is one step.
 */
module AerEngine {
  import opened Common

  datatype TaskState = Queued | Running | Succeeded | Failed | Cancelled

  predicate Terminal(s: TaskState) {
    s.Succeeded? || s.Failed? || s.Cancelled?
  }

  function Level(s: TaskState): nat {
    if s.Queued? then 0 else if s.Running? then 1 else 2
  }

  datatype Category = InvalidProgram | CapabilityMismatch | VendorError | SessionLost

  datatype Usage = Usage(unit: string, amount: real)

  type TaskId = Uuid
  type Target = string
  type Key = Uuid
  type Counts = map<string, nat>

  datatype Task = Task(target: Target, key: Key, shots: nat, state: TaskState, error: Option<Category>,
                       result: Option<Counts>, usage: seq<Usage>, updatedAt: real, cancelRequested: bool)

  datatype TargetConfig = TargetConfig(programFormats: seq<string>, maxShots: nat)

  const MAX_INLINE_BYTES := 4 * 1024 * 1024

  datatype Payload = Payload(format: string, size: nat, shots: nat)

  datatype Outcome = Simulated(counts: Counts) | Errored(category: Category) | CancelSeen

  /** The single worker of a target: between lock regions of `_run`. */
  datatype Worker = Idle | Started(id: TaskId) | Simulating(id: TaskId) | Finishing(id: TaskId, outcome: Outcome)

  datatype Engine = Engine(
    cfg: map<Target, TargetConfig>,
    tasks: map<TaskId, Task>,
    byKey: map<(Target, Key), TaskId>,
    pools: map<Target, seq<TaskId>>,
    workers: map<Target, Worker>,
    simulations: seq<TaskId>)        // history: every simulation ever started

  function Bill(shots: nat): seq<Usage> {
    [Usage("shots", shots as real), Usage("tasks", 1.0)]
  }

  function AdmissionError(cfg: TargetConfig, p: Payload): Option<Category> {
    if p.format !in cfg.programFormats then Some(CapabilityMismatch)
    else if p.shots > cfg.maxShots then Some(CapabilityMismatch)
    else if p.size > MAX_INLINE_BYTES then Some(InvalidProgram)
    else None
  }

  function Touch(t: Task, now: real): Task {
    t.(updatedAt := if now >= t.updatedAt then now else t.updatedAt)
  }

  // ---- steps ----

  datatype Step =
    | Submit(target: Target, key: Key, payload: Payload, precheck: Option<Category>, id: TaskId, now: real)
    | Begin(on: Target, now: real)
    | ParseFails(on: Target, category: Category)
    | Gate(on: Target)
    | SimulationEnds(on: Target, outcome: Outcome)
    | Finish(on: Target, now: real)
    | Cancel(task: TaskId, now: real)

  predicate Enabled(e: Engine, s: Step) {
    match s
    case Submit(target, key, payload, precheck, id, now) => target in e.cfg && id !in e.tasks
    case Begin(on, now) => on in e.workers && e.workers[on].Idle? && on in e.pools && e.pools[on] != []
                           && e.pools[on][0] in e.tasks
    case ParseFails(on, category) => on in e.workers && e.workers[on].Started?
    case Gate(on) => on in e.workers && e.workers[on].Started? && e.workers[on].id in e.tasks
    case SimulationEnds(on, outcome) => on in e.workers && e.workers[on].Simulating? && !outcome.CancelSeen?
    case Finish(on, now) => on in e.workers && e.workers[on].Finishing? && e.workers[on].id in e.tasks
    case Cancel(task, now) => true
  }

  /** submit: the existing task of this idempotency key, or a new one. */
  function AfterSubmit(e: Engine, target: Target, key: Key, p: Payload, precheck: Option<Category>, id: TaskId,
                       now: real): Engine
    requires target in e.cfg
  {
    if (target, key) in e.byKey then e
    else
      var err := if precheck.Some? then precheck else AdmissionError(e.cfg[target], p);
      var t := Task(target, key, p.shots, if err.Some? then Failed else Queued, err, None, [], now, false);
      e.(tasks := e.tasks[id := t],
         byKey := e.byKey[(target, key) := id],
         pools := if t.state.Queued? then e.pools[target := PoolOf(e, target) + [id]] else e.pools)
  }

  function PoolOf(e: Engine, target: Target): seq<TaskId> {
    if target in e.pools then e.pools[target] else []
  }

  function AfterBegin(e: Engine, on: Target, now: real): Engine
    requires Enabled(e, Begin(on, now))
  {
    var id := e.pools[on][0];
    var popped := e.(pools := e.pools[on := e.pools[on][1..]]);
    if e.tasks[id].state != Queued then popped
    else popped.(tasks := e.tasks[id := Touch(e.tasks[id].(state := Running), now)],
                 workers := e.workers[on := Started(id)])
  }

  /** The last look at the cancel flag before the simulation. */
  function AfterGate(e: Engine, on: Target): Engine
    requires Enabled(e, Gate(on))
  {
    var id := e.workers[on].id;
    if e.tasks[id].cancelRequested then e.(workers := e.workers[on := Finishing(id, CancelSeen)])
    else e.(workers := e.workers[on := Simulating(id)], simulations := e.simulations + [id])
  }

  function AfterOutcome(e: Engine, on: Target, outcome: Outcome): Engine
    requires on in e.workers && !e.workers[on].Idle?
  {
    e.(workers := e.workers[on := Finishing(e.workers[on].id, outcome)])
  }

  function Conclude(t: Task, o: Outcome, now: real): Task {
    if Terminal(t.state) then t
    else if t.cancelRequested && o.CancelSeen? then Touch(t.(state := Cancelled), now)
    else if o.Errored? then Touch(t.(state := Failed, error := Some(o.category)), now)
    else
      var result := if o.Simulated? then Some(o.counts) else None;
      Touch(t.(state := Succeeded, result := result, usage := Bill(t.shots)), now)
  }

  function AfterFinish(e: Engine, on: Target, now: real): Engine
    requires Enabled(e, Finish(on, now))
  {
    var Finishing(id, outcome) := e.workers[on];
    e.(tasks := e.tasks[id := Conclude(e.tasks[id], outcome, now)], workers := e.workers[on := Idle])
  }

  predicate CancelAccepted(e: Engine, task: TaskId) {
    task in e.tasks && !Terminal(e.tasks[task].state)
  }

  function AfterCancel(e: Engine, task: TaskId, now: real): Engine {
    if !CancelAccepted(e, task) then e
    else
      var t := e.tasks[task].(cancelRequested := true);
      e.(tasks := e.tasks[task := if t.state.Queued? then Touch(t.(state := Cancelled), now) else t])
  }

  function Apply(e: Engine, s: Step): Engine
    requires Enabled(e, s)
  {
    match s
    case Submit(target, key, payload, precheck, id, now) => AfterSubmit(e, target, key, payload, precheck, id, now)
    case Begin(on, now) => AfterBegin(e, on, now)
    case ParseFails(on, category) => AfterOutcome(e, on, Errored(category))
    case Gate(on) => AfterGate(e, on)
    case SimulationEnds(on, outcome) => AfterOutcome(e, on, outcome)
    case Finish(on, now) => AfterFinish(e, on, now)
    case Cancel(task, now) => AfterCancel(e, task, now)
  }

  ghost predicate Next(e: Engine, e': Engine) {
    exists s :: Enabled(e, s) && e' == Apply(e, s)
  }

  ghost predicate Init(e: Engine) {
    && e.tasks == map[] && e.byKey == map[] && e.simulations == []
    && e.pools.Keys == e.workers.Keys == e.cfg.Keys
    && (forall t :: t in e.pools ==> e.pools[t] == [])
    && (forall t :: t in e.workers ==> e.workers[t] == Idle)
  }

  // ---- the invariant ----

  ghost predicate NoDuplicates(s: seq<TaskId>) {
    forall i, k :: 0 <= i < k < |s| ==> s[i] != s[k]
  }

  ghost predicate Holds(w: Worker, id: TaskId) {
    !w.Idle? && w.id == id
  }

  /** A result, usage and error exist exactly in the matching terminal state. */
  ghost predicate WellFormed(t: Task) {
    && (t.result.Some? <==> t.state.Succeeded?)
    && t.usage == (if t.state.Succeeded? then Bill(t.shots) else [])
    && (t.error.Some? <==> t.state.Failed?)
  }

  ghost predicate TaskOk(e: Engine, id: TaskId)
    requires id in e.tasks
  {
    var t := e.tasks[id];
    && WellFormed(t)
    && t.target in e.pools && t.target in e.workers
    && (t.target, t.key) in e.byKey && e.byKey[(t.target, t.key)] == id
    && (t.state.Queued? ==> id in e.pools[t.target])
    && (id in e.pools[t.target] ==> (t.state.Queued? || t.state.Cancelled?) && id !in e.simulations)
    && (Holds(e.workers[t.target], id) <==> t.state.Running?)
    && (e.workers[t.target] == Started(id) ==> id !in e.simulations)
    && (e.workers[t.target] == Finishing(id, CancelSeen) ==> t.cancelRequested && id !in e.simulations)
  }

  ghost predicate TargetOk(e: Engine, on: Target)
    requires on in e.pools && on in e.workers
  {
    && NoDuplicates(e.pools[on])
    && (forall id :: id in e.pools[on] ==> id in e.tasks && e.tasks[id].target == on)
    && (!e.workers[on].Idle? ==> e.workers[on].id in e.tasks && e.tasks[e.workers[on].id].target == on)
  }

  ghost predicate KeyOk(e: Engine, k: (Target, Key))
    requires k in e.byKey
  {
    e.byKey[k] in e.tasks && e.tasks[e.byKey[k]].target == k.0 && e.tasks[e.byKey[k]].key == k.1
  }

  ghost predicate Inv(e: Engine) {
    && e.pools.Keys == e.workers.Keys == e.cfg.Keys
    && (forall id :: id in e.tasks ==> TaskOk(e, id))
    && (forall on :: on in e.cfg ==> TargetOk(e, on))
    && (forall k :: k in e.byKey ==> KeyOk(e, k))
    && NoDuplicates(e.simulations)
    && (forall id :: id in e.simulations ==> id in e.tasks)
  }

  lemma InitInv(e: Engine)
    requires Init(e)
    ensures Inv(e)
  {
  }

  lemma SubmitKeeps(e: Engine, target: Target, key: Key, p: Payload, precheck: Option<Category>, newId: TaskId,
                    now: real)
    requires Inv(e) && target in e.cfg && newId !in e.tasks
    ensures Inv(AfterSubmit(e, target, key, p, precheck, newId, now))
  {
    var e' := AfterSubmit(e, target, key, p, precheck, newId, now);
    SubmitKeepsTasks(e, target, key, p, precheck, newId, now);
    SubmitKeepsTargets(e, target, key, p, precheck, newId, now);
    forall k | k in e'.byKey ensures KeyOk(e', k) {
      assert k in e.byKey ==> KeyOk(e, k);
      SubmitKey(e, target, key, p, precheck, newId, now, k);
    }
  }

  lemma SubmitKeepsTargets(e: Engine, target: Target, key: Key, p: Payload, precheck: Option<Category>, newId: TaskId,
                           now: real)
    requires Inv(e) && target in e.cfg && newId !in e.tasks
    ensures var e' := AfterSubmit(e, target, key, p, precheck, newId, now);
            && e'.pools.Keys == e'.workers.Keys == e'.cfg.Keys
            && forall at :: at in e'.cfg ==> TargetOk(e', at)
  {
    var e' := AfterSubmit(e, target, key, p, precheck, newId, now);
    forall at | at in e'.cfg ensures TargetOk(e', at) {
      assert TargetOk(e, at);
      SubmitTarget(e, target, key, p, precheck, newId, now, at);
    }
  }

  lemma SubmitKey(e: Engine, target: Target, key: Key, p: Payload, precheck: Option<Category>, newId: TaskId,
                  now: real, k: (Target, Key))
    requires target in e.cfg && newId !in e.tasks
    requires k in AfterSubmit(e, target, key, p, precheck, newId, now).byKey && (k in e.byKey ==> KeyOk(e, k))
    ensures KeyOk(AfterSubmit(e, target, key, p, precheck, newId, now), k)
  {
  }

  lemma SubmitKeepsTasks(e: Engine, target: Target, key: Key, p: Payload, precheck: Option<Category>, newId: TaskId,
                         now: real)
    requires Inv(e) && target in e.cfg && newId !in e.tasks
    ensures var e' := AfterSubmit(e, target, key, p, precheck, newId, now);
            forall id :: id in e'.tasks ==> TaskOk(e', id)
  {
    var e' := AfterSubmit(e, target, key, p, precheck, newId, now);
    assert TargetOk(e, target);
    forall id | id in e'.tasks ensures TaskOk(e', id) {
      assert id in e.tasks ==> TaskOk(e, id);
      SubmitTask(e, target, key, p, precheck, newId, now, id);
    }
  }

  lemma SubmitTask(e: Engine, target: Target, key: Key, p: Payload, precheck: Option<Category>, newId: TaskId,
                   now: real, id: TaskId)
    requires target in e.cfg && newId !in e.tasks
    requires id in AfterSubmit(e, target, key, p, precheck, newId, now).tasks && (id in e.tasks ==> TaskOk(e, id))
    requires target in e.pools && target in e.workers && TargetOk(e, target) && newId !in e.simulations
    ensures TaskOk(AfterSubmit(e, target, key, p, precheck, newId, now), id)
  {
  }

  lemma SubmitTarget(e: Engine, target: Target, key: Key, p: Payload, precheck: Option<Category>, newId: TaskId,
                     now: real, at: Target)
    requires target in e.cfg && newId !in e.tasks
    requires at in e.pools && at in e.workers && TargetOk(e, at)
    ensures TargetOk(AfterSubmit(e, target, key, p, precheck, newId, now), at)
  {
  }

  lemma BeginKeeps(e: Engine, on: Target, now: real)
    requires Inv(e) && Enabled(e, Begin(on, now))
    ensures Inv(AfterBegin(e, on, now))
  {
    var e' := AfterBegin(e, on, now);
    assert TargetOk(e, on) && TaskOk(e, e.pools[on][0]);
    forall id | id in e'.tasks ensures TaskOk(e', id) {
      assert id in e.tasks ==> TaskOk(e, id);
      BeginTask(e, on, now, id);
    }
    forall at | at in e'.cfg ensures TargetOk(e', at) {
      assert TargetOk(e, at);
      BeginTarget(e, on, now, at);
    }
    forall k | k in e'.byKey ensures KeyOk(e', k) {
      assert k in e.byKey ==> KeyOk(e, k);
    }
  }

  lemma BeginTask(e: Engine, on: Target, now: real, id: TaskId)
    requires Enabled(e, Begin(on, now))
    requires id in AfterBegin(e, on, now).tasks && (id in e.tasks ==> TaskOk(e, id))
    requires TargetOk(e, on) && TaskOk(e, e.pools[on][0])
    ensures TaskOk(AfterBegin(e, on, now), id)
  {
    assert e.pools[on] == [e.pools[on][0]] + e.pools[on][1..];
  }

  lemma BeginTarget(e: Engine, on: Target, now: real, at: Target)
    requires Enabled(e, Begin(on, now))
    requires at in e.pools && at in e.workers && TargetOk(e, at)
    requires e.tasks[e.pools[on][0]].target == on
    ensures TargetOk(AfterBegin(e, on, now), at)
  {
  }

  lemma OutcomeKeeps(e: Engine, on: Target, outcome: Outcome)
    requires Inv(e) && on in e.workers && (e.workers[on].Started? || e.workers[on].Simulating?) && !outcome.CancelSeen?
    ensures Inv(AfterOutcome(e, on, outcome))
  {
    var e' := AfterOutcome(e, on, outcome);
    assert TargetOk(e, on);
    forall id | id in e'.tasks ensures TaskOk(e', id) {
      assert id in e.tasks ==> TaskOk(e, id);
      OutcomeTask(e, on, outcome, id);
    }
    forall at | at in e'.cfg ensures TargetOk(e', at) {
      assert TargetOk(e, at);
      OutcomeTarget(e, on, outcome, at);
    }
    forall k | k in e'.byKey ensures KeyOk(e', k) {
      assert k in e.byKey ==> KeyOk(e, k);
    }
  }

  lemma OutcomeTask(e: Engine, on: Target, outcome: Outcome, id: TaskId)
    requires on in e.workers && (e.workers[on].Started? || e.workers[on].Simulating?) && !outcome.CancelSeen?
    requires id in AfterOutcome(e, on, outcome).tasks && (id in e.tasks ==> TaskOk(e, id))
    ensures TaskOk(AfterOutcome(e, on, outcome), id)
  {
  }

  lemma OutcomeTarget(e: Engine, on: Target, outcome: Outcome, at: Target)
    requires on in e.workers && (e.workers[on].Started? || e.workers[on].Simulating?) && !outcome.CancelSeen?
    requires at in e.pools && at in e.workers && TargetOk(e, at)
    ensures TargetOk(AfterOutcome(e, on, outcome), at)
  {
  }

  lemma GateKeeps(e: Engine, on: Target)
    requires Inv(e) && Enabled(e, Gate(on))
    ensures Inv(AfterGate(e, on))
  {
    var e' := AfterGate(e, on);
    assert TargetOk(e, on) && TaskOk(e, e.workers[on].id);
    GateSimulations(e, on);
    forall id | id in e'.tasks ensures TaskOk(e', id) {
      assert id in e.tasks ==> TaskOk(e, id);
      GateTask(e, on, id);
    }
    GateKeepsTargets(e, on);
    forall k | k in e'.byKey ensures KeyOk(e', k) {
      assert k in e.byKey ==> KeyOk(e, k);
    }
  }

  lemma GateKeepsTargets(e: Engine, on: Target)
    requires Inv(e) && Enabled(e, Gate(on))
    ensures var e' := AfterGate(e, on);
            e'.pools.Keys == e'.workers.Keys == e'.cfg.Keys && forall at :: at in e'.cfg ==> TargetOk(e', at)
  {
    var e' := AfterGate(e, on);
    assert TargetOk(e, on);
    forall at | at in e'.cfg ensures TargetOk(e', at) {
      assert TargetOk(e, at);
      GateTarget(e, on, at);
    }
  }

  lemma GateSimulations(e: Engine, on: Target)
    requires Enabled(e, Gate(on)) && e.workers[on].id !in e.simulations && NoDuplicates(e.simulations)
    ensures NoDuplicates(AfterGate(e, on).simulations)
  {
  }

  lemma GateTask(e: Engine, on: Target, id: TaskId)
    requires Enabled(e, Gate(on))
    requires id in AfterGate(e, on).tasks && (id in e.tasks ==> TaskOk(e, id))
    requires e.tasks[e.workers[on].id].target == on && TaskOk(e, e.workers[on].id)
    ensures TaskOk(AfterGate(e, on), id)
  {
  }

  lemma GateTarget(e: Engine, on: Target, at: Target)
    requires Enabled(e, Gate(on))
    requires at in e.pools && at in e.workers && TargetOk(e, at)
    ensures TargetOk(AfterGate(e, on), at)
  {
  }

  lemma FinishKeeps(e: Engine, on: Target, now: real)
    requires Inv(e) && Enabled(e, Finish(on, now))
    ensures Inv(AfterFinish(e, on, now))
  {
    var e' := AfterFinish(e, on, now);
    assert TargetOk(e, on) && TaskOk(e, e.workers[on].id);
    forall id | id in e'.tasks ensures TaskOk(e', id) {
      assert id in e.tasks ==> TaskOk(e, id);
      FinishTask(e, on, now, id);
    }
    FinishKeepsTargets(e, on, now);
    forall k | k in e'.byKey ensures KeyOk(e', k) {
      assert k in e.byKey ==> KeyOk(e, k);
    }
  }

  lemma FinishKeepsTargets(e: Engine, on: Target, now: real)
    requires Inv(e) && Enabled(e, Finish(on, now))
    ensures var e' := AfterFinish(e, on, now);
            e'.pools.Keys == e'.workers.Keys == e'.cfg.Keys && forall at :: at in e'.cfg ==> TargetOk(e', at)
  {
    var e' := AfterFinish(e, on, now);
    assert TargetOk(e, on);
    forall at | at in e'.cfg ensures TargetOk(e', at) {
      assert TargetOk(e, at);
      FinishTarget(e, on, now, at);
    }
  }

  lemma FinishTask(e: Engine, on: Target, now: real, id: TaskId)
    requires Enabled(e, Finish(on, now))
    requires id in AfterFinish(e, on, now).tasks && (id in e.tasks ==> TaskOk(e, id))
    requires e.tasks[e.workers[on].id].target == on && TaskOk(e, e.workers[on].id)
    ensures TaskOk(AfterFinish(e, on, now), id)
  {
  }

  lemma FinishTarget(e: Engine, on: Target, now: real, at: Target)
    requires Enabled(e, Finish(on, now))
    requires at in e.pools && at in e.workers && TargetOk(e, at)
    ensures TargetOk(AfterFinish(e, on, now), at)
  {
  }

  lemma CancelKeeps(e: Engine, task: TaskId, now: real)
    requires Inv(e)
    ensures Inv(AfterCancel(e, task, now))
  {
    var e' := AfterCancel(e, task, now);
    forall id | id in e'.tasks ensures TaskOk(e', id) {
      assert id in e.tasks ==> TaskOk(e, id);
      CancelTask(e, task, now, id);
    }
    forall at | at in e'.cfg ensures TargetOk(e', at) {
      assert TargetOk(e, at);
      CancelTarget(e, task, now, at);
    }
    forall k | k in e'.byKey ensures KeyOk(e', k) {
      assert k in e.byKey ==> KeyOk(e, k);
    }
  }

  lemma CancelTask(e: Engine, task: TaskId, now: real, id: TaskId)
    requires id in AfterCancel(e, task, now).tasks && (id in e.tasks ==> TaskOk(e, id))
    ensures TaskOk(AfterCancel(e, task, now), id)
  {
  }

  lemma CancelTarget(e: Engine, task: TaskId, now: real, at: Target)
    requires at in e.pools && at in e.workers && TargetOk(e, at)
    ensures TargetOk(AfterCancel(e, task, now), at)
  {
  }

  /** Every lock region keeps the invariant. */
  lemma StepKeeps(e: Engine, s: Step)
    requires Inv(e) && Enabled(e, s)
    ensures Inv(Apply(e, s))
  {
    match s
    case Submit(target, key, payload, precheck, id, now) => SubmitKeeps(e, target, key, payload, precheck, id, now);
    case Begin(on, now) => BeginKeeps(e, on, now);
    case ParseFails(on, category) => OutcomeKeeps(e, on, Errored(category));
    case Gate(on) => GateKeeps(e, on);
    case SimulationEnds(on, outcome) => OutcomeKeeps(e, on, outcome);
    case Finish(on, now) => FinishKeeps(e, on, now);
    case Cancel(task, now) => CancelKeeps(e, task, now);
  }

  // ---- progress ----

  /** What one task may become: forward-only states, terminal immutable, timestamps monotone. */
  ghost predicate TaskAdvances(t: Task, t': Task) {
    && t'.target == t.target && t'.key == t.key && t'.shots == t.shots
    && (t'.state == t.state || Level(t.state) < Level(t'.state))
    && (Terminal(t.state) ==> t' == t)
    && t.updatedAt <= t'.updatedAt
    && (t.cancelRequested ==> t'.cancelRequested)
  }

  ghost predicate Advances(e: Engine, e': Engine) {
    && (forall id :: id in e.tasks ==> id in e'.tasks && TaskAdvances(e.tasks[id], e'.tasks[id]))
    && (forall k :: k in e.byKey ==> k in e'.byKey && e'.byKey[k] == e.byKey[k])
    && e.simulations <= e'.simulations
  }

  lemma StepAdvancesTask(e: Engine, s: Step, id: TaskId)
    requires Enabled(e, s) && id in e.tasks
    requires s.Finish? ==> e.tasks[e.workers[s.on].id].state == Running
    ensures id in Apply(e, s).tasks && TaskAdvances(e.tasks[id], Apply(e, s).tasks[id])
  {
    match s
    case Submit(target, key, payload, precheck, newId, now) =>
    case Begin(on, now) =>
      assert e.tasks[e.pools[on][0]].state == Queued ==>
               TaskAdvances(e.tasks[e.pools[on][0]], Touch(e.tasks[e.pools[on][0]].(state := Running), now));
    case Finish(on, now) => ConcludeAdvances(e.tasks[e.workers[on].id], e.workers[on].outcome, now);
    case Cancel(task, now) =>
    case _ =>
  }

  lemma ConcludeAdvances(t: Task, o: Outcome, now: real)
    requires t.state == Running
    ensures TaskAdvances(t, Conclude(t, o, now))
  {
  }

  lemma StepAdvances(e: Engine, s: Step)
    requires Inv(e) && Enabled(e, s)
    ensures Advances(e, Apply(e, s))
  {
    if s.Finish? {
      assert TargetOk(e, s.on) && TaskOk(e, e.workers[s.on].id);
    }
    forall id | id in e.tasks ensures id in Apply(e, s).tasks && TaskAdvances(e.tasks[id], Apply(e, s).tasks[id]) {
      StepAdvancesTask(e, s, id);
    }
    StepAdvancesKeys(e, s);
  }

  lemma StepAdvancesKeys(e: Engine, s: Step)
    requires Enabled(e, s)
    ensures forall k :: k in e.byKey ==> k in Apply(e, s).byKey && Apply(e, s).byKey[k] == e.byKey[k]
    ensures e.simulations <= Apply(e, s).simulations
  {
  }

  lemma AdvancesTransitive(a: Engine, b: Engine, c: Engine)
    requires Advances(a, b) && Advances(b, c)
    ensures Advances(a, c)
  {
  }

  // ---- runs ----

  ghost predicate Linked(run: seq<Engine>, i: nat)
    requires i + 1 < |run|
  {
    Next(run[i], run[i + 1])
  }

  ghost predicate IsRun(run: seq<Engine>) {
    run != [] && Init(run[0]) && forall i: nat :: i + 1 < |run| ==> Linked(run, i)
  }

  lemma StepInto(run: seq<Engine>, i: nat) returns (s: Step)
    requires IsRun(run) && 0 < i < |run|
    ensures Enabled(run[i - 1], s) && run[i] == Apply(run[i - 1], s)
  {
    assert Linked(run, i - 1);
    s :| Enabled(run[i - 1], s) && run[i] == Apply(run[i - 1], s);
  }

  lemma {:induction false} RunInvariant(run: seq<Engine>, i: nat)
    requires IsRun(run) && i < |run|
    ensures Inv(run[i])
  {
    if i == 0 {
      InitInv(run[0]);
    } else {
      RunInvariant(run, i - 1);
      var s := StepInto(run, i);
      StepKeeps(run[i - 1], s);
    }
  }

  /** Over every interleaving, tasks only advance and terminal tasks never change. */
  lemma {:induction false} RunAdvances(run: seq<Engine>, i: nat, k: nat)
    requires IsRun(run) && i <= k < |run|
    ensures Advances(run[i], run[k])
  {
    if i < k {
      RunAdvances(run, i, k - 1);
      RunInvariant(run, k - 1);
      var s := StepInto(run, k);
      StepAdvances(run[k - 1], s);
      AdvancesTransitive(run[i], run[k - 1], run[k]);
    }
  }

  /** Usage and a result exist exactly when a task has succeeded, and no idempotency key is simulated twice. */
  lemma RunsAreBilledOnce(run: seq<Engine>, i: nat)
    requires IsRun(run) && i < |run|
    ensures forall id :: id in run[i].tasks ==> WellFormed(run[i].tasks[id])
    ensures forall m, n :: 0 <= m < n < |run[i].simulations| ==>
              DifferentKeys(run[i], run[i].simulations[m], run[i].simulations[n])
  {
    RunInvariant(run, i);
    var e := run[i];
    forall id | id in e.tasks ensures WellFormed(e.tasks[id]) {
      assert TaskOk(e, id);
    }
    forall m, n | 0 <= m < n < |e.simulations| ensures DifferentKeys(e, e.simulations[m], e.simulations[n]) {
      assert TaskOk(e, e.simulations[m]) && TaskOk(e, e.simulations[n]);
    }
  }

  ghost predicate DifferentKeys(e: Engine, a: TaskId, b: TaskId) {
    a in e.tasks && b in e.tasks && (e.tasks[a].target, e.tasks[a].key) != (e.tasks[b].target, e.tasks[b].key)
  }

  ghost predicate CancelledUnrun(e: Engine, id: TaskId) {
    id in e.tasks && e.tasks[id].state == Cancelled && e.tasks[id].usage == [] && id !in e.simulations
  }

  lemma CancelledUnrunStable(e: Engine, s: Step, id: TaskId)
    requires Inv(e) && Enabled(e, s) && CancelledUnrun(e, id)
    ensures CancelledUnrun(Apply(e, s), id)
  {
    StepAdvances(e, s);
    assert TaskOk(e, id);
    if s.Gate? {
      assert TargetOk(e, s.on) && TaskOk(e, e.workers[s.on].id);
    }
  }

  lemma CancelQueued(e: Engine, id: TaskId, now: real)
    requires Inv(e) && id in e.tasks && e.tasks[id].state == Queued
    ensures CancelledUnrun(AfterCancel(e, id, now), id)
  {
  }

  lemma CancelledUnrunNext(e: Engine, e': Engine, id: TaskId)
    requires Inv(e) && Next(e, e') && CancelledUnrun(e, id)
    ensures CancelledUnrun(e', id)
  {
    var s :| Enabled(e, s) && e' == Apply(e, s);
    CancelledUnrunStable(e, s, id);
  }

  lemma {:induction false} CancelledUnrunStays(run: seq<Engine>, i: nat, id: TaskId, k: nat)
    requires IsRun(run) && i <= k < |run| && CancelledUnrun(run[i], id)
    ensures CancelledUnrun(run[k], id)
  {
    if i < k {
      CancelledUnrunStays(run, i, id, k - 1);
      RunInvariant(run, k - 1);
      assert Linked(run, k - 1);
      CancelledUnrunNext(run[k - 1], run[k], id);
    }
  }

  /** A task cancelled while queued is never executed and never billed, however the run continues. */
  lemma CancelledWhileQueuedNeverRuns(run: seq<Engine>, i: nat, id: TaskId, now: real, k: nat)
    requires IsRun(run) && i < k < |run|
    requires id in run[i].tasks && run[i].tasks[id].state == Queued
    requires run[i + 1] == AfterCancel(run[i], id, now)
    ensures CancelledUnrun(run[k], id)
  {
    RunInvariant(run, i);
    CancelQueued(run[i], id, now);
    CancelledUnrunStays(run, i + 1, id, k);
  }

  // ---- what a task becomes ----

  /** A new task is queued exactly when the payload passed every check; otherwise it has failed at once. */
  lemma AdmittedIff(e: Engine, target: Target, key: Key, p: Payload, precheck: Option<Category>, id: TaskId, now: real)
    requires target in e.cfg && (target, key) !in e.byKey && id !in e.tasks
    ensures var t := AfterSubmit(e, target, key, p, precheck, id, now).tasks[id];
            && t.target == target && t.key == key && t.shots == p.shots && !t.cancelRequested
            && (t.state == Queued <==>
                  && precheck.None? && p.format in e.cfg[target].programFormats && p.shots <= e.cfg[target].maxShots
                  && p.size <= 4 * 1024 * 1024)
            && (t.state != Queued ==>
                  t.state == Failed && t.error.Some?
                  && (precheck.Some? ==> t.error == precheck)
                  && (precheck.None? ==> (t.error == Some(InvalidProgram) <==>
                        p.format in e.cfg[target].programFormats && p.shots <= e.cfg[target].maxShots)))
  {
  }

  /** A finished run ends as its outcome says: billed and with its counts, failed with its category, or cancelled. */
  lemma OutcomeDecides(e: Engine, on: Target, now: real)
    requires Inv(e) && Enabled(e, Finish(on, now))
    ensures var id, o := e.workers[on].id, e.workers[on].outcome;
            var t := AfterFinish(e, on, now).tasks[id];
            && (o.Simulated? ==> t.state == Succeeded && t.result == Some(o.counts)
                                 && t.usage == [Usage("shots", e.tasks[id].shots as real), Usage("tasks", 1.0)])
            && (o.Errored? ==> t.state == Failed && t.error == Some(o.category) && t.usage == [])
            && (o.CancelSeen? ==> t.state == Cancelled && t.usage == [])
  {
    assert TargetOk(e, on) && TaskOk(e, e.workers[on].id);
  }

  /** The instant of a step that has one. */
  function InstantOf(s: Step): Option<real> {
    match s
    case Begin(_, now) => Some(now)
    case Finish(_, now) => Some(now)
    case Cancel(_, now) => Some(now)
    case _ => None
  }

  /** Stamped with that instant, or keeping a later stamp. */
  predicate Stamped(t: Task, t': Task, now: real) {
    t'.updatedAt == if now >= t.updatedAt then now else t.updatedAt
  }

  lemma ConclusionIsStamped(t: Task, o: Outcome, now: real)
    ensures Conclude(t, o, now).state != t.state ==> Stamped(t, Conclude(t, o, now), now)
  {
  }

  /** Whenever a task's state changes it is stamped. */
  lemma StateChangesAreStamped(e: Engine, s: Step, id: TaskId)
    requires Enabled(e, s) && id in e.tasks && id in Apply(e, s).tasks
    requires Apply(e, s).tasks[id].state != e.tasks[id].state
    ensures InstantOf(s).Some? && Stamped(e.tasks[id], Apply(e, s).tasks[id], InstantOf(s).value)
  {
    if s.Finish? {
      ConclusionIsStamped(e.tasks[id], e.workers[s.on].outcome, s.now);
    }
  }

  /** The cancel flag is up and the simulation has not started. */
  ghost predicate Flagged(e: Engine, id: TaskId) {
    id in e.tasks && e.tasks[id].cancelRequested && id !in e.simulations
  }

  lemma FlaggedStays(e: Engine, s: Step, id: TaskId)
    requires Inv(e) && Enabled(e, s) && Flagged(e, id)
    ensures Flagged(Apply(e, s), id)
  {
    StepAdvances(e, s);
  }

  /** A cancel that comes before the last look at the flag prevents the simulation. */
  lemma {:induction false} CancelBeforeTheGate(run: seq<Engine>, i: nat, k: nat, id: TaskId)
    requires IsRun(run) && i <= k < |run| && Flagged(run[i], id)
    ensures Flagged(run[k], id)
  {
    if i < k {
      CancelBeforeTheGate(run, i, k - 1, id);
      RunInvariant(run, k - 1);
      var s := StepInto(run, k);
      FlaggedStays(run[k - 1], s, id);
    }
  }

  // ---- first come, first served ----

  ghost predicate Precedes(pool: seq<TaskId>, x: TaskId, y: TaskId) {
    exists a, b :: 0 <= a < b < |pool| && pool[a] == x && pool[b] == y
  }

  /** While x waits on its target, the task y is unknown, waits behind it, or has ended without being simulated. */
  ghost predicate Behind(e: Engine, on: Target, x: TaskId, y: TaskId) {
    on in e.pools && x in e.pools[on] ==>
      && x in e.tasks && x != y
      && (y in e.tasks && e.tasks[y].target == on ==>
            y !in e.simulations && (Precedes(e.pools[on], x, y) || Terminal(e.tasks[y].state)))
  }

  lemma PrecedesAppend(pool: seq<TaskId>, x: TaskId, y: TaskId, z: TaskId)
    requires Precedes(pool, x, y) || (x in pool && z == y)
    ensures Precedes(pool + [z], x, y)
  {
    var q := pool + [z];
    if Precedes(pool, x, y) {
      var a, b :| 0 <= a < b < |pool| && pool[a] == x && pool[b] == y;
      assert q[a] == x && q[b] == y;
    } else {
      var a :| 0 <= a < |pool| && pool[a] == x;
      assert q[a] == x && q[|pool|] == y;
    }
  }

  lemma PrecedesTail(pool: seq<TaskId>, x: TaskId, y: TaskId)
    requires NoDuplicates(pool) && Precedes(pool, x, y) && x in pool[1..]
    ensures pool[0] != y && Precedes(pool[1..], x, y)
  {
    var a, b :| 0 <= a < b < |pool| && pool[a] == x && pool[b] == y;
    var c :| 0 <= c < |pool[1..]| && pool[1..][c] == x;
    assert pool[c + 1] == x && c + 1 == a;
    assert pool[1..][a - 1] == x && pool[1..][b - 1] == y;
  }

  lemma SubmitKeepsBehind(e: Engine, s: Step, on: Target, x: TaskId, y: TaskId)
    requires s.Submit? && Enabled(e, s) && Behind(e, on, x, y) && x in e.tasks
    requires y !in e.tasks ==> y !in e.simulations
    requires e.cfg.Keys == e.pools.Keys && (on in e.pools ==> forall id :: id in e.pools[on] ==> id in e.tasks)
    ensures Behind(Apply(e, s), on, x, y)
  {
    if on in e.pools && x in e.pools[on] && s.target == on {
      if s.id == y || Precedes(e.pools[on], x, y) {
        PrecedesAppend(e.pools[on], x, y, s.id);
      }
    }
  }

  lemma BeginKeepsBehind(e: Engine, s: Step, on: Target, x: TaskId, y: TaskId)
    requires s.Begin? && Enabled(e, s) && TargetOk(e, s.on) && Behind(e, on, x, y)
    ensures Behind(Apply(e, s), on, x, y)
  {
    if s.on == on && x in e.pools[on][1..] {
      assert x in e.pools[on];
      if Precedes(e.pools[on], x, y) {
        PrecedesTail(e.pools[on], x, y);
      }
    }
  }

  lemma OthersKeepBehind(e: Engine, s: Step, on: Target, x: TaskId, y: TaskId)
    requires Inv(e) && !s.Submit? && !s.Begin? && Enabled(e, s) && Behind(e, on, x, y)
    ensures Behind(Apply(e, s), on, x, y)
  {
    if s.Gate? {
      assert TargetOk(e, s.on) && TaskOk(e, e.workers[s.on].id);
    }
    if y in e.tasks {
      StepAdvances(e, s);
      assert TaskOk(e, y);
    }
    if on in e.pools && Precedes(e.pools[on], x, y) {
      assert TaskOk(e, y);
    }
  }

  lemma {:induction false} BehindStays(run: seq<Engine>, i: nat, k: nat, on: Target, x: TaskId, y: TaskId)
    requires IsRun(run) && i <= k < |run| && x in run[i].tasks && Behind(run[i], on, x, y)
    ensures x in run[k].tasks && Behind(run[k], on, x, y)
  {
    if i < k {
      BehindStays(run, i, k - 1, on, x, y);
      RunInvariant(run, k - 1);
      var s := StepInto(run, k);
      StepAdvances(run[k - 1], s);
      match s
      case Submit(_, _, _, _, _, _) =>
        assert on in run[k - 1].pools ==> on in run[k - 1].workers && TargetOk(run[k - 1], on);
        SubmitKeepsBehind(run[k - 1], s, on, x, y);
      case Begin(_, _) =>
        assert TargetOk(run[k - 1], s.on);
        BeginKeepsBehind(run[k - 1], s, on, x, y);
      case _ => OthersKeepBehind(run[k - 1], s, on, x, y);
    }
  }

  /** First come, first served: a task submitted while x waits is not simulated on that target as long as x waits. */
  lemma FirstComeFirstServed(run: seq<Engine>, i: nat, k: nat, on: Target, x: TaskId, y: TaskId)
    requires IsRun(run) && i <= k < |run| && on in run[i].pools && x in run[i].pools[on] && y !in run[i].tasks
    requires on in run[k].pools && x in run[k].pools[on] && y in run[k].tasks && run[k].tasks[y].target == on
    ensures y !in run[k].simulations && run[k].tasks[y].state != Running
  {
    RunInvariant(run, i);
    assert TargetOk(run[i], on);
    BehindStays(run, i, k, on, x, y);
    RunInvariant(run, k);
    assert TargetOk(run[k], on) && TaskOk(run[k], y);
    if Precedes(run[k].pools[on], x, y) {
      assert y in run[k].pools[on];
    }
  }

  // ---- watch ----

  ghost predicate Monotone(obs: seq<Task>) {
    forall i, k :: 0 <= i < k < |obs| ==> TaskAdvances(obs[i], obs[k])
  }

  /** What a watcher sees of one task at any non-decreasing instants of a run is monotone. */
  lemma ObservationsAreMonotone(run: seq<Engine>, at: seq<nat>, id: TaskId)
    requires IsRun(run) && (forall m :: 0 <= m < |at| ==> at[m] < |run| && id in run[at[m]].tasks)
    requires forall m, n :: 0 <= m < n < |at| ==> at[m] <= at[n]
    ensures Monotone(seq(|at|, m requires 0 <= m < |at| => run[at[m]].tasks[id]))
  {
    forall m, n | 0 <= m < n < |at| ensures TaskAdvances(run[at[m]].tasks[id], run[at[n]].tasks[id]) {
      RunAdvances(run, at[m], at[n]);
    }
  }

  /**
   watch: from what the loop sees each time it holds the lock, yield a copy on every change of state and stop
   after a terminal one.
   */
  method Watch(obs: seq<Task>) returns (sent: seq<Task>)
    requires Monotone(obs)
    ensures From(sent, obs, |obs|) && StrictlyAdvancing(sent)
    ensures forall m :: 0 <= m < |sent| - 1 ==> !Terminal(sent[m].state)
    ensures forall i :: 0 <= i < |obs| ==> Reported(sent, obs[i].state)
  {
    sent := [];
    var last: Option<TaskState> := None;
    for i := 0 to |obs|
      invariant last == if sent == [] then None else Some(sent[|sent| - 1].state)
      invariant Caught(sent, obs, i) && forall m :: 0 <= m < |sent| ==> !Terminal(sent[m].state)
    {
      var task := obs[i];
      if last != Some(task.state) {
        WatchSend(obs, i, sent);
        last := Some(task.state);
        sent := sent + [task];
        if Terminal(task.state) {
          SettledAfter(obs, i, sent);
          return;
        }
      }
    }
  }

  /** Everything sent was observed before i and is strictly advancing, and every state observed before i was sent. */
  ghost predicate Caught(sent: seq<Task>, obs: seq<Task>, i: nat) {
    From(sent, obs, i) && StrictlyAdvancing(sent) && forall k :: 0 <= k < i ==> Reported(sent, obs[k].state)
  }

  lemma WatchSend(obs: seq<Task>, i: nat, sent: seq<Task>)
    requires Monotone(obs) && i < |obs| && Caught(sent, obs, i)
    requires sent != [] ==> sent[|sent| - 1].state != obs[i].state
    ensures Caught(sent + [obs[i]], obs, i + 1)
  {
    WatchStep(obs, i, sent);
    ReportedGrows(sent, obs[i]);
  }

  /** Everything sent was observed before i. */
  ghost predicate From(sent: seq<Task>, obs: seq<Task>, i: nat) {
    i <= |obs| && forall m :: 0 <= m < |sent| ==> sent[m] in obs[..i]
  }

  ghost predicate StrictlyAdvancing(sent: seq<Task>) {
    forall m, n :: 0 <= m < n < |sent| ==>
      Level(sent[m].state) < Level(sent[n].state) && sent[m].updatedAt <= sent[n].updatedAt
  }

  ghost predicate Reported(sent: seq<Task>, s: TaskState) {
    exists m :: 0 <= m < |sent| && sent[m].state == s
  }

  lemma ReportedGrows(sent: seq<Task>, t: Task)
    ensures Reported(sent + [t], t.state) && forall s :: Reported(sent, s) ==> Reported(sent + [t], s)
  {
    var r := sent + [t];
    assert r[|sent|].state == t.state;
    forall s | Reported(sent, s) ensures Reported(r, s) {
      var m :| 0 <= m < |sent| && sent[m].state == s;
      assert r[m].state == s;
    }
  }

  /** Nothing observed after a terminal state differs from it. */
  lemma SettledAfter(obs: seq<Task>, i: nat, sent: seq<Task>)
    requires Monotone(obs) && i < |obs| && Terminal(obs[i].state) && Caught(sent, obs, i + 1)
    ensures Caught(sent, obs, |obs|)
  {
  }

  /** A state other than the last yielded one is later than everything yielded. */
  lemma WatchStep(obs: seq<Task>, i: nat, sent: seq<Task>)
    requires Monotone(obs) && i < |obs|
    requires From(sent, obs, i) && StrictlyAdvancing(sent)
    requires sent != [] ==> sent[|sent| - 1].state != obs[i].state
    ensures StrictlyAdvancing(sent + [obs[i]]) && From(sent + [obs[i]], obs, i + 1)
  {
  }

  // ---- the engine object ----

  class TaskEngine {
    const cfg: map<Target, TargetConfig>
    var tasks: map<TaskId, Task>
    var byKey: map<(Target, Key), TaskId>
    var pools: map<Target, seq<TaskId>>
    var workers: map<Target, Worker>
    ghost var simulations: seq<TaskId>

    ghost function Abs(): Engine
      reads this
    {
      Engine(cfg, tasks, byKey, pools, workers, simulations)
    }

    constructor (cfg: map<Target, TargetConfig>)
      ensures this.cfg == cfg && Init(Abs()) && Inv(Abs())
    {
      this.cfg := cfg;
      tasks, byKey, simulations := map[], map[], [];
      pools := map t | t in cfg :: [];
      workers := map t | t in cfg :: Idle;
    }

    method Submit(target: Target, key: Key, payload: Payload, precheck: Option<Category>, newId: TaskId, now: real)
      returns (id: TaskId)
      requires Inv(Abs()) && target in cfg && newId !in tasks
      modifies this
      ensures Abs() == AfterSubmit(old(Abs()), target, key, payload, precheck, newId, now) && Inv(Abs())
      ensures (target, key) in byKey && id == byKey[(target, key)]
      ensures (target, key) in old(byKey) ==> id == old(byKey)[(target, key)] && Abs() == old(Abs())
    {
      ghost var e := Abs();
      if (target, key) in byKey {
        return byKey[(target, key)];
      }
      var err := if precheck.Some? then precheck else AdmissionError(cfg[target], payload);
      var state := if err.Some? then Failed else Queued;
      tasks := tasks[newId := Task(target, key, payload.shots, state, err, None, [], now, false)];
      byKey := byKey[(target, key) := newId];
      if state == Queued {
        pools := pools[target := pools[target] + [newId]];
      }
      id := newId;
      assert Abs() == AfterSubmit(e, target, key, payload, precheck, newId, now);
      assert Inv(Abs()) by {
        SubmitKeeps(e, target, key, payload, precheck, newId, now);
      }
    }

    /** First lock region of _run, on the worker thread of `on`. */
    method BeginRun(on: Target, now: real)
      requires Inv(Abs()) && on in workers && workers[on].Idle? && pools[on] != []
      modifies this
      ensures Enabled(old(Abs()), Begin(on, now))
      ensures Abs() == Apply(old(Abs()), Begin(on, now)) && Inv(Abs())
    {
      ghost var e := Abs();
      assert Enabled(e, Begin(on, now)) by {
        assert TargetOk(e, on);
      }
      var id := pools[on][0];
      pools := pools[on := pools[on][1..]];
      if tasks[id].state == Queued {
        tasks := tasks[id := Touch(tasks[id].(state := Running), now)];
        workers := workers[on := Started(id)];
      }
      assert Abs() == AfterBegin(e, on, now);
      assert Inv(Abs()) by {
        BeginKeeps(e, on, now);
      }
    }

    /** The lock region just before the simulation: true when the simulation may start. */
    method PassGate(on: Target) returns (go: bool)
      requires Inv(Abs()) && on in workers && workers[on].Started?
      modifies this
      ensures Enabled(old(Abs()), Gate(on))
      ensures Abs() == Apply(old(Abs()), Gate(on)) && Inv(Abs())
      ensures go <==> Abs().simulations != old(Abs()).simulations
    {
      ghost var e := Abs();
      assert Enabled(e, Gate(on)) by {
        assert TargetOk(e, on);
      }
      var id := workers[on].id;
      if tasks[id].cancelRequested {
        workers := workers[on := Finishing(id, CancelSeen)];
        go := false;
      } else {
        workers := workers[on := Simulating(id)];
        simulations := simulations + [id];
        go := true;
      }
      assert Abs() == AfterGate(e, on);
      assert Inv(Abs()) by {
        GateKeeps(e, on);
      }
    }

    /** Last lock region of _run. */
    method FinishRun(on: Target, now: real)
      requires Inv(Abs()) && on in workers && workers[on].Finishing?
      modifies this
      ensures Enabled(old(Abs()), Finish(on, now))
      ensures Abs() == Apply(old(Abs()), Finish(on, now)) && Inv(Abs())
    {
      assert TargetOk(Abs(), on);
      FinishKeeps(Abs(), on, now);
      var id, outcome := workers[on].id, workers[on].outcome;
      var task := tasks[id];
      if !Terminal(task.state) {
        if task.cancelRequested && outcome.CancelSeen? {
          task := task.(state := Cancelled);
        } else if outcome.Errored? {
          task := task.(state := Failed, error := Some(outcome.category));
        } else {
          task := task.(state := Succeeded, result := (if outcome.Simulated? then Some(outcome.counts) else None),
                        usage := Bill(task.shots));
        }
        task := Touch(task, now);
      }
      tasks := tasks[id := task];
      workers := workers[on := Idle];
    }

    method CancelTask(id: TaskId, now: real) returns (accepted: bool)
      requires Inv(Abs())
      modifies this
      ensures Abs() == AfterCancel(old(Abs()), id, now) && Inv(Abs())
      ensures accepted == CancelAccepted(old(Abs()), id)
    {
      CancelKeeps(Abs(), id, now);
      if id !in tasks || Terminal(tasks[id].state) {
        return false;
      }
      var task := tasks[id].(cancelRequested := true);
      if task.state == Queued {
        task := Touch(task.(state := Cancelled), now);
      }
      tasks := tasks[id := task];
      accepted := true;
    }
  }
}
