/**
 The shared adapter chassis (adapters/qrmi/src/rabi_qrmi/service.py): one task's worker, the backend it
 starts, and any number of concurrent CancelTask calls. Each region under the service lock, and each call
 into the backend, is one step.
 */
module Chassis {
  import opened Common

  type BackendId = nat

  datatype Category = CapabilityMismatch | InvalidProgram | VendorError

  /** Where the worker is: before the last look at the cancel flag, calling start, holding a started id, done. */
  datatype WorkerPc = Waiting | Starting | Launched(id: BackendId) | Finished

  /** One CancelTask call: about to stop the backend, or returned. */
  datatype CancelPc = StopPending(id: BackendId) | Returned(accepted: bool)

  datatype TaskFields = TaskFields(failed: Option<Category>, cancelRequested: bool, cancelledBeforeRun: bool,
                                   backendId: Option<BackendId>)

  datatype State = State(
    task: TaskFields,
    worker: WorkerPc,
    cancels: seq<CancelPc>,
    started: seq<BackendId>,       // history: ids the backend handed out
    stopped: set<BackendId>)       // history: ids on which stop was attempted

  datatype Step =
    | DelayPoll                              // the delay loop looks at the flag
    | StartCheck                             // start() looks at the flag once more
    | StartFails(category: Category)
    | StartReturns(id: BackendId)
    | Record                                 // start() stores the id and honours a pending cancel
    | CancelCall
    | CancelStops(call: nat, ok: bool)

  predicate Enabled(s: State, step: Step) {
    match step
    case DelayPoll => s.worker.Waiting?
    case StartCheck => s.worker.Waiting?
    case StartFails(_) => s.worker.Starting?
    case StartReturns(id) => s.worker.Starting?
    case Record => s.worker.Launched?
    case CancelCall => true
    case CancelStops(call, ok) => call < |s.cancels| && s.cancels[call].StopPending?
  }

  /** CancelTask's lock region: the new fields and the call's next state. */
  function CancelRegion(t: TaskFields): (TaskFields, CancelPc) {
    if t.failed.Some? || t.cancelledBeforeRun then (t, Returned(false))
    else
      (t.(cancelRequested := true), if t.backendId.None? then Returned(true) else StopPending(t.backendId.value))
  }

  function Apply(s: State, step: Step): State
    requires Enabled(s, step)
  {
    match step
    case DelayPoll =>
      if s.task.cancelRequested then s.(task := s.task.(cancelledBeforeRun := true), worker := Finished) else s
    case StartCheck =>
      if s.task.cancelRequested then s.(task := s.task.(cancelledBeforeRun := true), worker := Finished)
      else s.(worker := Starting)
    case StartFails(category) => s.(task := s.task.(failed := Some(category)), worker := Finished)
    case StartReturns(id) => s.(worker := Launched(id), started := s.started + [id])
    case Record =>
      var id := s.worker.id;
      s.(task := s.task.(backendId := Some(id)), worker := Finished,
         stopped := if s.task.cancelRequested then s.stopped + {id} else s.stopped)
    case CancelCall =>
      var (task, pc) := CancelRegion(s.task);
      s.(task := task, cancels := s.cancels + [pc])
    case CancelStops(call, ok) =>
      s.(cancels := s.cancels[call := Returned(ok)], stopped := s.stopped + {s.cancels[call].id})
  }

  ghost predicate Init(s: State) {
    s == State(TaskFields(None, false, false, None), Waiting, [], [], {})
  }

  ghost predicate Next(s: State, s': State) {
    exists step :: Enabled(s, step) && s' == Apply(s, step)
  }

  // ---- the invariant ----

  function Marks(t: TaskFields): nat {
    (if t.failed.Some? then 1 else 0) + (if t.cancelledBeforeRun then 1 else 0) + (if t.backendId.Some? then 1 else 0)
  }

  /** How a cancelled task ended: never started, failed to start, or stopped on the backend. */
  ghost predicate CancelHonoured(s: State) {
    || (s.task.cancelledBeforeRun && s.started == [])
    || (s.task.failed.Some? && s.started == [])
    || (s.task.backendId.Some? && s.task.backendId.value in s.stopped)
  }

  ghost predicate CallOk(s: State, c: CancelPc) {
    match c
    case StopPending(id) => s.task.cancelRequested && s.task.backendId == Some(id)
    case Returned(accepted) => accepted ==> s.task.cancelRequested && (s.worker.Finished? ==> CancelHonoured(s))
  }

  ghost predicate Inv(s: State) {
    && (!s.worker.Finished? ==> Marks(s.task) == 0)
    && (s.worker.Finished? ==> Marks(s.task) == 1)
    && s.started == (if s.worker.Launched? then [s.worker.id]
                     else if s.task.backendId.Some? then [s.task.backendId.value]
                     else [])
    && (forall i :: 0 <= i < |s.cancels| ==> CallOk(s, s.cancels[i]))
  }

  lemma StepKeeps(s: State, step: Step)
    requires Inv(s) && Enabled(s, step)
    ensures Inv(Apply(s, step))
  {
  }

  // ---- runs ----

  ghost predicate Linked(run: seq<State>, i: nat)
    requires i + 1 < |run|
  {
    Next(run[i], run[i + 1])
  }

  ghost predicate IsRun(run: seq<State>) {
    run != [] && Init(run[0]) && forall i: nat :: i + 1 < |run| ==> Linked(run, i)
  }

  lemma {:induction false} RunInvariant(run: seq<State>, i: nat)
    requires IsRun(run) && i < |run|
    ensures Inv(run[i])
  {
    if i > 0 {
      RunInvariant(run, i - 1);
      assert Linked(run, i - 1);
      var step :| Enabled(run[i - 1], step) && run[i] == Apply(run[i - 1], step);
      StepKeeps(run[i - 1], step);
    }
  }

  /**
   No accepted cancel is lost: once the worker has finished, every call that returned accepted found a task
   that was never started, failed to start, or had stop attempted on its backend id.
   */
  lemma NoAcceptedCancelLost(run: seq<State>, i: nat, call: nat)
    requires IsRun(run) && i < |run| && run[i].worker.Finished?
    requires call < |run[i].cancels| && run[i].cancels[call] == Returned(true)
    ensures CancelHonoured(run[i])
  {
    RunInvariant(run, i);
    assert CallOk(run[i], run[i].cancels[call]);
  }

  /** At most one of failed, cancelled-before-run and backend id is ever set, exactly one once the worker is done. */
  lemma OneConclusion(run: seq<State>, i: nat)
    requires IsRun(run) && i < |run|
    ensures Marks(run[i].task) == (if run[i].worker.Finished? then 1 else 0)
    ensures |run[i].started| <= 1
  {
    RunInvariant(run, i);
  }

  // ---- reported status ----

  datatype TaskState = Queued | Running | Succeeded | Failed | Cancelled

  /** _status: a local conclusion wins, otherwise the backend is asked. */
  function Status(t: TaskFields, backend: BackendId -> TaskState): TaskState {
    if t.failed.Some? then Failed
    else if t.cancelledBeforeRun then Cancelled
    else if t.backendId.None? then Queued
    else backend(t.backendId.value)
  }

  /**
   What a watcher is told as the worker goes on: QUEUED until it has finished, then FAILED if the start failed,
   CANCELLED if a look at the flag found it set, and what the backend says once its id is stored.
   */
  lemma StatusFollows(s: State, step: Step, backend: BackendId -> TaskState)
    requires Inv(s) && Enabled(s, step)
    ensures !s.worker.Finished? ==> Status(s.task, backend) == Queued
    ensures step.StartFails? ==> Status(Apply(s, step).task, backend) == Failed
    ensures step.DelayPoll? || step.StartCheck? ==>
              Status(Apply(s, step).task, backend) == if s.task.cancelRequested then Cancelled else Queued
    ensures step.Record? ==> Status(Apply(s, step).task, backend) == backend(s.worker.id)
  {
  }

  /**
   The answer to CancelTask: refused exactly when the worker has finished without a backend task, accepted at once while
   it has not finished, and otherwise left to stopping that task. Every call but a refused one sets the flag.
   */
  lemma CancelAnswer(s: State)
    requires Inv(s)
    ensures var s' := Apply(s, CancelCall);
            && |s'.cancels| == |s.cancels| + 1
            && s'.cancels[|s.cancels|] ==
               (if !s.worker.Finished? then Returned(true)
                else if s.started == [] then Returned(false)
                else StopPending(s.started[0]))
            && s'.task.cancelRequested == (s.task.cancelRequested || s'.cancels[|s.cancels|] != Returned(false))
            && s'.worker == s.worker && s'.started == s.started
  {
  }

  lemma UnstartedStays(s: State, step: Step)
    requires Inv(s) && Enabled(s, step) && s.task.cancelRequested && s.started == []
    requires s.worker.Waiting? || s.worker.Finished?
    ensures var s' := Apply(s, step);
            s'.task.cancelRequested && s'.started == [] && (s'.worker.Waiting? || s'.worker.Finished?)
  {
  }

  /** A cancel accepted before the worker calls the backend means that the backend is never started. */
  lemma {:induction false} EarlyCancelNeverStarts(run: seq<State>, i: nat, k: nat)
    requires IsRun(run) && i <= k < |run| && run[i].worker.Waiting? && run[i].task.cancelRequested
    ensures run[k].task.cancelRequested && run[k].started == [] && (run[k].worker.Waiting? || run[k].worker.Finished?)
  {
    RunInvariant(run, i);
    if i < k {
      EarlyCancelNeverStarts(run, i, k - 1);
      RunInvariant(run, k - 1);
      assert Linked(run, k - 1);
      var step :| Enabled(run[k - 1], step) && run[k] == Apply(run[k - 1], step);
      UnstartedStays(run[k - 1], step);
    }
  }

  lemma FieldsAreFinal(s: State, step: Step)
    requires Inv(s) && Enabled(s, step) && s.worker.Finished?
    ensures var t, t' := s.task, Apply(s, step).task;
            t'.failed == t.failed && t'.cancelledBeforeRun == t.cancelledBeforeRun && t'.backendId == t.backendId
    ensures Apply(s, step).worker.Finished?
  {
  }

  /**
   Terminal statuses are immutable from the worker's end on, given a backend whose terminal statuses are:
   what a watcher sees later can only differ where the backend's own status does.
   */
  lemma {:induction false} ConclusionIsFinal(run: seq<State>, i: nat, k: nat, backend: BackendId -> TaskState)
    requires IsRun(run) && i <= k < |run| && run[i].worker.Finished?
    ensures run[k].worker.Finished? && Status(run[k].task, backend) == Status(run[i].task, backend)
  {
    if i < k {
      ConclusionIsFinal(run, i, k - 1, backend);
      RunInvariant(run, k - 1);
      assert Linked(run, k - 1);
      var step :| Enabled(run[k - 1], step) && run[k] == Apply(run[k - 1], step);
      FieldsAreFinal(run[k - 1], step);
    }
  }

  // ---- the task object ----

  /** The fields of a task; where its worker and the cancel calls stand, and the backend's history, are ghost. */
  class ChassisTask {
    var failed: Option<Category>
    var cancelRequested: bool
    var cancelledBeforeRun: bool
    var backendId: Option<BackendId>
    ghost var worker: WorkerPc
    ghost var cancels: seq<CancelPc>
    ghost var started: seq<BackendId>
    ghost var stopped: set<BackendId>

    ghost function Abs(): State
      reads this
    {
      State(TaskFields(failed, cancelRequested, cancelledBeforeRun, backendId), worker, cancels, started, stopped)
    }

    constructor ()
      ensures Init(Abs()) && Inv(Abs())
    {
      failed, cancelRequested, cancelledBeforeRun, backendId := None, false, false, None;
      worker, cancels, started, stopped := Waiting, [], [], {};
    }

    /** One look of the delay loop at the flag: true ends the task before it runs. */
    method PollDelay() returns (ended: bool)
      requires Inv(Abs()) && worker.Waiting?
      modifies this
      ensures Abs() == Apply(old(Abs()), DelayPoll) && Inv(Abs())
      ensures ended <==> worker.Finished?
    {
      StepKeeps(Abs(), DelayPoll);
      if cancelRequested {
        cancelledBeforeRun := true;
        worker := Finished;
        return true;
      }
      return false;
    }

    /** The first lock region of start(): false when the task was cancelled and the backend must not be started. */
    method EnterStart() returns (proceed: bool)
      requires Inv(Abs()) && worker.Waiting?
      modifies this
      ensures Abs() == Apply(old(Abs()), StartCheck) && Inv(Abs())
      ensures proceed <==> worker.Starting?
    {
      StepKeeps(Abs(), StartCheck);
      if cancelRequested {
        cancelledBeforeRun := true;
        worker := Finished;
        return false;
      }
      worker := Starting;
      return true;
    }

    /** The backend has started the task, outside the lock: until RecordStarted nobody else knows the id. */
    ghost method BackendStarts(id: BackendId)
      requires Inv(Abs()) && worker.Starting?
      modifies this
      ensures Abs() == Apply(old(Abs()), StartReturns(id)) && Inv(Abs())
    {
      StepKeeps(Abs(), StartReturns(id));
      worker, started := Launched(id), started + [id];
    }

    /** The second lock region of start(): stores the id and says whether stop must be attempted under the same lock. */
    method RecordStarted(id: BackendId) returns (stop: bool)
      requires Inv(Abs()) && worker == Launched(id)
      modifies this
      ensures Abs() == Apply(old(Abs()), Record) && Inv(Abs())
      ensures stop <==> cancelRequested
    {
      StepKeeps(Abs(), Record);
      backendId := Some(id);
      stop := cancelRequested;
      if stop {
        stopped := stopped + {id};
      }
      worker := Finished;
    }

    /** start() could not start the backend. */
    method RecordFailure(category: Category)
      requires Inv(Abs()) && worker.Starting?
      modifies this
      ensures Abs() == Apply(old(Abs()), StartFails(category)) && Inv(Abs())
    {
      StepKeeps(Abs(), StartFails(category));
      failed := Some(category);
      worker := Finished;
    }

    /** CancelTask's lock region: the answer, or the backend id the caller has to stop first. */
    method RequestCancel() returns (pc: CancelPc)
      requires Inv(Abs())
      modifies this
      ensures Abs() == Apply(old(Abs()), CancelCall) && Inv(Abs())
      ensures cancels == old(cancels) + [pc]
    {
      StepKeeps(Abs(), CancelCall);
      if failed.Some? || cancelledBeforeRun {
        pc := Returned(false);
      } else {
        cancelRequested := true;
        pc := if backendId.None? then Returned(true) else StopPending(backendId.value);
      }
      cancels := cancels + [pc];
    }
  }
}
