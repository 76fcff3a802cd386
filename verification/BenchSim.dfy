/** The benchmark's discrete-event simulator (bench/runner/main.go). */
module BenchSim {
  import opened Common
  import opened Fleet
  import opened Scheduling
  import Placement

  const EXEC_BASE := 20.0
  const EXEC_PER_SHOT := 1.0 / 150.0
  const DRAIN_CAP := 12.0 * 3600.0
  const RETRY_EVERY := 60.0

  datatype Snapshot = Snapshot(id: string, offset: real, metrics: seq<Metric>)

  datatype Series = Series(name: string, qubits: nat, formats: seq<string>, billing: seq<string>, maxShots: nat,
                           technology: string, nominal2QError: real, snapshots: seq<Snapshot>)

  datatype BenchJob = BenchJob(id: string, width: nat, profile: CircuitProfile, shots: nat, arrival: real,
                               deadline: real, floor2Q: real, floorRO: real)

  datatype Execution = Execution(jobId: string, shots: nat, arrival: real, start: real, end: real, wait: real,
                                 target: string,
                                 snapshotId: string, floor2Q: real, floorRO: real, sloViolated: bool,
                                 deadline: real, deadlineMet: bool, unplaced: bool)

  function Max(a: real, b: real): real {
    if a < b then b else a
  }

  /** Go's conversion of a float to whole seconds. */
  function Truncated(x: real): real {
    if x >= 0.0 then x.Floor as real else -((-x).Floor as real)
  }

  function ExecDuration(shots: nat): (d: real)
    ensures d >= EXEC_BASE
  {
    EXEC_BASE + shots as real * EXEC_PER_SHOT
  }

  // ---- snapshots ----

  /** Place of the last snapshot at or before t, counting from 1; 0 when there is none. */
  function Elapsed(ss: seq<Snapshot>, t: real): (n: nat)
    ensures n <= |ss|
  {
    if ss == [] then 0 else if ss[|ss| - 1].offset <= t then |ss| else Elapsed(ss[..|ss| - 1], t)
  }

  /** snapAt; before the first snapshot the first one applies. */
  function SnapAt(s: Series, t: real): Snapshot
    requires s.snapshots != []
  {
    s.snapshots[if Elapsed(s.snapshots, t) == 0 then 0 else Elapsed(s.snapshots, t) - 1]
  }

  /** On ascending offsets the snapshot in effect is the latest one at or before t: the binary search finds it. */
  lemma {:induction false} SnapAtIsInEffect(ss: seq<Snapshot>, t: real, i: nat)
    requires i < |ss| && forall a, b :: 0 <= a < b < |ss| ==> ss[a].offset <= ss[b].offset
    ensures ss[i].offset <= t <==> i < Elapsed(ss, t)
  {
    if i < |ss| - 1 {
      SnapAtIsInEffect(ss[..|ss| - 1], t, i);
    } else {
      assert forall k :: 0 <= k < |ss| && ss[k].offset > t ==> ss[|ss| - 1].offset > t;
    }
  }

  function ViewAt(s: Series, t: real, wait: real): TargetView
    requires s.snapshots != []
  {
    var snap := SnapAt(s, t);
    TargetView(s.name, "gate-model", s.technology, s.qubits, s.formats, s.maxShots, s.billing, true, false,
               snap.id, Some(Truncated(snap.offset)), snap.metrics, wait, [], s.nominal2QError)
  }

  function ViewOf(j: BenchJob): JobView {
    JobView("gate-model", "openqasm3", j.shots, j.width, [], j.floor2Q, j.floorRO, 0.0, "", "",
            if j.deadline > 0.0 then Some(Truncated(j.deadline)) else None, [], None, [], [], [], Some(j.profile))
  }

  lemma TruncatedBounds(x: real)
    requires x >= 0.0
    ensures Truncated(x) <= x < Truncated(x) + 1.0
  {
  }

  /** What the scheduler sees of a benchmark job and of a series: the job's own numbers, the snapshot in effect. */
  lemma BenchViews(j: BenchJob, s: Series, t: real, wait: real)
    requires j.deadline >= 0.0
    requires s.snapshots != [] && forall i :: 0 <= i < |s.snapshots| ==> s.snapshots[i].offset >= 0.0
    ensures var v := ViewOf(j);
            && v.shots == j.shots && v.qubits == j.width && v.profile == Some(j.profile) && v.aggregate == ""
            && v.twoQubitErrorMax == j.floor2Q && v.readoutErrorMax == j.floorRO && v.calibrationMaxAge == 0.0
            && (v.deadline.Some? <==> j.deadline > 0.0)
            && (v.deadline.Some? ==> v.deadline.value <= j.deadline < v.deadline.value + 1.0)
    ensures var v, snap := ViewAt(s, t, wait), SnapAt(s, t);
            && v.name == s.name && v.online && !v.cloud && v.waitSeconds == wait && v.qubits == s.qubits
            && v.formats == s.formats && v.maxShots == s.maxShots && v.nominal2QError == s.nominal2QError
            && v.snapshotId == snap.id && v.metrics == snap.metrics && v.measuredAt.Some?
            && v.measuredAt.value <= snap.offset < v.measuredAt.value + 1.0
  {
    TruncatedBounds(j.deadline);
    TruncatedBounds(SnapAt(s, t).offset);
  }

  // ---- the SLO check ----

  lemma BestAppend(vs: seq<real>, v: real)
    ensures Aggregate(vs + [v], "best")
              == Some(if vs == [] || v < Aggregate(vs, "best").value then v else Aggregate(vs, "best").value)
  {
    var all := vs + [v];
    var best := Aggregate(all, "best").value;
    AggregateExtremes(all, |vs|);
    assert all[|vs|] == v;
    if vs != [] {
      AggregateExtremes(vs, 0);
      var least := Aggregate(vs, "best").value;
      var i :| 0 <= i < |vs| && vs[i] == least;
      AggregateExtremes(all, i);
      var k :| 0 <= k < |all| && all[k] == best;
      if k < |vs| {
        AggregateExtremes(vs, k);
      }
    }
  }

  /** minMetric and minMetricExact: the device-best value of a class, if it has one. */
  method MinMetric(c: ErrorClass, ms: seq<Metric>) returns (best: Option<real>)
    ensures best == Aggregate(ValuesOf(c, ms), "best")
  {
    best := None;
    for i := 0 to |ms|
      invariant best == Aggregate(ValuesOf(c, ms[..i]), "best")
    {
      assert ms[..i + 1] == ms[..i] + [ms[i]];
      ValuesAppend(c, ms[..i], ms[i]);
      if Matches(c, ms[i].name) {
        BestAppend(ValuesOf(c, ms[..i]), ms[i].value);
        if best.None? || ms[i].value < best.value {
          best := Some(ms[i].value);
        }
      }
    }
    assert ms[..|ms|] == ms;
  }

  /** The recorded SLO verdict: a floor that the snapshot at execution start breaks or cannot show. */
  method Violates(j: BenchJob, snap: Snapshot, s: Series, t: real) returns (violated: bool)
    requires s.snapshots != [] && snap == SnapAt(s, t)
    ensures forall wait :: violated <==> !FloorsHold(ViewOf(j), ViewAt(s, t, wait))
  {
    violated := false;
    if j.floor2Q > 0.0 {
      var v := MinMetric(TwoQubit, snap.metrics);
      if v.None? || v.value > j.floor2Q {
        violated := true;
      }
    }
    if j.floorRO > 0.0 {
      var v := MinMetric(Readout, snap.metrics);
      if v.None? || v.value > j.floorRO {
        violated := true;
      }
    }
  }

  // ---- when a job is tried ----

  ghost predicate ValidTargets(targets: seq<Series>) {
    && (forall i :: 0 <= i < |targets| ==> targets[i].snapshots != [])
    && (forall i, k :: 0 <= i < k < |targets| ==> targets[i].name != targets[k].name)
  }

  /** The k-th time a job is tried: on arrival and then every minute. */
  function Tick(j: BenchJob, k: nat): real {
    j.arrival + RETRY_EVERY * k as real
  }

  /** Some target passes the policy's filter at time t; how long the queues are does not matter for that. */
  ghost predicate FeasibleAt(p: Policy, j: BenchJob, targets: seq<Series>, t: real) {
    exists i :: 0 <= i < |targets| && Passes(p, j, targets[i], t)
  }

  ghost predicate Passes(p: Policy, j: BenchJob, s: Series, t: real) {
    s.snapshots != [] && Feasible(p, ViewOf(j), ViewAt(s, t, 0.0), t)
  }

  /** t is the k-th try and all tries before it found no feasible target. */
  ghost predicate TriedUntil(p: Policy, j: BenchJob, targets: seq<Series>, t: real, k: nat) {
    t == Tick(j, k) && forall m: nat :: m < k ==> !FeasibleAt(p, j, targets, Tick(j, m))
  }

  ghost predicate OnTick(p: Policy, j: BenchJob, targets: seq<Series>, t: real) {
    exists k: nat :: TriedUntil(p, j, targets, t, k)
  }

  /** A failed try: the next one is a minute later. */
  lemma NextTick(p: Policy, j: BenchJob, targets: seq<Series>, t: real)
    requires OnTick(p, j, targets, t) && !FeasibleAt(p, j, targets, t)
    ensures OnTick(p, j, targets, t + RETRY_EVERY)
  {
    var k: nat :| TriedUntil(p, j, targets, t, k);
    forall m: nat | m < k + 1 ensures !FeasibleAt(p, j, targets, Tick(j, m)) {
      assert m < k || Tick(j, m) == t;
    }
    assert TriedUntil(p, j, targets, t + RETRY_EVERY, k + 1);
  }

  // ---- the log of placements ----

  /** One placement: which job, decided when, and what is recorded for it. */
  datatype Entry = Entry(job: nat, now: real, x: Execution)

  /** When a target is free after these placements. */
  function FreeAfter(log: seq<Entry>, name: string): real {
    if log == [] then 0.0
    else if log[|log| - 1].x.target == name then log[|log| - 1].x.end
    else FreeAfter(log[..|log| - 1], name)
  }

  /** The fleet as a decision at `now` sees it after these placements. */
  ghost predicate FleetAfter(targets: seq<Series>, log: seq<Entry>, now: real, fleet: seq<TargetView>) {
    && ValidTargets(targets) && |fleet| == |targets|
    && forall i :: 0 <= i < |fleet| ==>
         fleet[i] == ViewAt(targets[i], now, Max(0.0, FreeAfter(log, targets[i].name) - now))
  }

  /** What is recorded for job j started on series s. */
  function ExecutionOn(j: BenchJob, s: Series, start: real): Execution
    requires s.snapshots != []
  {
    var end := start + ExecDuration(j.shots);
    Execution(j.id, j.shots, j.arrival, start, end, start - j.arrival, s.name, SnapAt(s, start).id, j.floor2Q,
              j.floorRO, !FloorsHold(ViewOf(j), ViewAt(s, start, 0.0)), j.deadline,
              j.deadline == 0.0 || end <= j.deadline, false)
  }

  /** The candidate whose turn it is after n placements. */
  ghost predicate Turn(p: Policy, j: JobView, fleet: seq<TargetView>, now: real, n: nat, d: Decision) {
    var cs := Candidates(p, j, fleet, now);
    cs != [] && d.target == Some(cs[n % COUNTER_WIDTH % |cs|].name)
  }

  /**
   The policy's decision for this target on exactly the fleet that the placements before left behind. Round-robin takes
   turns by placement.
   */
  ghost predicate ChosenWith(p: Policy, j: BenchJob, targets: seq<Series>, before: seq<Entry>, now: real, name: string,
                             fleet: seq<TargetView>, d: Decision) {
    && FleetAfter(targets, before, now, fleet) && Decides(p, ViewOf(j), fleet, now, d) && d.target == Some(name)
    && (p.RoundRobin? ==> Turn(p, ViewOf(j), fleet, now, |before|, d))
  }

  ghost predicate Chosen(p: Policy, j: BenchJob, targets: seq<Series>, before: seq<Entry>, now: real, name: string) {
    exists fleet, d :: ChosenWith(p, j, targets, before, now, name, fleet, d)
  }

  /** The job queues behind what series s runs and starts as soon as it is free. */
  ghost predicate StartedOn(p: Policy, j: BenchJob, before: seq<Entry>, e: Entry, s: Series) {
    && Passes(p, j, s, e.now)
    && e.x == ExecutionOn(j, s, Max(e.now, FreeAfter(before, s.name)))
  }

  /** A placement after those before it: at the job's first try with a feasible target, as the policy chooses. */
  ghost predicate Continues(p: Policy, jobs: seq<BenchJob>, targets: seq<Series>, before: seq<Entry>, e: Entry) {
    && e.job < |jobs| && OnTick(p, jobs[e.job], targets, e.now)
    && Chosen(p, jobs[e.job], targets, before, e.now, e.x.target)
    && exists s :: s in targets && StartedOn(p, jobs[e.job], before, e, s)
  }

  /** Every entry is in order after those before it. */
  ghost predicate Each(ok: (seq<Entry>, Entry) -> bool, log: seq<Entry>) {
    forall m :: 0 <= m < |log| ==> ok(log[..m], log[m])
  }

  ghost function Continuing(p: Policy, jobs: seq<BenchJob>, targets: seq<Series>): (seq<Entry>, Entry) -> bool {
    (before: seq<Entry>, e: Entry) => Continues(p, jobs, targets, before, e)
  }

  ghost predicate LogOk(p: Policy, jobs: seq<BenchJob>, targets: seq<Series>, log: seq<Entry>) {
    Each(Continuing(p, jobs, targets), log)
  }

  lemma EachGrows(ok: (seq<Entry>, Entry) -> bool, log: seq<Entry>, e: Entry)
    requires Each(ok, log) && ok(log, e)
    ensures Each(ok, log + [e])
  {
    var log' := log + [e];
    forall m | 0 <= m < |log'| ensures ok(log'[..m], log'[m]) {
      assert log'[..m] == if m < |log| then log[..m] else log;
    }
  }

  ghost predicate Logged(log: seq<Entry>, k: nat) {
    exists m :: 0 <= m < |log| && log[m].job == k
  }

  /** Decided earlier, or at the same instant for an earlier arrival. */
  ghost predicate Precedes(e: Entry, now: real, job: nat) {
    e.now < now || (e.now == now && e.job < job)
  }

  ghost predicate Chronological(log: seq<Entry>) {
    forall a, b :: 0 <= a < b < |log| ==> Precedes(log[a], log[b].now, log[b].job)
  }

  ghost predicate OncePerJob(log: seq<Entry>) {
    forall a, b :: 0 <= a < b < |log| ==> log[a].job != log[b].job
  }

  // ---- what a log guarantees ----

  ghost predicate Disjoint(x: Execution, y: Execution) {
    x.target == y.target ==> x.end <= y.start || y.end <= x.start
  }

  lemma StartsFree(p: Policy, jobs: seq<BenchJob>, targets: seq<Series>, before: seq<Entry>, e: Entry)
    requires Continues(p, jobs, targets, before, e)
    ensures Stacks(before, e) && jobs[e.job].arrival <= e.now <= e.x.start
    ensures e.x.start == e.now || e.x.start == FreeAfter(before, e.x.target)
  {
    var s :| s in targets && StartedOn(p, jobs[e.job], before, e, s);
    TicksFollowArrival(p, jobs[e.job], targets, e.now);
    StartsWhenFree(p, jobs[e.job], before, e, s);
  }

  lemma TicksFollowArrival(p: Policy, j: BenchJob, targets: seq<Series>, t: real)
    requires OnTick(p, j, targets, t)
    ensures j.arrival <= t
  {
    var k: nat :| TriedUntil(p, j, targets, t, k);
  }

  lemma StartsWhenFree(p: Policy, j: BenchJob, before: seq<Entry>, e: Entry, s: Series)
    requires StartedOn(p, j, before, e, s)
    ensures Stacks(before, e) && e.now <= e.x.start && e.x.target == s.name && e.x == ExecutionOn(j, s, e.x.start)
    ensures e.x.start == e.now || e.x.start == FreeAfter(before, e.x.target)
  {
  }

  /** It starts when its target is free. */
  ghost predicate Stacks(before: seq<Entry>, e: Entry) {
    FreeAfter(before, e.x.target) <= e.x.start <= e.x.end
  }

  ghost predicate Stacked(log: seq<Entry>) {
    forall m :: 0 <= m < |log| ==> Stacks(log[..m], log[m])
  }

  lemma LogIsStacked(p: Policy, jobs: seq<BenchJob>, targets: seq<Series>, log: seq<Entry>)
    requires LogOk(p, jobs, targets, log)
    ensures Stacked(log)
  {
    forall m | 0 <= m < |log| ensures Stacks(log[..m], log[m]) {
      EntryContinues(p, jobs, targets, log, m);
      StartsFree(p, jobs, targets, log[..m], log[m]);
    }
  }

  lemma EntryContinues(p: Policy, jobs: seq<BenchJob>, targets: seq<Series>, log: seq<Entry>, m: nat)
    requires LogOk(p, jobs, targets, log) && m < |log|
    ensures Continues(p, jobs, targets, log[..m], log[m])
  {
    assert Continuing(p, jobs, targets)(log[..m], log[m]);
  }

  /** A target is free only after everything placed on it has ended. */
  lemma {:induction false} FreeCovers(log: seq<Entry>, a: nat)
    requires Stacked(log) && a < |log|
    ensures log[a].x.end <= FreeAfter(log, log[a].x.target)
  {
    var rest, last := log[..|log| - 1], log[|log| - 1];
    if a < |log| - 1 {
      StackedPrefix(log, |log| - 1);
      FreeCovers(rest, a);
      assert Stacks(log[..|log| - 1], last);
    }
  }

  lemma StackedPrefix(log: seq<Entry>, n: nat)
    requires Stacked(log) && n <= |log|
    ensures Stacked(log[..n])
  {
    forall m | 0 <= m < n ensures Stacks(log[..n][..m], log[..n][m]) {
      assert log[..n][..m] == log[..m];
    }
  }

  /** Executions on one target never overlap. */
  lemma NoOverlap(p: Policy, jobs: seq<BenchJob>, targets: seq<Series>, log: seq<Entry>, a: nat, b: nat)
    requires LogOk(p, jobs, targets, log) && a < b < |log|
    ensures Disjoint(log[a].x, log[b].x)
  {
    LogIsStacked(p, jobs, targets, log);
    StackedApart(log, a, b);
  }

  lemma StackedApart(log: seq<Entry>, a: nat, b: nat)
    requires Stacked(log) && a < b < |log|
    ensures Disjoint(log[a].x, log[b].x)
  {
    if log[a].x.target == log[b].x.target {
      StackedPrefix(log, b);
      FreeCovers(log[..b], a);
      assert Stacks(log[..b], log[b]);
    }
  }

  /** A target becomes free when one of its executions ends. */
  lemma {:induction false} FreeIsAnEnd(log: seq<Entry>, name: string)
    ensures FreeAfter(log, name) == 0.0 || exists a :: 0 <= a < |log| && EndsAt(log[a], name, FreeAfter(log, name))
  {
    if log != [] {
      var rest, last := log[..|log| - 1], log[|log| - 1];
      FreeIsAnEnd(rest, name);
      if last.x.target == name {
        assert EndsAt(log[|log| - 1], name, FreeAfter(log, name));
      } else if FreeAfter(rest, name) != 0.0 {
        var a :| 0 <= a < |rest| && EndsAt(rest[a], name, FreeAfter(rest, name));
        assert EndsAt(log[a], name, FreeAfter(log, name));
      }
    }
  }

  ghost predicate EndsAt(e: Entry, target: string, t: real) {
    e.x.target == target && e.x.end == t
  }

  /** An execution starts when it is decided, at time zero, or exactly when an earlier one on its target ends. */
  lemma StartsPromptly(p: Policy, jobs: seq<BenchJob>, targets: seq<Series>, log: seq<Entry>, b: nat)
    requires LogOk(p, jobs, targets, log) && b < |log|
    ensures || log[b].x.start == log[b].now || log[b].x.start == 0.0
            || exists a :: 0 <= a < b && EndsAt(log[a], log[b].x.target, log[b].x.start)
  {
    EntryContinues(p, jobs, targets, log, b);
    StartsFree(p, jobs, targets, log[..b], log[b]);
    PromptAt(log, b);
  }

  lemma PromptAt(log: seq<Entry>, b: nat)
    requires b < |log| && (log[b].x.start == log[b].now || log[b].x.start == FreeAfter(log[..b], log[b].x.target))
    ensures || log[b].x.start == log[b].now || log[b].x.start == 0.0
            || exists a :: 0 <= a < b && EndsAt(log[a], log[b].x.target, log[b].x.start)
  {
    FreeIsAnEnd(log[..b], log[b].x.target);
    if log[b].x.start != log[b].now && log[b].x.start != 0.0 {
      var a :| 0 <= a < b && EndsAt(log[..b][a], log[b].x.target, log[b].x.start);
      assert EndsAt(log[a], log[b].x.target, log[b].x.start);
    }
  }

  /** The record of a placement, in numbers: minute ticks, 20 s plus a second per 150 shots, and the verdicts. */
  lemma RecordIsExact(p: Policy, jobs: seq<BenchJob>, targets: seq<Series>, log: seq<Entry>, m: nat)
    returns (s: Series, k: nat)
    requires LogOk(p, jobs, targets, log) && m < |log|
    ensures log[m].job < |jobs|
    ensures var e, j := log[m], jobs[log[m].job];
            && s in targets && s.name == e.x.target && s.snapshots != [] && e.now == j.arrival + 60.0 * k as real
            && "openqasm3" in s.formats && j.width <= s.qubits
            && (j.shots == 0 || s.maxShots == 0 || j.shots <= s.maxShots)
            && e.x.jobId == j.id && e.x.shots == j.shots && !e.x.unplaced && e.x.snapshotId == SnapAt(s, e.x.start).id
            && e.x.arrival == j.arrival && e.x.wait == e.x.start - j.arrival
            && e.x.end - e.x.start == 20.0 + j.shots as real / 150.0
            && (e.x.deadlineMet <==> j.deadline == 0.0 || e.x.end <= j.deadline)
            && (e.x.sloViolated <==> !FloorsHold(ViewOf(j), ViewAt(s, e.x.start, 0.0)))
  {
    EntryContinues(p, jobs, targets, log, m);
    StartsFree(p, jobs, targets, log[..m], log[m]);
    s := ChosenSeries(p, jobs, targets, log[..m], log[m]);
    FeasibleIff(p, ViewOf(jobs[log[m].job]), ViewAt(s, log[m].now, 0.0), log[m].now);
    k := TickOf(p, jobs[log[m].job], targets, log[m].now);
    Duration(jobs[log[m].job].shots);
  }

  lemma TickOf(p: Policy, j: BenchJob, targets: seq<Series>, t: real) returns (k: nat)
    requires OnTick(p, j, targets, t)
    ensures t == j.arrival + 60.0 * k as real
  {
    k :| TriedUntil(p, j, targets, t, k);
  }

  lemma Duration(shots: nat)
    ensures ExecDuration(shots) == 20.0 + shots as real / 150.0
  {
  }

  /** The calibration in effect at the decision is not the one at execution start. */
  ghost predicate DriftedBetween(e: Entry, s: Series) {
    s.name == e.x.target && s.snapshots != [] && e.now < e.x.start && SnapAt(s, e.now) != SnapAt(s, e.x.start)
  }

  /**
   Under a floor-checking policy a record can only be marked violated if the calibration changed while the job waited.
   */
  lemma ViolationsNeedDrift(p: Policy, jobs: seq<BenchJob>, targets: seq<Series>, log: seq<Entry>, m: nat)
    requires LogOk(p, jobs, targets, log) && m < |log| && ChecksFloors(p) && log[m].x.sloViolated
    ensures exists s :: s in targets && DriftedBetween(log[m], s)
  {
    EntryContinues(p, jobs, targets, log, m);
    StartsFree(p, jobs, targets, log[..m], log[m]);
    var s := ChosenSeries(p, jobs, targets, log[..m], log[m]);
    ViolationIsDrift(p, jobs[log[m].job], s, log[m]);
  }

  /** The series an entry was placed on. */
  lemma ChosenSeries(p: Policy, jobs: seq<BenchJob>, targets: seq<Series>, before: seq<Entry>, e: Entry)
    returns (s: Series)
    requires Continues(p, jobs, targets, before, e)
    ensures s in targets && s.name == e.x.target && Passes(p, jobs[e.job], s, e.now)
    ensures e.x == ExecutionOn(jobs[e.job], s, e.x.start)
  {
    s :| s in targets && StartedOn(p, jobs[e.job], before, e, s);
    StartsWhenFree(p, jobs[e.job], before, e, s);
  }

  lemma ViolationIsDrift(p: Policy, j: BenchJob, s: Series, e: Entry)
    requires Passes(p, j, s, e.now) && ChecksFloors(p) && e.now <= e.x.start
    requires e.x == ExecutionOn(j, s, e.x.start) && e.x.sloViolated
    ensures DriftedBetween(e, s)
  {
    FilterGuaranteesFloors(ViewOf(j), ViewAt(s, e.now, 0.0), e.now);
    SameSnapshot(s, e.now, e.x.start, ViewOf(j));
  }

  lemma SameSnapshot(s: Series, t: real, u: real, j: JobView)
    requires s.snapshots != []
    ensures SnapAt(s, t) == SnapAt(s, u) ==> FloorsHold(j, ViewAt(s, t, 0.0)) == FloorsHold(j, ViewAt(s, u, 0.0))
  {
  }

  // ---- one placement ----

  /** The source's map of free times says what the log says. */
  ghost predicate FreeMirrors(targets: seq<Series>, log: seq<Entry>, freeAt: map<string, real>) {
    forall i :: 0 <= i < |targets| ==>
      targets[i].name in freeAt && freeAt[targets[i].name] == FreeAfter(log, targets[i].name)
  }

  method FleetAt(targets: seq<Series>, freeAt: map<string, real>, now: real, ghost log: seq<Entry>)
    returns (fleet: seq<TargetView>)
    requires ValidTargets(targets) && FreeMirrors(targets, log, freeAt)
    ensures FleetAfter(targets, log, now, fleet) && ValidFleet(fleet)
  {
    fleet := [];
    for i := 0 to |targets|
      invariant |fleet| == i && ValidFleet(fleet)
      invariant forall k :: 0 <= k < i ==> fleet[k] == ViewAt(targets[k], now, Max(0.0, freeAt[targets[k].name] - now))
    {
      fleet := fleet + [ViewAt(targets[i], now, Max(0.0, freeAt[targets[i].name] - now))];
    }
  }

  lemma WaitIsIrrelevant(p: Policy, j: JobView, s: Series, t: real, wait: real)
    requires s.snapshots != []
    ensures Feasible(p, j, ViewAt(s, t, wait), t) <==> Feasible(p, j, ViewAt(s, t, 0.0), t)
  {
    SameCapabilities(j, ViewAt(s, t, wait), ViewAt(s, t, 0.0), t);
    assert QualityFloors(j, ViewAt(s, t, wait), t) == QualityFloors(j, ViewAt(s, t, 0.0), t);
  }

  /** Schedule picks a target exactly when one passes the filter, and then one that does. */
  lemma ChosenIsFeasible(p: Policy, j: BenchJob, targets: seq<Series>, log: seq<Entry>, now: real,
                         fleet: seq<TargetView>, d: Decision)
    returns (i: nat)
    requires FleetAfter(targets, log, now, fleet) && Decides(p, ViewOf(j), fleet, now, d)
    ensures d.target.Some? <==> FeasibleAt(p, j, targets, now)
    ensures d.target.Some? ==> i < |targets| && targets[i].name == d.target.value && Passes(p, j, targets[i], now)
  {
    i := 0;
    forall k | 0 <= k < |fleet| ensures Feasible(p, ViewOf(j), fleet[k], now) <==> Passes(p, j, targets[k], now) {
      WaitIsIrrelevant(p, ViewOf(j), targets[k], now, fleet[k].waitSeconds);
    }
    Placement.DecisionIsFeasible(p, ViewOf(j), fleet, now, d);
    if d.target.Some? {
      var t :| t in fleet && Feasible(p, ViewOf(j), t, now) && t.name == d.target.value;
      i :| 0 <= i < |fleet| && fleet[i] == t;
    }
  }

  /** byName, built from the series in order. */
  method FindSeries(targets: seq<Series>, name: string, ghost at: nat) returns (s: Series)
    requires ValidTargets(targets) && at < |targets| && targets[at].name == name
    ensures s == targets[at]
  {
    s := targets[0];
    for i := 0 to |targets|
      invariant at < i ==> s == targets[at]
    {
      if targets[i].name == name {
        s := targets[i];
      }
    }
  }

  function CounterAfter(p: Policy, log: seq<Entry>): nat {
    if p.RoundRobin? then |log| % COUNTER_WIDTH else 0
  }

  /**
   tryPlace: schedule on the fleet as it stands now; an accepted job queues behind whatever its target runs. The free
   times, the counter and the decision are those of the log so far, to which an accepted job is added.
   */
  method TryPlace(p: Policy, counter: nat, j: BenchJob, now: real, targets: seq<Series>, freeAt: map<string, real>,
                  results: map<string, Execution>, ghost job: nat, ghost log: seq<Entry>)
    returns (placed: bool, freeAt': map<string, real>, results': map<string, Execution>, counter': nat,
             ghost log': seq<Entry>)
    requires ValidTargets(targets) && FreeMirrors(targets, log, freeAt) && counter == CounterAfter(p, log)
    ensures placed <==> FeasibleAt(p, j, targets, now)
    ensures !placed ==> freeAt' == freeAt && results' == results && log' == log
    ensures placed ==>
              && j.id in results' && results' == results[j.id := results'[j.id]]
              && log' == log + [Entry(job, now, results'[j.id])]
              && Chosen(p, j, targets, log, now, results'[j.id].target)
              && exists s :: s in targets && StartedOn(p, j, log, Entry(job, now, results'[j.id]), s)
    ensures FreeMirrors(targets, log', freeAt') && counter' == CounterAfter(p, log')
  {
    placed, freeAt', results', log' := false, freeAt, results, log;
    var name;
    name, counter' := Choose(p, counter, j, now, targets, freeAt, log);
    if name.None? {
      return;
    }
    ghost var at := FeasibleSeries(p, j, targets, now, name.value);
    var target := FindSeries(targets, name.value, at);
    var x := RecordOn(j, target, Max(now, freeAt[target.name]));
    assert StartedOn(p, j, log, Entry(job, now, x), target);
    placed, freeAt', results' := true, freeAt[target.name := x.end], results[j.id := x];
    log' := log + [Entry(job, now, x)];
    CounterMoves(p, log, Entry(job, now, x));
    FreeMoves(targets, log, freeAt, Entry(job, now, x));
  }

  /** The fleet, the decision and what it means: a target exactly when some target is feasible. */
  method Choose(p: Policy, counter: nat, j: BenchJob, now: real, targets: seq<Series>, freeAt: map<string, real>,
                ghost log: seq<Entry>)
    returns (name: Option<string>, counter': nat)
    requires ValidTargets(targets) && FreeMirrors(targets, log, freeAt) && counter == CounterAfter(p, log)
    ensures name.Some? <==> FeasibleAt(p, j, targets, now)
    ensures name.Some? ==> Chosen(p, j, targets, log, now, name.value) && FeasibleNamed(p, j, targets, now, name.value)
    ensures counter' == if p.RoundRobin? && name.Some? then (counter + 1) % COUNTER_WIDTH else counter
  {
    var fleet := FleetAt(targets, freeAt, now, log);
    var d;
    d, counter' := Schedule(p, counter, ViewOf(j), fleet, now);
    DecidedByCandidates(p, ViewOf(j), fleet, now, d);
    ghost var at := ChosenIsFeasible(p, j, targets, log, now, fleet, d);
    name := d.target;
    if name.Some? {
      assert ChosenWith(p, j, targets, log, now, name.value, fleet, d);
    }
  }

  ghost predicate FeasibleNamed(p: Policy, j: BenchJob, targets: seq<Series>, now: real, name: string) {
    exists i :: 0 <= i < |targets| && targets[i].name == name && Passes(p, j, targets[i], now)
  }

  lemma FeasibleSeries(p: Policy, j: BenchJob, targets: seq<Series>, now: real, name: string) returns (i: nat)
    requires FeasibleNamed(p, j, targets, now, name)
    ensures i < |targets| && targets[i].name == name && Passes(p, j, targets[i], now)
  {
    i :| 0 <= i < |targets| && targets[i].name == name && Passes(p, j, targets[i], now);
  }

  method RecordOn(j: BenchJob, target: Series, start: real) returns (x: Execution)
    requires target.snapshots != []
    ensures x == ExecutionOn(j, target, start)
  {
    var end := start + ExecDuration(j.shots);
    var snap := SnapAt(target, start);
    var violated := Violates(j, snap, target, start);
    x := Execution(j.id, j.shots, j.arrival, start, end, start - j.arrival, target.name, snap.id, j.floor2Q,
                   j.floorRO, violated, j.deadline, j.deadline == 0.0 || end <= j.deadline, false);
  }

  lemma FreeMoves(targets: seq<Series>, log: seq<Entry>, freeAt: map<string, real>, e: Entry)
    requires FreeMirrors(targets, log, freeAt)
    ensures FreeMirrors(targets, log + [e], freeAt[e.x.target := e.x.end])
  {
    assert (log + [e])[..|log|] == log;
  }

  lemma DecidedByCandidates(p: Policy, j: JobView, fleet: seq<TargetView>, now: real, d: Decision)
    requires Decides(p, j, fleet, now, d)
    ensures d.target.None? <==> Candidates(p, j, fleet, now) == []
  {
    var ts := Candidates(p, j, fleet, now);
    var counter, scores :| ValidScores(p, counter, j, ts, scores) && Picks(ts, scores, d);
  }

  lemma CounterMoves(p: Policy, log: seq<Entry>, e: Entry)
    ensures p.RoundRobin? ==> CounterAfter(p, log + [e]) == (CounterAfter(p, log) + 1) % COUNTER_WIDTH
    ensures !p.RoundRobin? ==> CounterAfter(p, log + [e]) == CounterAfter(p, log)
  {
  }

  // ---- one pass over the pending jobs ----

  datatype Waiting = Waiting(job: nat, nextTry: real)

  /** What a pass at `now` leaves: jobs not due as they were, due jobs without a feasible target a minute later. */
  ghost function Left(p: Policy, jobs: seq<BenchJob>, targets: seq<Series>, now: real, ws: seq<Waiting>): seq<Waiting> {
    if ws == [] then []
    else
      var rest, w := Left(p, jobs, targets, now, ws[..|ws| - 1]), ws[|ws| - 1];
      if w.nextTry > now then rest + [w]
      else if Takes(p, jobs, targets, now, w) then rest
      else rest + [Waiting(w.job, now + RETRY_EVERY)]
  }

  /** A due job that a pass at `now` places. */
  ghost predicate Takes(p: Policy, jobs: seq<BenchJob>, targets: seq<Series>, now: real, w: Waiting) {
    w.nextTry <= now && w.job < |jobs| && FeasibleAt(p, jobs[w.job], targets, now)
  }

  /** The jobs a pass places, in order. */
  ghost function Taken(p: Policy, jobs: seq<BenchJob>, targets: seq<Series>, now: real, ws: seq<Waiting>): seq<nat> {
    if ws == [] then []
    else
      var rest, w := Taken(p, jobs, targets, now, ws[..|ws| - 1]), ws[|ws| - 1];
      if Takes(p, jobs, targets, now, w) then rest + [w.job] else rest
  }

  ghost predicate Ascending(ws: seq<Waiting>) {
    forall i, k :: 0 <= i < k < |ws| ==> ws[i].job < ws[k].job
  }

  ghost predicate Queued(ws: seq<Waiting>, k: nat) {
    exists i :: 0 <= i < |ws| && ws[i].job == k
  }

  lemma QueuedAppend(ws: seq<Waiting>, w: Waiting, k: nat)
    ensures Queued(ws + [w], k) <==> Queued(ws, k) || w.job == k
  {
    assert (ws + [w])[|ws|] == w;
    if Queued(ws, k) {
      var i :| 0 <= i < |ws| && ws[i].job == k;
      assert (ws + [w])[i] == ws[i];
    }
  }

  /** Where an element of Left comes from. */
  ghost predicate LeftFrom(p: Policy, jobs: seq<BenchJob>, targets: seq<Series>, now: real, w: Waiting, l: Waiting) {
    && l.job == w.job && !Takes(p, jobs, targets, now, w)
    && l.nextTry == if w.nextTry > now then w.nextTry else now + RETRY_EVERY
  }

  lemma {:induction false} LeftSource(p: Policy, jobs: seq<BenchJob>, targets: seq<Series>, now: real, ws: seq<Waiting>,
                                      i: nat) returns (k: nat)
    requires i < |Left(p, jobs, targets, now, ws)|
    ensures k < |ws| && LeftFrom(p, jobs, targets, now, ws[k], Left(p, jobs, targets, now, ws)[i])
  {
    var rest := ws[..|ws| - 1];
    if i < |Left(p, jobs, targets, now, rest)| {
      k := LeftSource(p, jobs, targets, now, rest, i);
    } else {
      k := |ws| - 1;
    }
  }

  lemma {:induction false} TakenSource(p: Policy, jobs: seq<BenchJob>, targets: seq<Series>, now: real,
                                       ws: seq<Waiting>, i: nat) returns (k: nat)
    requires i < |Taken(p, jobs, targets, now, ws)|
    ensures k < |ws| && Takes(p, jobs, targets, now, ws[k]) && ws[k].job == Taken(p, jobs, targets, now, ws)[i]
  {
    var rest := ws[..|ws| - 1];
    if i < |Taken(p, jobs, targets, now, rest)| {
      k := TakenSource(p, jobs, targets, now, rest, i);
    } else {
      k := |ws| - 1;
    }
  }

  /** A pass keeps the arrival order, both of what it leaves and of what it places. */
  lemma {:induction false} PassAscends(p: Policy, jobs: seq<BenchJob>, targets: seq<Series>, now: real,
                                       ws: seq<Waiting>)
    requires Ascending(ws)
    ensures Ascending(Left(p, jobs, targets, now, ws))
    ensures forall i, k :: 0 <= i < k < |Taken(p, jobs, targets, now, ws)| ==>
              Taken(p, jobs, targets, now, ws)[i] < Taken(p, jobs, targets, now, ws)[k]
  {
    if ws != [] {
      var rest, last := ws[..|ws| - 1], ws[|ws| - 1];
      PassAscends(p, jobs, targets, now, rest);
      var left, taken := Left(p, jobs, targets, now, rest), Taken(p, jobs, targets, now, rest);
      forall i | 0 <= i < |left| ensures left[i].job < last.job {
        var k := LeftSource(p, jobs, targets, now, rest, i);
      }
      forall i | 0 <= i < |taken| ensures taken[i] < last.job {
        var k := TakenSource(p, jobs, targets, now, rest, i);
      }
    }
  }

  /** Nobody gets lost: a pending job is placed or left. */
  lemma {:induction false} PassCovers(p: Policy, jobs: seq<BenchJob>, targets: seq<Series>, now: real, ws: seq<Waiting>,
                                      k: nat)
    requires Queued(ws, k)
    ensures k in Taken(p, jobs, targets, now, ws) || Queued(Left(p, jobs, targets, now, ws), k)
  {
    var rest, last := ws[..|ws| - 1], ws[|ws| - 1];
    assert ws == rest + [last];
    QueuedAppend(rest, last, k);
    var left := Left(p, jobs, targets, now, rest);
    QueuedAppend(left, last, k);
    QueuedAppend(left, Waiting(last.job, now + RETRY_EVERY), k);
    if Queued(rest, k) {
      PassCovers(p, jobs, targets, now, rest, k);
    }
  }

  // ---- termination ----

  /** How often a job that is next tried at t can still be tried before the horizon. */
  function Tries(horizon: real, t: real): nat {
    if t > horizon then 0 else ((horizon - t) / RETRY_EVERY).Floor + 1
  }

  function TriesLeft(tries: real -> nat, ws: seq<Waiting>): nat {
    if ws == [] then 0 else TriesLeft(tries, ws[..|ws| - 1]) + tries(ws[|ws| - 1].nextTry)
  }

  /** A failed try at or after its time costs at least one. */
  lemma RetryCosts(horizon: real, t: real, now: real)
    requires t <= now <= horizon
    ensures Tries(horizon, now + RETRY_EVERY) < Tries(horizon, t)
  {
    var a, b := (horizon - t) / RETRY_EVERY, (horizon - (now + RETRY_EVERY)) / RETRY_EVERY;
    assert b <= a - 1.0;
  }

  lemma TriesAppend(tries: real -> nat, ws: seq<Waiting>, w: Waiting)
    ensures TriesLeft(tries, ws + [w]) == TriesLeft(tries, ws) + tries(w.nextTry)
  {
    assert (ws + [w])[..|ws|] == ws;
  }

  ghost predicate Due(ws: seq<Waiting>, now: real) {
    exists i :: 0 <= i < |ws| && ws[i].nextTry <= now
  }

  lemma DueAppend(ws: seq<Waiting>, w: Waiting, now: real)
    ensures Due(ws + [w], now) <==> Due(ws, now) || w.nextTry <= now
  {
    assert (ws + [w])[|ws|] == w;
    if Due(ws, now) {
      var i :| 0 <= i < |ws| && ws[i].nextTry <= now;
      assert (ws + [w])[i] == ws[i];
    }
  }

  /** A failed try at `now` of a job due at t leaves fewer tries. */
  ghost predicate Costs(tries: real -> nat, t: real, now: real) {
    tries(now + RETRY_EVERY) < tries(t)
  }

  /** A measure of the tries left up to the horizon. */
  ghost predicate Shrinks(tries: real -> nat, horizon: real) {
    forall t, now :: t <= now <= horizon ==> Costs(tries, t, now)
  }

  lemma TriesShrink(horizon: real)
    ensures exists tries: real -> nat :: Shrinks(tries, horizon)
  {
    var tries := (t: real) => Tries(horizon, t);
    forall t, now | t <= now <= horizon ensures Costs(tries, t, now) {
      RetryCosts(horizon, t, now);
    }
    assert Shrinks(tries, horizon);
  }

  /** A pass with a due job uses up at least one try. */
  lemma {:induction false} PassCosts(p: Policy, jobs: seq<BenchJob>, targets: seq<Series>, now: real, ws: seq<Waiting>,
                                     tries: real -> nat, horizon: real)
    requires Shrinks(tries, horizon) && now <= horizon
    ensures TriesLeft(tries, Left(p, jobs, targets, now, ws)) + (if Due(ws, now) then 1 else 0) <= TriesLeft(tries, ws)
  {
    if ws != [] {
      var rest, last := ws[..|ws| - 1], ws[|ws| - 1];
      var left := Left(p, jobs, targets, now, rest);
      PassCosts(p, jobs, targets, now, rest, tries, horizon);
      assert ws == rest + [last];
      DueAppend(rest, last, now);
      if last.nextTry > now {
        TriesAppend(tries, left, last);
      } else {
        assert Costs(tries, last.nextTry, now);
        TriesAppend(tries, left, Waiting(last.job, now + RETRY_EVERY));
      }
    }
  }

  // ---- the event loop ----

  ghost predicate UniqueIds(jobs: seq<BenchJob>) {
    forall i, k :: 0 <= i < k < |jobs| ==> jobs[i].id != jobs[k].id
  }

  /** Arrivals in order, as the workload generator emits them. */
  ghost predicate InOrder(jobs: seq<BenchJob>) {
    forall i, k :: 0 <= i < k < |jobs| ==> jobs[i].arrival <= jobs[k].arrival
  }

  /** The source's result map, from the log. */
  function ResultsOf(jobs: seq<BenchJob>, log: seq<Entry>): map<string, Execution> {
    if log == [] then map[]
    else
      var rest, last := ResultsOf(jobs, log[..|log| - 1]), log[|log| - 1];
      if last.job < |jobs| then rest[jobs[last.job].id := last.x] else rest
  }

  /** The variables of the source say what the log says. */
  ghost predicate Mirrors(p: Policy, jobs: seq<BenchJob>, targets: seq<Series>, log: seq<Entry>,
                          freeAt: map<string, real>, results: map<string, Execution>, counter: nat) {
    && FreeMirrors(targets, log, freeAt) && results == ResultsOf(jobs, log) && counter == CounterAfter(p, log)
    && LogOk(p, jobs, targets, log)
  }

  ghost predicate WaitingOk(p: Policy, jobs: seq<BenchJob>, targets: seq<Series>, arrived: nat, w: Waiting) {
    w.job < arrived <= |jobs| && OnTick(p, jobs[w.job], targets, w.nextTry)
  }

  /** The pending jobs and the log share out the arrived jobs. */
  ghost predicate QueueOk(p: Policy, jobs: seq<BenchJob>, targets: seq<Series>, arrived: nat, pending: seq<Waiting>,
                          log: seq<Entry>) {
    && arrived <= |jobs| && Ascending(pending) && OncePerJob(log)
    && (forall i :: 0 <= i < |pending| ==> WaitingOk(p, jobs, targets, arrived, pending[i]))
    && (forall i :: 0 <= i < |pending| ==> !Logged(log, pending[i].job))
    && (forall k :: 0 <= k < arrived ==> Logged(log, k) || Queued(pending, k))
    && (forall m :: 0 <= m < |log| ==> log[m].job < arrived)
  }

  /** The log has grown by placements of exactly these jobs, all decided at `now`. */
  ghost predicate Extends(log: seq<Entry>, log': seq<Entry>, now: real, taken: seq<nat>) {
    && log <= log' && |log'| == |log| + |taken|
    && forall m :: 0 <= m < |taken| ==> log'[|log| + m].job == taken[m] && log'[|log| + m].now == now
  }

  /**
   One pass over the pending jobs, in arrival order: every due job is tried once. What is left and what is placed are
   exactly what feasibility at `now` says, and each placement is the policy's choice after those before it.
   */
  method Round(p: Policy, counter: nat, jobs: seq<BenchJob>, targets: seq<Series>, now: real, ghost arrived: nat,
               pending: seq<Waiting>, freeAt: map<string, real>, results: map<string, Execution>, ghost log: seq<Entry>)
    returns (still: seq<Waiting>, freeAt': map<string, real>, results': map<string, Execution>, counter': nat,
             ghost log': seq<Entry>)
    requires ValidTargets(targets) && Mirrors(p, jobs, targets, log, freeAt, results, counter)
    requires forall i :: 0 <= i < |pending| ==> WaitingOk(p, jobs, targets, arrived, pending[i])
    requires forall i :: 0 <= i < |pending| ==> now <= pending[i].nextTry
    ensures still == Left(p, jobs, targets, now, pending)
    ensures Extends(log, log', now, Taken(p, jobs, targets, now, pending))
    ensures Mirrors(p, jobs, targets, log', freeAt', results', counter')
  {
    still, freeAt', results', counter', log' := [], freeAt, results, counter, log;
    for i := 0 to |pending|
      invariant still == Left(p, jobs, targets, now, pending[..i])
      invariant Extends(log, log', now, Taken(p, jobs, targets, now, pending[..i]))
      invariant Mirrors(p, jobs, targets, log', freeAt', results', counter')
    {
      var w := pending[i];
      assert WaitingOk(p, jobs, targets, arrived, w) && now <= w.nextTry;
      PassStep(p, jobs, targets, now, pending, i);
      if w.nextTry > now {
        still := still + [w];
      } else {
        ghost var before := log';
        var placed;
        placed, freeAt', results', counter', log' :=
          TryIt(p, counter', jobs, w.job, now, targets, freeAt', results', log');
        if placed {
          ExtendsOn(log, before, log', now, Taken(p, jobs, targets, now, pending[..i]), w.job);
        } else {
          still := still + [Waiting(w.job, now + RETRY_EVERY)];
        }
      }
    }
    assert pending[..|pending|] == pending;
  }

  lemma PassStep(p: Policy, jobs: seq<BenchJob>, targets: seq<Series>, now: real, ws: seq<Waiting>, i: nat)
    requires i < |ws|
    ensures var rest := Left(p, jobs, targets, now, ws[..i]);
            Left(p, jobs, targets, now, ws[..i + 1])
            == if ws[i].nextTry > now then rest + [ws[i]]
               else if Takes(p, jobs, targets, now, ws[i]) then rest
               else rest + [Waiting(ws[i].job, now + RETRY_EVERY)]
    ensures var rest := Taken(p, jobs, targets, now, ws[..i]);
            Taken(p, jobs, targets, now, ws[..i + 1])
            == if Takes(p, jobs, targets, now, ws[i]) then rest + [ws[i].job] else rest
  {
    assert ws[..i + 1][..i] == ws[..i];
  }

  lemma ExtendsOn(log: seq<Entry>, before: seq<Entry>, after: seq<Entry>, now: real, taken: seq<nat>, job: nat)
    requires Extends(log, before, now, taken)
    requires |after| == |before| + 1 && before <= after && after[|before|].job == job && after[|before|].now == now
    ensures Extends(log, after, now, taken + [job])
  {
  }

  /** A due job is tried: placed exactly when some target is feasible. */
  method TryIt(p: Policy, counter: nat, jobs: seq<BenchJob>, job: nat, now: real, targets: seq<Series>,
               freeAt: map<string, real>, results: map<string, Execution>, ghost log: seq<Entry>)
    returns (placed: bool, freeAt': map<string, real>, results': map<string, Execution>, counter': nat,
             ghost log': seq<Entry>)
    requires ValidTargets(targets) && Mirrors(p, jobs, targets, log, freeAt, results, counter)
    requires job < |jobs| && OnTick(p, jobs[job], targets, now)
    ensures placed <==> FeasibleAt(p, jobs[job], targets, now)
    ensures !placed ==> log' == log
    ensures placed ==> |log'| == |log| + 1 && log <= log' && log'[|log|].job == job && log'[|log|].now == now
    ensures Mirrors(p, jobs, targets, log', freeAt', results', counter')
  {
    placed, freeAt', results', counter', log' :=
      TryPlace(p, counter, jobs[job], now, targets, freeAt, results, job, log);
    if placed {
      var e := Entry(job, now, results'[jobs[job].id]);
      LogGrows(p, jobs, targets, log, e);
      ResultsGrow(jobs, log, e);
    }
  }

  lemma LogGrows(p: Policy, jobs: seq<BenchJob>, targets: seq<Series>, log: seq<Entry>, e: Entry)
    requires LogOk(p, jobs, targets, log) && Continues(p, jobs, targets, log, e)
    ensures LogOk(p, jobs, targets, log + [e])
  {
    EachGrows(Continuing(p, jobs, targets), log, e);
  }

  lemma ResultsGrow(jobs: seq<BenchJob>, log: seq<Entry>, e: Entry)
    requires e.job < |jobs|
    ensures ResultsOf(jobs, log + [e]) == ResultsOf(jobs, log)[jobs[e.job].id := e.x]
  {
    assert (log + [e])[..|log|] == log;
  }

  // ---- what a pass keeps ----

  lemma LoggedGrows(log: seq<Entry>, log': seq<Entry>, now: real, taken: seq<nat>, k: nat)
    requires Extends(log, log', now, taken)
    ensures Logged(log', k) <==> Logged(log, k) || k in taken
  {
    if Logged(log, k) {
      var m :| 0 <= m < |log| && log[m].job == k;
      assert log'[m].job == k;
    }
    if k in taken {
      var m :| 0 <= m < |taken| && taken[m] == k;
      assert log'[|log| + m].job == k;
    }
    if Logged(log', k) {
      var m :| 0 <= m < |log'| && log'[m].job == k;
      if m >= |log| {
        assert log'[|log| + (m - |log|)].job == taken[m - |log|];
      } else {
        assert log[m].job == k;
      }
    }
  }

  /** What is left was not placed. */
  lemma LeftIsUntaken(p: Policy, jobs: seq<BenchJob>, targets: seq<Series>, now: real, ws: seq<Waiting>, i: nat)
    requires Ascending(ws) && i < |Left(p, jobs, targets, now, ws)|
    ensures Left(p, jobs, targets, now, ws)[i].job !in Taken(p, jobs, targets, now, ws)
  {
    var k := LeftSource(p, jobs, targets, now, ws, i);
    var taken := Taken(p, jobs, targets, now, ws);
    forall m | 0 <= m < |taken| ensures taken[m] != ws[k].job {
      var n := TakenSource(p, jobs, targets, now, ws, m);
      assert n != k;
      assert if n < k then ws[n].job < ws[k].job else ws[k].job < ws[n].job;
    }
  }

  lemma LeftWaits(p: Policy, jobs: seq<BenchJob>, targets: seq<Series>, arrived: nat, now: real, ws: seq<Waiting>,
                  i: nat)
    requires forall k :: 0 <= k < |ws| ==> WaitingOk(p, jobs, targets, arrived, ws[k]) && now <= ws[k].nextTry
    requires i < |Left(p, jobs, targets, now, ws)|
    ensures WaitingOk(p, jobs, targets, arrived, Left(p, jobs, targets, now, ws)[i])
    ensures now < Left(p, jobs, targets, now, ws)[i].nextTry
  {
    var k := LeftSource(p, jobs, targets, now, ws, i);
    assert WaitingOk(p, jobs, targets, arrived, ws[k]);
    if ws[k].nextTry <= now {
      NextTick(p, jobs[ws[k].job], targets, now);
    }
  }

  lemma PassKeepsLog(log: seq<Entry>, log': seq<Entry>, now: real, taken: seq<nat>, arrived: nat)
    requires Extends(log, log', now, taken) && OncePerJob(log)
    requires forall m :: 0 <= m < |log| ==> log[m].job < arrived
    requires forall m :: 0 <= m < |taken| ==> taken[m] < arrived && !Logged(log, taken[m])
    requires forall i, k :: 0 <= i < k < |taken| ==> taken[i] < taken[k]
    ensures OncePerJob(log') && forall m :: 0 <= m < |log'| ==> log'[m].job < arrived
  {
    forall m | |log| <= m < |log'| ensures log'[m].job == taken[m - |log|] {
      assert log'[|log| + (m - |log|)].job == taken[m - |log|];
    }
    forall a, b | 0 <= a < b < |log'| ensures log'[a].job != log'[b].job {
      if a < |log| <= b {
        assert log[a].job == log'[a].job;
        assert !Logged(log, taken[b - |log|]);
      }
    }
  }

  lemma PassKeeps(p: Policy, jobs: seq<BenchJob>, targets: seq<Series>, arrived: nat, now: real, ws: seq<Waiting>,
                  log: seq<Entry>, log': seq<Entry>)
    requires QueueOk(p, jobs, targets, arrived, ws, log)
    requires forall i :: 0 <= i < |ws| ==> now <= ws[i].nextTry
    requires Extends(log, log', now, Taken(p, jobs, targets, now, ws))
    ensures QueueOk(p, jobs, targets, arrived, Left(p, jobs, targets, now, ws), log')
    ensures forall i :: 0 <= i < |Left(p, jobs, targets, now, ws)| ==> now < Left(p, jobs, targets, now, ws)[i].nextTry
  {
    var left, taken := Left(p, jobs, targets, now, ws), Taken(p, jobs, targets, now, ws);
    PassAscends(p, jobs, targets, now, ws);
    forall m | 0 <= m < |taken| ensures taken[m] < arrived && !Logged(log, taken[m]) {
      var k := TakenSource(p, jobs, targets, now, ws, m);
      assert WaitingOk(p, jobs, targets, arrived, ws[k]);
    }
    PassKeepsLog(log, log', now, taken, arrived);
    forall i | 0 <= i < |left|
      ensures WaitingOk(p, jobs, targets, arrived, left[i]) && !Logged(log', left[i].job) && now < left[i].nextTry
    {
      LeftWaits(p, jobs, targets, arrived, now, ws, i);
      LeftIsUntaken(p, jobs, targets, now, ws, i);
      var k := LeftSource(p, jobs, targets, now, ws, i);
      LoggedGrows(log, log', now, taken, left[i].job);
    }
    forall k | 0 <= k < arrived ensures Logged(log', k) || Queued(left, k) {
      LoggedGrows(log, log', now, taken, k);
      if !Logged(log, k) {
        PassCovers(p, jobs, targets, now, ws, k);
      }
    }
  }

  lemma ArrivalKeeps(p: Policy, jobs: seq<BenchJob>, targets: seq<Series>, arrived: nat, pending: seq<Waiting>,
                     log: seq<Entry>)
    requires QueueOk(p, jobs, targets, arrived, pending, log) && arrived < |jobs|
    ensures QueueOk(p, jobs, targets, arrived + 1, pending + [Waiting(arrived, jobs[arrived].arrival)], log)
  {
    var w := Waiting(arrived, jobs[arrived].arrival);
    assert TriedUntil(p, jobs[arrived], targets, w.nextTry, 0);
    forall i | 0 <= i < |pending|
      ensures WaitingOk(p, jobs, targets, arrived + 1, pending[i]) && pending[i].job < arrived
    {
      assert WaitingOk(p, jobs, targets, arrived, pending[i]);
    }
    forall k | 0 <= k < arrived + 1 ensures Logged(log, k) || Queued(pending + [w], k) {
      QueuedAppend(pending, w, k);
    }
  }

  // ---- time ----

  /** Nothing logged is later than the clock, nothing pending is due and nothing still arrives before it. */
  ghost predicate ClockOk(jobs: seq<BenchJob>, arrived: nat, pending: seq<Waiting>, log: seq<Entry>, clock: real) {
    && Chronological(log)
    && (forall m :: 0 <= m < |log| ==> log[m].now <= clock)
    && (forall i :: 0 <= i < |pending| ==> clock < pending[i].nextTry)
    && (arrived < |jobs| ==> clock <= jobs[arrived].arrival)
  }

  /** Placements of a pass follow everything logged before. */
  lemma PassIsChronological(log: seq<Entry>, log': seq<Entry>, now: real, taken: seq<nat>)
    requires Chronological(log) && Extends(log, log', now, taken)
    requires forall i, k :: 0 <= i < k < |taken| ==> taken[i] < taken[k]
    requires forall a, m :: 0 <= a < |log| && 0 <= m < |taken| ==> Precedes(log[a], now, taken[m])
    requires forall m :: 0 <= m < |log| ==> log[m].now <= now
    ensures Chronological(log') && forall m :: 0 <= m < |log'| ==> log'[m].now <= now
  {
    forall m | |log| <= m < |log'| ensures log'[m].job == taken[m - |log|] && log'[m].now == now {
      assert log'[|log| + (m - |log|)].job == taken[m - |log|];
    }
    forall a, b | 0 <= a < b < |log'| ensures Precedes(log'[a], log'[b].now, log'[b].job) {
      if b < |log| {
        assert log'[a] == log[a] && log'[b] == log[b];
      } else if a < |log| {
        assert log'[a] == log[a] && Precedes(log[a], now, taken[b - |log|]);
      }
    }
  }

  /** A job placed at the instant of the clock has just arrived, so it comes after every logged one. */
  lemma TakenIsLater(p: Policy, jobs: seq<BenchJob>, targets: seq<Series>, arrived: nat, now: real, ws: seq<Waiting>,
                     log: seq<Entry>, clock: real, a: nat, m: nat)
    requires a < |log| && log[a].job < arrived && log[a].now <= clock <= now
    requires m < |Taken(p, jobs, targets, now, ws)|
    requires forall i :: 0 <= i < |ws| ==> clock < ws[i].nextTry || ws[i].job == arrived
    requires forall i :: 0 <= i < |ws| ==> now <= ws[i].nextTry
    ensures Precedes(log[a], now, Taken(p, jobs, targets, now, ws)[m])
  {
    var k := TakenSource(p, jobs, targets, now, ws, m);
  }

  /** One iteration keeps time: `arrived` and `ws` are as before the arrival and after it, if there was one. */
  lemma PassKeepsTime(p: Policy, jobs: seq<BenchJob>, targets: seq<Series>, arrived: nat, arrived': nat, now: real,
                      pending: seq<Waiting>, ws: seq<Waiting>, log: seq<Entry>, log': seq<Entry>, clock: real)
    requires ClockOk(jobs, arrived, pending, log, clock) && InOrder(jobs) && clock <= now
    requires forall m :: 0 <= m < |log| ==> log[m].job < arrived
    requires Arrives(jobs, arrived, arrived', now, pending, ws) && Ascending(ws)
    requires forall i :: 0 <= i < |ws| ==> now <= ws[i].nextTry
    requires Extends(log, log', now, Taken(p, jobs, targets, now, ws))
    requires forall i :: 0 <= i < |Left(p, jobs, targets, now, ws)| ==> now < Left(p, jobs, targets, now, ws)[i].nextTry
    ensures ClockOk(jobs, arrived', Left(p, jobs, targets, now, ws), log', now)
  {
    var taken := Taken(p, jobs, targets, now, ws);
    PassAscends(p, jobs, targets, now, ws);
    forall i | 0 <= i < |ws| ensures clock < ws[i].nextTry || ws[i].job == arrived {
      assert i < |pending| ==> ws[i] == pending[i];
    }
    forall a, m | 0 <= a < |log| && 0 <= m < |taken| ensures Precedes(log[a], now, taken[m]) {
      TakenIsLater(p, jobs, targets, arrived, now, ws, log, clock, a, m);
    }
    PassIsChronological(log, log', now, taken);
  }

  /** The next job arrives now and is appended, or it arrives later. */
  ghost predicate Arrives(jobs: seq<BenchJob>, arrived: nat, arrived': nat, now: real, pending: seq<Waiting>,
                          ws: seq<Waiting>) {
    if arrived < |jobs| && jobs[arrived].arrival <= now then
      jobs[arrived].arrival == now && arrived' == arrived + 1 && ws == pending + [Waiting(arrived, now)]
    else arrived' == arrived && ws == pending
  }

  /** The next event: the next arrival or the earliest retry, if any. */
  method NextEvent(jobs: seq<BenchJob>, arrived: nat, pending: seq<Waiting>) returns (next: Option<real>)
    requires arrived <= |jobs|
    ensures next.None? <==> arrived == |jobs| && pending == []
    ensures next.Some? ==> IsNext(jobs, arrived, pending, next.value)
  {
    next := if arrived < |jobs| then Some(jobs[arrived].arrival) else None;
    for i := 0 to |pending|
      invariant next.None? <==> arrived == |jobs| && i == 0
      invariant next.Some? && arrived < |jobs| ==> next.value <= jobs[arrived].arrival
      invariant next.Some? ==> forall k :: 0 <= k < i ==> next.value <= pending[k].nextTry
      invariant next.Some? ==> (arrived < |jobs| && next.value == jobs[arrived].arrival)
                               || exists k :: 0 <= k < i && pending[k].nextTry == next.value
    {
      if next.None? || pending[i].nextTry < next.value {
        next := Some(pending[i].nextTry);
      }
    }
  }

  /** No try up to the horizon found a feasible target. */
  ghost predicate NeverFeasible(p: Policy, targets: seq<Series>, horizon: real, j: BenchJob) {
    forall k: nat :: Tick(j, k) <= horizon ==> !FeasibleAt(p, j, targets, Tick(j, k))
  }

  /** What the loop has computed: a log in which every job is placed at most once, in order of decision. */
  ghost predicate Finished(p: Policy, jobs: seq<BenchJob>, targets: seq<Series>, horizon: real, log: seq<Entry>) {
    && LogOk(p, jobs, targets, log) && OncePerJob(log) && (InOrder(jobs) ==> Chronological(log))
    && (InOrder(jobs) && jobs != [] && jobs[|jobs| - 1].arrival <= horizon ==>
          forall k :: 0 <= k < |jobs| && !Logged(log, k) ==> NeverFeasible(p, targets, horizon, jobs[k]))
  }

  /** What the loop keeps. */
  ghost predicate LoopOk(p: Policy, jobs: seq<BenchJob>, targets: seq<Series>, arrived: nat, pending: seq<Waiting>,
                         log: seq<Entry>, clock: real) {
    QueueOk(p, jobs, targets, arrived, pending, log) && (InOrder(jobs) ==> ClockOk(jobs, arrived, pending, log, clock))
  }

  /** One iteration at `now`: an arrival is taken or a try used up. */
  method Iterate(p: Policy, counter: nat, jobs: seq<BenchJob>, targets: seq<Series>, now: real, arrived: nat,
                 pending: seq<Waiting>, freeAt: map<string, real>, results: map<string, Execution>,
                 ghost log: seq<Entry>, ghost clock: real, ghost tries: real -> nat, ghost horizon: real)
    returns (arrived': nat, still: seq<Waiting>, freeAt': map<string, real>, results': map<string, Execution>,
             counter': nat, ghost log': seq<Entry>)
    requires ValidTargets(targets) && Mirrors(p, jobs, targets, log, freeAt, results, counter)
    requires LoopOk(p, jobs, targets, arrived, pending, log, clock)
    requires IsNext(jobs, arrived, pending, now) && now <= horizon && Shrinks(tries, horizon)
    ensures LoopOk(p, jobs, targets, arrived', still, log', now)
    ensures Mirrors(p, jobs, targets, log', freeAt', results', counter')
    ensures arrived < arrived' || (arrived' == arrived && TriesLeft(tries, still) < TriesLeft(tries, pending))
  {
    arrived' := arrived;
    var ws := pending;
    if arrived < |jobs| && jobs[arrived].arrival <= now {
      ArrivalKeeps(p, jobs, targets, arrived, pending, log);
      ws := pending + [Waiting(arrived, now)];
      arrived' := arrived + 1;
    }
    still, freeAt', results', counter', log' :=
      Round(p, counter, jobs, targets, now, arrived', ws, freeAt, results, log);
    PassKeeps(p, jobs, targets, arrived', now, ws, log, log');
    PassCosts(p, jobs, targets, now, ws, tries, horizon);
    if InOrder(jobs) {
      NextIsLater(jobs, arrived, pending, log, clock, now);
      PassKeepsTime(p, jobs, targets, arrived, arrived', now, pending, ws, log, log', clock);
    }
  }

  /** `now` is the earliest arrival or retry. */
  ghost predicate IsNext(jobs: seq<BenchJob>, arrived: nat, pending: seq<Waiting>, now: real) {
    && (arrived < |jobs| ==> now <= jobs[arrived].arrival)
    && (forall i :: 0 <= i < |pending| ==> now <= pending[i].nextTry)
    && ((arrived < |jobs| && now == jobs[arrived].arrival) || Due(pending, now))
  }

  lemma NextIsLater(jobs: seq<BenchJob>, arrived: nat, pending: seq<Waiting>, log: seq<Entry>, clock: real, now: real)
    requires ClockOk(jobs, arrived, pending, log, clock) && IsNext(jobs, arrived, pending, now)
    ensures clock <= now
  {
  }

  /** The event loop: every iteration takes an arrival or uses up a try, so it ends. */
  method RunEvents(p: Policy, jobs: seq<BenchJob>, targets: seq<Series>, horizon: real)
    returns (results: map<string, Execution>, ghost log: seq<Entry>)
    requires ValidTargets(targets)
    ensures Finished(p, jobs, targets, horizon, log) && results == ResultsOf(jobs, log)
  {
    var freeAt: map<string, real> := map i | 0 <= i < |targets| :: targets[i].name := 0.0;
    var arrived: nat, counter: nat := 0, 0;
    var pending: seq<Waiting> := [];
    results, log := map[], [];
    ghost var clock := if jobs == [] then 0.0 else jobs[0].arrival;
    TriesShrink(horizon);
    ghost var tries: real -> nat :| Shrinks(tries, horizon);
    while true
      invariant LoopOk(p, jobs, targets, arrived, pending, log, clock)
      invariant Mirrors(p, jobs, targets, log, freeAt, results, counter)
      decreases |jobs| - arrived, TriesLeft(tries, pending)
    {
      var next := NextEvent(jobs, arrived, pending);
      if next.None? || next.value > horizon {
        Ends(p, jobs, targets, arrived, pending, log, horizon);
        break;
      }
      arrived, pending, freeAt, results, counter, log :=
        Iterate(p, counter, jobs, targets, next.value, arrived, pending, freeAt, results, log, clock, tries, horizon);
      clock := next.value;
    }
  }

  /** When the loop stops, a job without a placement has been tried until the horizon in vain. */
  lemma Ends(p: Policy, jobs: seq<BenchJob>, targets: seq<Series>, arrived: nat, pending: seq<Waiting>, log: seq<Entry>,
             horizon: real)
    requires QueueOk(p, jobs, targets, arrived, pending, log)
    requires forall i :: 0 <= i < |pending| ==> horizon < pending[i].nextTry
    requires arrived < |jobs| ==> horizon < jobs[arrived].arrival
    ensures InOrder(jobs) && jobs != [] && jobs[|jobs| - 1].arrival <= horizon ==>
              forall k :: 0 <= k < |jobs| && !Logged(log, k) ==> NeverFeasible(p, targets, horizon, jobs[k])
  {
    assert arrived < |jobs| && InOrder(jobs) ==> jobs[arrived].arrival <= jobs[|jobs| - 1].arrival;
    if InOrder(jobs) && jobs != [] && jobs[|jobs| - 1].arrival <= horizon {
      forall k | 0 <= k < |jobs| && !Logged(log, k) ensures NeverFeasible(p, targets, horizon, jobs[k]) {
        assert Queued(pending, k);
        var i :| 0 <= i < |pending| && pending[i].job == k;
        assert WaitingOk(p, jobs, targets, arrived, pending[i]);
        TriedInVain(p, jobs[k], targets, pending[i].nextTry, horizon);
      }
    }
  }

  lemma TriedInVain(p: Policy, j: BenchJob, targets: seq<Series>, t: real, horizon: real)
    requires OnTick(p, j, targets, t) && horizon < t
    ensures NeverFeasible(p, targets, horizon, j)
  {
    var n: nat :| TriedUntil(p, j, targets, t, n);
    forall m: nat | Tick(j, m) <= horizon ensures !FeasibleAt(p, j, targets, Tick(j, m)) {
      assert m < n;
    }
  }

  // ---- the records ----

  function Unplaced(j: BenchJob, horizon: real): Execution {
    Execution(j.id, j.shots, j.arrival, 0.0, 0.0, horizon - j.arrival, "", "", j.floor2Q, j.floorRO, false, j.deadline,
              false, true)
  }

  /** A job's record is what was logged for it, or says that it was never placed. */
  ghost predicate Reports(log: seq<Entry>, horizon: real, jobs: seq<BenchJob>, k: nat, x: Execution)
    requires k < |jobs|
  {
    if Logged(log, k) then exists m :: 0 <= m < |log| && log[m].job == k && x == log[m].x
    else x == Unplaced(jobs[k], horizon)
  }

  /** What the record of a job says that was never placed. */
  lemma UnplacedRecord(log: seq<Entry>, horizon: real, jobs: seq<BenchJob>, k: nat, x: Execution)
    requires k < |jobs| && Reports(log, horizon, jobs, k, x) && !Logged(log, k)
    ensures x.unplaced && x.target == "" && x.snapshotId == "" && !x.deadlineMet && !x.sloViolated
    ensures x.jobId == jobs[k].id && x.arrival == jobs[k].arrival && x.wait == horizon - jobs[k].arrival
  {
  }

  lemma SameJob(jobs: seq<BenchJob>, i: nat, k: nat)
    requires UniqueIds(jobs) && i < |jobs| && k < |jobs| && jobs[i].id == jobs[k].id
    ensures i == k
  {
  }

  lemma {:induction false} ResultsReport(jobs: seq<BenchJob>, log: seq<Entry>, horizon: real, k: nat)
    requires UniqueIds(jobs) && k < |jobs|
    ensures jobs[k].id in ResultsOf(jobs, log) <==> Logged(log, k)
    ensures jobs[k].id in ResultsOf(jobs, log) ==> Reports(log, horizon, jobs, k, ResultsOf(jobs, log)[jobs[k].id])
  {
    if log != [] {
      var rest, last := log[..|log| - 1], log[|log| - 1];
      ResultsReport(jobs, rest, horizon, k);
      if last.job < |jobs| && jobs[last.job].id == jobs[k].id {
        SameJob(jobs, last.job, k);
        assert log[|log| - 1].job == k;
      }
      if Logged(rest, k) {
        var m :| 0 <= m < |rest| && rest[m].job == k
                 && (last.job != k ==> ResultsOf(jobs, log)[jobs[k].id] == rest[m].x);
        assert log[m].job == k && log[m].x == rest[m].x;
      }
    }
  }

  /** Jobs never placed within the horizon get an unplaced record. */
  method FillUnplaced(jobs: seq<BenchJob>, horizon: real, placed: map<string, Execution>)
    returns (results: map<string, Execution>)
    requires UniqueIds(jobs)
    ensures forall k :: 0 <= k < |jobs| ==> jobs[k].id in results
    ensures forall k :: 0 <= k < |jobs| ==>
              results[jobs[k].id] == if jobs[k].id in placed then placed[jobs[k].id] else Unplaced(jobs[k], horizon)
  {
    results := placed;
    for k := 0 to |jobs|
      invariant forall i :: 0 <= i < k ==> jobs[i].id in results
      invariant forall i :: 0 <= i < k ==>
                  results[jobs[i].id] == if jobs[i].id in placed then placed[jobs[i].id] else Unplaced(jobs[i], horizon)
      invariant forall i :: k <= i < |jobs| ==> (jobs[i].id in results <==> jobs[i].id in placed)
      invariant forall id :: id in placed ==> id in results && results[id] == placed[id]
    {
      if jobs[k].id !in results {
        results := results[jobs[k].id := Unplaced(jobs[k], horizon)];
      }
    }
  }

  /**
   simulate: one record per job in workload order, and the log of the placements behind them. Each job is placed at
   most once, at its first try with a feasible target, on the policy's choice for the fleet exactly as the placements
   before it left it, and starts as soon as that target is free; a job without a placement was infeasible at every try.
   */
  method Simulate(p: Policy, jobs: seq<BenchJob>, targets: seq<Series>)
    returns (out: seq<Execution>, ghost log: seq<Entry>)
    requires jobs != [] && UniqueIds(jobs) && ValidTargets(targets)
    ensures |out| == |jobs|
    ensures Finished(p, jobs, targets, jobs[|jobs| - 1].arrival + 12.0 * 3600.0, log)
    ensures forall k :: 0 <= k < |jobs| ==> Reports(log, jobs[|jobs| - 1].arrival + 12.0 * 3600.0, jobs, k, out[k])
  {
    var horizon := jobs[|jobs| - 1].arrival + DRAIN_CAP;
    var placed;
    placed, log := RunEvents(p, jobs, targets, horizon);
    var results := FillUnplaced(jobs, horizon, placed);
    out := [];
    for k := 0 to |jobs|
      invariant |out| == k && forall i :: 0 <= i < k ==> Reports(log, horizon, jobs, i, out[i])
    {
      ResultsReport(jobs, log, horizon, k);
      out := out + [results[jobs[k].id]];
    }
  }

  /** Two records of one target never overlap, and none starts before its arrival. */
  lemma RecordsAreApart(p: Policy, jobs: seq<BenchJob>, targets: seq<Series>, horizon: real, log: seq<Entry>,
                        i: nat, k: nat, x: Execution, y: Execution)
    requires Finished(p, jobs, targets, horizon, log) && i < |jobs| && k < |jobs| && i != k
    requires Reports(log, horizon, jobs, i, x) && Reports(log, horizon, jobs, k, y) && !x.unplaced && !y.unplaced
    ensures Disjoint(x, y) && jobs[i].arrival <= x.start && jobs[k].arrival <= y.start
  {
    var a :| 0 <= a < |log| && log[a].job == i && x == log[a].x;
    var b :| 0 <= b < |log| && log[b].job == k && y == log[b].x;
    if a < b {
      NoOverlap(p, jobs, targets, log, a, b);
    } else {
      NoOverlap(p, jobs, targets, log, b, a);
    }
    EntryContinues(p, jobs, targets, log, a);
    StartsFree(p, jobs, targets, log[..a], log[a]);
    EntryContinues(p, jobs, targets, log, b);
    StartsFree(p, jobs, targets, log[..b], log[b]);
  }
}
