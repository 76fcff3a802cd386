/**
 Calibration replay (adapters/aer/src/rabi_aer/replay.py): drift within a calibration cycle, and what
 it does to the scheduler's estimates and floors. The hashed, seeded noise is an arbitrary non-negative
 function of metric identity, cycle and step.
 */
module Replay {
  import opened Common
  import opened OrderStatistics
  import opened Fleet
  import opened Esp
  import opened Scheduling
  import opened Placement

  type MetricKey = (string, seq<nat>)

  datatype DriftConfig = DriftConfig(calibrationPeriodH: real, stepMinutes: real, maxDrift: real,
                                     degradationPerHour: real)

  /** Increment noise: |N(0, sigma)| of the metric, cycle and step. */
  type Noise = (MetricKey, int, int) -> real

  ghost predicate Valid(cfg: DriftConfig, noise: Noise) {
    && cfg.calibrationPeriodH > 0.0 && cfg.stepMinutes > 0.0 && cfg.maxDrift >= 0.0 && cfg.degradationPerHour >= 0.0
    && forall key, cycle, k :: noise(key, cycle, k) >= 0.0
  }

  function KeyOf(m: Metric): MetricKey {
    (m.name, m.qubits)
  }

  function Increment(cfg: DriftConfig, noise: Noise, key: MetricKey, cycle: int, k: int): real {
    cfg.degradationPerHour * (cfg.stepMinutes / 60.0) + noise(key, cycle, k)
  }

  function WalkTotal(cfg: DriftConfig, noise: Noise, key: MetricKey, cycle: int, steps: nat): real {
    if steps == 0 then 0.0
    else WalkTotal(cfg, noise, key, cycle, steps - 1) + Increment(cfg, noise, key, cycle, steps - 1)
  }

  function Min(a: real, b: real): real {
    if a <= b then a else b
  }

  function Walk(cfg: DriftConfig, noise: Noise, key: MetricKey, cycle: int, steps: nat): real {
    Min(WalkTotal(cfg, noise, key, cycle, steps), cfg.maxDrift)
  }

  method ComputeWalk(cfg: DriftConfig, noise: Noise, key: MetricKey, cycle: int, steps: nat) returns (walk: real)
    ensures walk == Walk(cfg, noise, key, cycle, steps)
  {
    var stepH := cfg.stepMinutes / 60.0;
    var total := 0.0;
    for k := 0 to steps
      invariant total == WalkTotal(cfg, noise, key, cycle, k)
    {
      total := total + (cfg.degradationPerHour * stepH + noise(key, cycle, k));
    }
    walk := if total <= cfg.maxDrift then total else cfg.maxDrift;
  }

  predicate Drifts(name: string) {
    HasPrefix(name, "gate.2q.") || name == "gate.1q.error" || name == "readout.error"
  }

  /** An error raised by the walk, at most one. */
  function Capped(value: real, walk: real): real {
    Min(value * (1.0 + walk), 1.0)
  }

  function DriftedValue(name: string, value: real, walk: real): real
    requires walk >= 0.0
  {
    if Drifts(name) then Capped(value, walk)
    else if name == "t1.us" || name == "t2.us" then value / (1.0 + walk)
    else value
  }

  lemma {:induction false} WalkTotalGrows(cfg: DriftConfig, noise: Noise, key: MetricKey, cycle: int, a: nat, b: nat)
    requires Valid(cfg, noise) && a <= b
    ensures 0.0 <= WalkTotal(cfg, noise, key, cycle, a) <= WalkTotal(cfg, noise, key, cycle, b)
    decreases b
  {
    if b > 0 {
      if a == b {
        WalkTotalGrows(cfg, noise, key, cycle, a - 1, b - 1);
      } else {
        WalkTotalGrows(cfg, noise, key, cycle, a, b - 1);
      }
      IncrementNonNegative(cfg, noise, key, cycle, b - 1);
    }
  }

  lemma IncrementNonNegative(cfg: DriftConfig, noise: Noise, key: MetricKey, cycle: int, k: int)
    requires Valid(cfg, noise)
    ensures Increment(cfg, noise, key, cycle, k) >= 0.0
  {
    assert cfg.stepMinutes / 60.0 >= 0.0;
    MulMonotone(0.0, cfg.degradationPerHour, 0.0, cfg.stepMinutes / 60.0);
  }

  function DriftMetrics(baseline: seq<Metric>, cfg: DriftConfig, noise: Noise, cycle: int, step: nat): (ms: seq<Metric>)
    requires forall m :: m in baseline ==> Walk(cfg, noise, KeyOf(m), cycle, step) >= 0.0
    ensures |ms| == |baseline|
  {
    seq(|baseline|, i requires 0 <= i < |baseline| =>
      var walk := Walk(cfg, noise, KeyOf(baseline[i]), cycle, step);
      baseline[i].(value := DriftedValue(baseline[i].name, baseline[i].value, walk)))
  }

  lemma WalkBounds(cfg: DriftConfig, noise: Noise, key: MetricKey, cycle: int, a: nat, b: nat)
    requires Valid(cfg, noise) && a <= b
    ensures 0.0 <= Walk(cfg, noise, key, cycle, a) <= Walk(cfg, noise, key, cycle, b) <= cfg.maxDrift
    ensures Walk(cfg, noise, key, cycle, 0) == 0.0
  {
    WalkTotalGrows(cfg, noise, key, cycle, a, b);
  }

  // ---- how much a device drifts ----

  /** The walk starts at zero and gains the drift rate and the noise of every step, until it rests at the cap. */
  lemma WalkStep(cfg: DriftConfig, noise: Noise, key: MetricKey, cycle: int, n: nat)
    requires Valid(cfg, noise)
    ensures Walk(cfg, noise, key, cycle, 0) == 0.0
    ensures Walk(cfg, noise, key, cycle, n + 1) ==
            Min(Walk(cfg, noise, key, cycle, n) + cfg.degradationPerHour * (cfg.stepMinutes / 60.0)
                + noise(key, cycle, n), cfg.maxDrift)
  {
    IncrementNonNegative(cfg, noise, key, cycle, n);
    WalkTotalGrows(cfg, noise, key, cycle, 0, n);
  }

  /** What n steps without noise amount to. */
  function Steady(cfg: DriftConfig, n: nat): real {
    Min(n as real * (cfg.degradationPerHour * (cfg.stepMinutes / 60.0)), cfg.maxDrift)
  }

  /** After n steps the walk is at least the drift rate times the time, up to the cap; without noise it is just that. */
  lemma {:induction false} WalkAtLeast(cfg: DriftConfig, noise: Noise, key: MetricKey, cycle: int, n: nat)
    requires Valid(cfg, noise)
    ensures Walk(cfg, noise, key, cycle, n) >= Steady(cfg, n)
    ensures (forall k :: 0 <= k < n ==> noise(key, cycle, k) == 0.0) ==>
              Walk(cfg, noise, key, cycle, n) == Steady(cfg, n)
  {
    if n > 0 {
      WalkAtLeast(cfg, noise, key, cycle, n - 1);
      WalkStep(cfg, noise, key, cycle, n - 1);
      IncrementNonNegative(cfg, noise, key, cycle, n - 1);
      SteadyStep(cfg, n - 1);
    } else {
      WalkStep(cfg, noise, key, cycle, 0);
    }
  }

  lemma SteadyStep(cfg: DriftConfig, n: nat)
    requires cfg.stepMinutes > 0.0 && cfg.maxDrift >= 0.0 && cfg.degradationPerHour >= 0.0
    ensures Steady(cfg, n + 1) == Min(Steady(cfg, n) + cfg.degradationPerHour * (cfg.stepMinutes / 60.0), cfg.maxDrift)
  {
    var rate := cfg.degradationPerHour * (cfg.stepMinutes / 60.0);
    MulMonotone(0.0, cfg.degradationPerHour, 0.0, cfg.stepMinutes / 60.0);
    OneMore(n as real, rate);
    assert (n + 1) as real == n as real + 1.0;
  }

  // ---- time ----

  datatype ReplayState = ReplayState(cycle: int, step: int, metrics: seq<Metric>)

  function Elapsed(simTime: real, epoch: real): real {
    if simTime - epoch >= 0.0 then simTime - epoch else 0.0
  }

  function PeriodS(cfg: DriftConfig): real { cfg.calibrationPeriodH * 3600.0 }

  function StepS(cfg: DriftConfig): real { cfg.stepMinutes * 60.0 }

  function CycleAt(cfg: DriftConfig, simTime: real, epoch: real): int
    requires cfg.calibrationPeriodH > 0.0
  {
    (Elapsed(simTime, epoch) / PeriodS(cfg)).Floor
  }

  function PhaseAt(cfg: DriftConfig, simTime: real, epoch: real): real
    requires cfg.calibrationPeriodH > 0.0
  {
    Elapsed(simTime, epoch) - CycleAt(cfg, simTime, epoch) as real * PeriodS(cfg)
  }

  function StepAt(cfg: DriftConfig, simTime: real, epoch: real): int
    requires cfg.calibrationPeriodH > 0.0 && cfg.stepMinutes > 0.0
  {
    (PhaseAt(cfg, simTime, epoch) / StepS(cfg)).Floor
  }

  lemma PhaseWithinPeriod(cfg: DriftConfig, simTime: real, epoch: real)
    requires cfg.calibrationPeriodH > 0.0 && cfg.stepMinutes > 0.0
    ensures CycleAt(cfg, simTime, epoch) >= 0
    ensures 0.0 <= PhaseAt(cfg, simTime, epoch) < PeriodS(cfg)
    ensures StepAt(cfg, simTime, epoch) >= 0
  {
    var e, p := Elapsed(simTime, epoch), PeriodS(cfg);
    var q := e / p;
    FloorRemainder(e, p);
    FloorRemainder(PhaseAt(cfg, simTime, epoch), StepS(cfg));
  }

  lemma FloorRemainder(e: real, p: real)
    requires e >= 0.0 && p > 0.0
    ensures (e / p).Floor >= 0
    ensures 0.0 <= e - (e / p).Floor as real * p < p
  {
    FloorBounds(e / p);
    var c := (e / p).Floor as real;
    QuotientShift(e, c, p);
    QuotientBelowOne(e - c * p, p);
    assert e / p >= 0.0;
  }

  lemma QuotientShift(e: real, c: real, p: real)
    requires p > 0.0
    ensures (e - c * p) / p == e / p - c
  {
  }

  lemma QuotientBelowOne(x: real, p: real)
    requires p > 0.0 && 0.0 <= x / p < 1.0
    ensures 0.0 <= x < p
  {
  }

  lemma FloorBounds(q: real)
    ensures q.Floor as real <= q < q.Floor as real + 1.0
    ensures q >= 0.0 ==> q.Floor >= 0
  {
  }

  lemma FloorOfInteger(c: int)
    ensures (c as real).Floor == c
  {
    FloorBounds(c as real);
  }

  /** Cycle and step are the ones in effect: sim time, from the epoch on, lies within both. */
  lemma TimeDecomposes(cfg: DriftConfig, simTime: real, epoch: real)
    requires cfg.calibrationPeriodH > 0.0 && cfg.stepMinutes > 0.0
    ensures var e, c, n := if simTime >= epoch then simTime - epoch else 0.0, CycleAt(cfg, simTime, epoch) as real,
                           StepAt(cfg, simTime, epoch) as real;
            && c * (cfg.calibrationPeriodH * 3600.0) <= e < (c + 1.0) * (cfg.calibrationPeriodH * 3600.0)
            && n * (cfg.stepMinutes * 60.0) <= e - c * (cfg.calibrationPeriodH * 3600.0)
               < (n + 1.0) * (cfg.stepMinutes * 60.0)
  {
    PhaseWithinPeriod(cfg, simTime, epoch);
    FloorRemainder(PhaseAt(cfg, simTime, epoch), StepS(cfg));
    OneMore(CycleAt(cfg, simTime, epoch) as real, PeriodS(cfg));
    OneMore(StepAt(cfg, simTime, epoch) as real, StepS(cfg));
  }

  lemma OneMore(n: real, p: real)
    ensures (n + 1.0) * p == n * p + p
  {
  }

  /** snapshot_at: the drifted snapshot the device exhibits at sim time. */
  method SnapshotAt(baseline: seq<Metric>, cfg: DriftConfig, noise: Noise, simTime: real, epoch: real)
    returns (state: ReplayState)
    requires Valid(cfg, noise)
    ensures state.cycle == CycleAt(cfg, simTime, epoch) >= 0 && state.step == StepAt(cfg, simTime, epoch) >= 0
    ensures state.metrics == MetricsAt(baseline, cfg, noise, simTime, epoch)
  {
    PhaseWithinPeriod(cfg, simTime, epoch);
    var cycle, step := CycleAt(cfg, simTime, epoch), StepAt(cfg, simTime, epoch);
    forall m | m in baseline ensures Walk(cfg, noise, KeyOf(m), cycle, step) >= 0.0 {
      WalkBounds(cfg, noise, KeyOf(m), cycle, step, step);
    }
    var metrics := [];
    for i := 0 to |baseline|
      invariant metrics == DriftMetrics(baseline, cfg, noise, cycle, step)[..i]
    {
      var walk := ComputeWalk(cfg, noise, KeyOf(baseline[i]), cycle, step);
      metrics := metrics + [baseline[i].(value := DriftedValue(baseline[i].name, baseline[i].value, walk))];
    }
    state := ReplayState(cycle, step, metrics);
  }

  /** The snapshot as a function of time, for stating what holds between two instants. */
  ghost function MetricsAt(baseline: seq<Metric>, cfg: DriftConfig, noise: Noise, simTime: real,
                           epoch: real): (ms: seq<Metric>)
    requires Valid(cfg, noise)
    ensures |ms| == |baseline|
  {
    PhaseWithinPeriod(cfg, simTime, epoch);
    WalksNonNegative(baseline, cfg, noise, CycleAt(cfg, simTime, epoch), StepAt(cfg, simTime, epoch));
    DriftMetrics(baseline, cfg, noise, CycleAt(cfg, simTime, epoch), StepAt(cfg, simTime, epoch))
  }

  lemma WalksNonNegative(baseline: seq<Metric>, cfg: DriftConfig, noise: Noise, cycle: int, step: nat)
    requires Valid(cfg, noise)
    ensures forall m :: m in baseline ==> Walk(cfg, noise, KeyOf(m), cycle, step) >= 0.0
  {
    forall m | m in baseline ensures Walk(cfg, noise, KeyOf(m), cycle, step) >= 0.0 {
      WalkBounds(cfg, noise, KeyOf(m), cycle, step, step);
    }
  }

  // ---- what drift does ----

  lemma ErrorMetricsDrift(name: string)
    requires IsErrorMetric(name)
    ensures Drifts(name)
  {
  }

  lemma DriftedValueBounds(name: string, value: real, walk: real, cap: real)
    requires Drifts(name) && 0.0 <= value <= 1.0 && 0.0 <= walk <= cap
    ensures value <= DriftedValue(name, value, walk) <= Min(value * (1.0 + cap), 1.0)
  {
    ScaledUp(value, walk, cap);
    assert DriftedValue(name, value, walk) == Capped(value, walk);
  }

  lemma ScaledUp(value: real, walk: real, cap: real)
    requires 0.0 <= value && 0.0 <= walk <= cap
    ensures value <= value * (1.0 + walk) <= value * (1.0 + cap)
  {
    ScaledMore(value, 0.0, walk);
    ScaledMore(value, walk, cap);
  }

  lemma ScaledMore(value: real, a: real, b: real)
    requires 0.0 <= value && a <= b
    ensures value * (1.0 + a) <= value * (1.0 + b)
  {
    assert value * (b - a) >= 0.0;
    assert value * (1.0 + b) == value * (1.0 + a) + value * (b - a);
  }

  lemma DriftedValueMonotone(name: string, value: real, walk: real, walk': real)
    requires Drifts(name) && 0.0 <= value && 0.0 <= walk <= walk'
    ensures DriftedValue(name, value, walk) <= DriftedValue(name, value, walk')
  {
    CappedMore(value, walk, walk');
    assert DriftedValue(name, value, walk) == Capped(value, walk);
    assert DriftedValue(name, value, walk') == Capped(value, walk');
  }

  lemma CappedMore(value: real, a: real, b: real)
    requires 0.0 <= value && a <= b
    ensures Capped(value, a) <= Capped(value, b)
  {
    ScaledMore(value, a, b);
  }

  /** Every error metric stays within [baseline, min(baseline * (1 + maxDrift), 1)]. */
  lemma DriftIsBounded(baseline: seq<Metric>, cfg: DriftConfig, noise: Noise, simTime: real, epoch: real, i: nat)
    requires Valid(cfg, noise) && ValidErrors(baseline) && i < |baseline| && IsErrorMetric(baseline[i].name)
    ensures var v := MetricsAt(baseline, cfg, noise, simTime, epoch)[i].value;
            baseline[i].value <= v <= Min(baseline[i].value * (1.0 + cfg.maxDrift), 1.0)
  {
    PhaseWithinPeriod(cfg, simTime, epoch);
    var cycle, step := CycleAt(cfg, simTime, epoch), StepAt(cfg, simTime, epoch);
    WalkBounds(cfg, noise, KeyOf(baseline[i]), cycle, step, step);
    ErrorMetricsDrift(baseline[i].name);
    DriftedValueBounds(baseline[i].name, baseline[i].value, Walk(cfg, noise, KeyOf(baseline[i]), cycle, step),
                       cfg.maxDrift);
  }

  lemma DriftedErrorsValid(baseline: seq<Metric>, cfg: DriftConfig, noise: Noise, simTime: real, epoch: real)
    requires Valid(cfg, noise) && ValidErrors(baseline)
    ensures ValidErrors(MetricsAt(baseline, cfg, noise, simTime, epoch))
  {
    var ms := MetricsAt(baseline, cfg, noise, simTime, epoch);
    forall i | 0 <= i < |ms| && IsErrorMetric(ms[i].name) ensures 0.0 <= ms[i].value <= 1.0 {
      DriftIsBounded(baseline, cfg, noise, simTime, epoch, i);
    }
  }

  /**
   How far a snapshot has drifted at its step n: every error metric is at least the baseline raised by the drift rate
   times the time, up to the cap, coherence times are at most the baseline divided by it, and both are exactly that
   without noise. Nothing else moves.
   */
  lemma SnapshotDrifts(baseline: seq<Metric>, cfg: DriftConfig, noise: Noise, simTime: real, epoch: real, i: nat)
    requires Valid(cfg, noise) && i < |baseline| && baseline[i].value >= 0.0
    ensures StepAt(cfg, simTime, epoch) >= 0
    ensures DriftsAsConfigured(cfg, noise, CycleAt(cfg, simTime, epoch), StepAt(cfg, simTime, epoch), baseline[i],
                               MetricsAt(baseline, cfg, noise, simTime, epoch)[i])
  {
    MetricAt(baseline, cfg, noise, simTime, epoch, i);
    MetricDrifts(cfg, noise, CycleAt(cfg, simTime, epoch), StepAt(cfg, simTime, epoch), baseline[i]);
  }

  /** At least the drift of n steps at the configured rate, and no more if there was no noise. */
  ghost predicate DriftsAsConfigured(cfg: DriftConfig, noise: Noise, cycle: int, n: nat, b: Metric, m: Metric) {
    var drift := Min(n as real * (cfg.degradationPerHour * (cfg.stepMinutes / 60.0)), cfg.maxDrift);
    && m.name == b.name && m.qubits == b.qubits && DriftedBy(b.name, b.value, drift, m.value)
    && ((forall k :: 0 <= k < n ==> noise((b.name, b.qubits), cycle, k) == 0.0) ==>
          DriftedExactly(b.name, b.value, drift, m.value))
  }

  lemma MetricDrifts(cfg: DriftConfig, noise: Noise, cycle: int, n: nat, b: Metric)
    requires Valid(cfg, noise) && b.value >= 0.0
    ensures Walk(cfg, noise, KeyOf(b), cycle, n) >= 0.0
    ensures DriftsAsConfigured(cfg, noise, cycle, n, b,
                               b.(value := DriftedValue(b.name, b.value, Walk(cfg, noise, KeyOf(b), cycle, n))))
  {
    WalkAtLeast(cfg, noise, KeyOf(b), cycle, n);
    SteadyBounds(cfg, n);
    ValueDrifts(b.name, b.value, Steady(cfg, n), Walk(cfg, noise, KeyOf(b), cycle, n));
  }

  /** A value moved at least as far as this drift moves it. */
  predicate DriftedBy(name: string, value: real, drift: real, value': real) {
    if IsErrorMetric(name) then value' >= Min(value * (1.0 + drift), 1.0)
    else if name == "t1.us" || name == "t2.us" then value' * (1.0 + drift) <= value
    else HasPrefix(name, "gate.2q.") || value' == value
  }

  predicate DriftedExactly(name: string, value: real, drift: real, value': real) {
    if IsErrorMetric(name) then value' == Min(value * (1.0 + drift), 1.0)
    else if name == "t1.us" || name == "t2.us" then value' * (1.0 + drift) == value
    else HasPrefix(name, "gate.2q.") || value' == value
  }

  lemma MetricAt(baseline: seq<Metric>, cfg: DriftConfig, noise: Noise, simTime: real, epoch: real, i: nat)
    requires Valid(cfg, noise) && i < |baseline|
    ensures StepAt(cfg, simTime, epoch) >= 0
    ensures var walk := Walk(cfg, noise, KeyOf(baseline[i]), CycleAt(cfg, simTime, epoch), StepAt(cfg, simTime, epoch));
            && walk >= 0.0
            && MetricsAt(baseline, cfg, noise, simTime, epoch)[i]
               == baseline[i].(value := DriftedValue(baseline[i].name, baseline[i].value, walk))
  {
    PhaseWithinPeriod(cfg, simTime, epoch);
    WalksNonNegative(baseline, cfg, noise, CycleAt(cfg, simTime, epoch), StepAt(cfg, simTime, epoch));
  }

  lemma SteadyBounds(cfg: DriftConfig, n: nat)
    requires cfg.stepMinutes > 0.0 && cfg.maxDrift >= 0.0 && cfg.degradationPerHour >= 0.0
    ensures Steady(cfg, n) >= 0.0
  {
    MulMonotone(0.0, cfg.degradationPerHour, 0.0, cfg.stepMinutes / 60.0);
    MulMonotone(0.0, n as real, 0.0, cfg.degradationPerHour * (cfg.stepMinutes / 60.0));
  }

  lemma ValueDrifts(name: string, value: real, low: real, walk: real)
    requires value >= 0.0 && 0.0 <= low <= walk
    ensures DriftedBy(name, value, low, DriftedValue(name, value, walk))
    ensures DriftedExactly(name, value, walk, DriftedValue(name, value, walk))
  {
    if IsErrorMetric(name) {
      ErrorMetricsDrift(name);
      CappedMore(value, low, walk);
    } else if name == "t1.us" || name == "t2.us" {
      assert name[0] == 't' && "gate.2q."[0] == 'g';
      Shortened(value, low, walk);
    }
  }

  lemma Shortened(value: real, low: real, walk: real)
    requires value >= 0.0 && 0.0 <= low <= walk
    ensures value / (1.0 + walk) * (1.0 + low) <= value == value / (1.0 + walk) * (1.0 + walk)
  {
    var q := value / (1.0 + walk);
    assert q >= 0.0;
    ScaledMore(q, low, walk);
  }

  ghost predicate SameCycle(cfg: DriftConfig, t1: real, t2: real, epoch: real)
    requires cfg.calibrationPeriodH > 0.0
  {
    t1 <= t2 && CycleAt(cfg, t1, epoch) == CycleAt(cfg, t2, epoch)
  }

  lemma StepsAdvance(cfg: DriftConfig, t1: real, t2: real, epoch: real)
    requires cfg.calibrationPeriodH > 0.0 && cfg.stepMinutes > 0.0 && SameCycle(cfg, t1, t2, epoch)
    ensures StepAt(cfg, t1, epoch) <= StepAt(cfg, t2, epoch)
  {
    DivideMonotone(PhaseAt(cfg, t1, epoch), PhaseAt(cfg, t2, epoch), StepS(cfg));
  }

  /** Within one calibration cycle no error metric ever improves. */
  lemma DriftNeverImproves(baseline: seq<Metric>, cfg: DriftConfig, noise: Noise, t1: real, t2: real, epoch: real)
    requires Valid(cfg, noise) && ValidErrors(baseline) && SameCycle(cfg, t1, t2, epoch)
    ensures NoWorse(MetricsAt(baseline, cfg, noise, t1, epoch), MetricsAt(baseline, cfg, noise, t2, epoch))
  {
    PhaseWithinPeriod(cfg, t1, epoch);
    PhaseWithinPeriod(cfg, t2, epoch);
    StepsAdvance(cfg, t1, t2, epoch);
    var cycle, a, b := CycleAt(cfg, t1, epoch), StepAt(cfg, t1, epoch), StepAt(cfg, t2, epoch);
    forall i | 0 <= i < |baseline| && IsErrorMetric(baseline[i].name)
      ensures MetricsAt(baseline, cfg, noise, t1, epoch)[i].value <= MetricsAt(baseline, cfg, noise, t2, epoch)[i].value
    {
      WalkBounds(cfg, noise, KeyOf(baseline[i]), cycle, a, b);
      ErrorMetricsDrift(baseline[i].name);
      DriftedValueMonotone(baseline[i].name, baseline[i].value,
        Walk(cfg, noise, KeyOf(baseline[i]), cycle, a), Walk(cfg, noise, KeyOf(baseline[i]), cycle, b));
    }
  }

  /** Hence ESP never rises within a cycle, whatever the circuit. */
  lemma EspDegradesWithinCycle(p: CircuitProfile, baseline: seq<Metric>, cfg: DriftConfig, noise: Noise,
                               t1: real, t2: real, epoch: real)
    requires Valid(cfg, noise) && ValidErrors(baseline) && SameCycle(cfg, t1, t2, epoch)
    ensures ESP(p, MetricsAt(baseline, cfg, noise, t2, epoch)) <= ESP(p, MetricsAt(baseline, cfg, noise, t1, epoch))
  {
    DriftNeverImproves(baseline, cfg, noise, t1, t2, epoch);
    DriftedErrorsValid(baseline, cfg, noise, t1, epoch);
    DriftedErrorsValid(baseline, cfg, noise, t2, epoch);
    EspAntitone(p, MetricsAt(baseline, cfg, noise, t1, epoch), MetricsAt(baseline, cfg, noise, t2, epoch));
  }

  /** A floor that holds now, under any aggregate, held at every earlier instant of the cycle. */
  lemma FloorsHeldEarlier(j: JobView, t: TargetView, baseline: seq<Metric>, cfg: DriftConfig, noise: Noise,
                          t1: real, t2: real, epoch: real)
    requires Valid(cfg, noise) && ValidErrors(baseline) && SameCycle(cfg, t1, t2, epoch)
    requires FloorsHold(j, t.(metrics := MetricsAt(baseline, cfg, noise, t2, epoch)))
    ensures FloorsHold(j, t.(metrics := MetricsAt(baseline, cfg, noise, t1, epoch)))
  {
    var early := t.(metrics := MetricsAt(baseline, cfg, noise, t1, epoch));
    var late := t.(metrics := MetricsAt(baseline, cfg, noise, t2, epoch));
    DriftNeverImproves(baseline, cfg, noise, t1, t2, epoch);
    AggregateMonotone(TwoQubit, early, late, EffectiveAggregate(j));
    AggregateMonotone(Readout, early, late, EffectiveAggregate(j));
  }

  lemma QuotientOfMultiple(c: real, p: real)
    requires p > 0.0
    ensures (c * p) / p == c
  {
  }

  lemma CycleStart(cfg: DriftConfig, cycle: nat, epoch: real)
    requires cfg.calibrationPeriodH > 0.0 && cfg.stepMinutes > 0.0
    ensures CycleAt(cfg, epoch + cycle as real * PeriodS(cfg), epoch) == cycle
    ensures StepAt(cfg, epoch + cycle as real * PeriodS(cfg), epoch) == 0
  {
    var p, e := PeriodS(cfg), cycle as real * PeriodS(cfg);
    MulMonotone(0.0, cycle as real, 0.0, p);
    assert Elapsed(epoch + e, epoch) == e;
    QuotientOfMultiple(cycle as real, p);
    assert e / p == cycle as real;
    FloorOfInteger(cycle);
    assert CycleAt(cfg, epoch + e, epoch) == (e / p).Floor == cycle;
    assert 0.0 / StepS(cfg) == 0.0;
  }

  /** A calibration event restores the baseline: every cycle starts with the baseline error values and ESP. */
  lemma CycleStartRestoresBaseline(p: CircuitProfile, baseline: seq<Metric>, cfg: DriftConfig, noise: Noise,
                                   cycle: nat, epoch: real)
    requires Valid(cfg, noise) && ValidErrors(baseline)
    ensures var ms := MetricsAt(baseline, cfg, noise, epoch + cycle as real * PeriodS(cfg), epoch);
            && NoWorse(ms, baseline) && NoWorse(baseline, ms)
            && ESP(p, ms) == ESP(p, baseline)
  {
    var t0 := epoch + cycle as real * PeriodS(cfg);
    var ms := MetricsAt(baseline, cfg, noise, t0, epoch);
    CycleStart(cfg, cycle, epoch);
    forall i | 0 <= i < |baseline| && IsErrorMetric(baseline[i].name) ensures ms[i].value == baseline[i].value {
      WalkBounds(cfg, noise, KeyOf(baseline[i]), cycle, 0, 0);
      ErrorMetricsDrift(baseline[i].name);
    }
    DriftedErrorsValid(baseline, cfg, noise, t0, epoch);
    EspAntitone(p, ms, baseline);
    EspAntitone(p, baseline, ms);
  }

  /**
   Drift, estimate and placement composed: recalibrating the target calib-aware/v0 has chosen, with the
   rest of the fleet unchanged, never moves the placement away from it.
   */
  lemma RecalibrationKeepsPlacement(j: JobView, fleet: seq<TargetView>, now: real, k: nat, d: Decision, d': Decision,
                                    baseline: seq<Metric>, cfg: DriftConfig, noise: Noise, simTime: real, cycle: nat,
                                    epoch: real)
    requires Valid(cfg, noise) && ValidErrors(baseline) && UniqueNames(fleet) && k < |fleet|
    requires fleet[k].metrics == MetricsAt(baseline, cfg, noise, simTime, epoch)
    requires Decides(CalibAware, j, fleet, now, d) && d.target == Some(fleet[k].name)
    requires var recal := MetricsAt(baseline, cfg, noise, epoch + cycle as real * PeriodS(cfg), epoch);
             Decides(CalibAware, j, fleet[k := fleet[k].(metrics := recal)], now, d')
    ensures d'.target == d.target
  {
    var recal := MetricsAt(baseline, cfg, noise, epoch + cycle as real * PeriodS(cfg), epoch);
    CycleStartRestoresBaseline(ProfileFor(j), baseline, cfg, noise, cycle, epoch);
    DriftedErrorsValid(baseline, cfg, noise, simTime, epoch);
    DriftedErrorsValid(baseline, cfg, noise, epoch + cycle as real * PeriodS(cfg), epoch);
    forall i | 0 <= i < |baseline| && IsErrorMetric(baseline[i].name)
      ensures recal[i].value <= fleet[k].metrics[i].value
    {
      DriftIsBounded(baseline, cfg, noise, simTime, epoch, i);
      assert NoWorse(recal, baseline);
    }
    assert NoWorse(recal, fleet[k].metrics);
    PlacementMonotone(j, fleet, now, k, fleet[k].(metrics := recal), d, d');
  }
}
