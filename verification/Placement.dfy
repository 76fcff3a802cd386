/**
 What a placement guarantees: optimality of the chosen target, stability under better calibration,
 and the deadline/floor conflict rules (internal/scheduler/conflict.go, internal/dispatch/conflict.go).
 */
module Placement {
  import opened Common
  import opened Fleet
  import opened Esp
  import opened Scheduling
  import Pareto

  ghost predicate UniqueNames(fleet: seq<TargetView>) {
    forall i, k :: 0 <= i < |fleet| && 0 <= k < |fleet| && fleet[i].name == fleet[k].name ==> i == k
  }

  // ---- the chosen target ----

  /** Schedule decides None exactly when nothing is feasible, and otherwise a feasible fleet target. */
  lemma DecisionIsFeasible(p: Policy, j: JobView, fleet: seq<TargetView>, now: real, d: Decision)
    requires Decides(p, j, fleet, now, d)
    ensures d.target.None? <==> forall t :: t in fleet ==> !Feasible(p, j, t, now)
    ensures d.target.Some? ==>
              exists t ::
                t in fleet && Feasible(p, j, t, now) && t.name == d.target.value && t.waitSeconds == d.waitSeconds
  {
    var ts := Candidates(p, j, fleet, now);
    CandidatesAreFeasible(p, j, fleet, now);
    var counter, scores :| ValidScores(p, counter, j, ts, scores) && Picks(ts, scores, d);
    if ts == [] {
      forall t | t in fleet ensures !Feasible(p, j, t, now) {
        assert t in ts <==> Feasible(p, j, t, now);
      }
    } else {
      var b: nat :| FirstMax(scores, b) && d.target == Some(ts[b].name) && d.waitSeconds == ts[b].waitSeconds;
      assert ts[b] in ts;
    }
  }

  /** t wins under a per-target score: highest score, ties to the first name. */
  ghost predicate Best(p: Policy, j: JobView, fleet: seq<TargetView>, now: real, t: TargetView)
    requires ValidFleet(fleet)
  {
    && t in fleet && Feasible(p, j, t, now)
    && forall u :: u in fleet && Feasible(p, j, u, now) ==> Beats(p, j, t, u)
  }

  ghost predicate Beats(p: Policy, j: JobView, t: TargetView, u: TargetView) {
    t.waitSeconds >= 0.0 && u.waitSeconds >= 0.0
    && (Score(p, j, u) < Score(p, j, t) || (Score(p, j, u) == Score(p, j, t) && NameLeq(t.name, u.name)))
  }

  lemma DecisionIsBest(p: Policy, j: JobView, fleet: seq<TargetView>, now: real, d: Decision) returns (t: TargetView)
    requires !p.ParetoV0? && !p.RoundRobin?
    requires Decides(p, j, fleet, now, d) && d.target.Some?
    ensures Best(p, j, fleet, now, t) && t.name == d.target.value
  {
    var ts := Candidates(p, j, fleet, now);
    CandidatesAreFeasible(p, j, fleet, now);
    var counter, scores :| ValidScores(p, counter, j, ts, scores) && Picks(ts, scores, d);
    assert ts != [];
    var b: nat :| FirstMax(scores, b) && d.target == Some(ts[b].name);
    t := ts[b];
    assert t in ts;
    NameReflexive(t.name);
    forall u | u in fleet && Feasible(p, j, u, now) ensures Beats(p, j, t, u) {
      assert u in ts;
      var k :| 0 <= k < |ts| && ts[k] == u;
      WinnerBeats(p, j, ts, scores, b, k);
    }
  }

  lemma WinnerBeats(p: Policy, j: JobView, ts: seq<TargetView>, scores: seq<real>, b: nat, k: nat)
    requires !p.ParetoV0? && !p.RoundRobin? && ValidFleet(ts) && NameSorted(ts)
    requires |scores| == |ts| && (forall i :: 0 <= i < |ts| ==> scores[i] == Score(p, j, ts[i]))
    requires FirstMax(scores, b) && k < |ts|
    ensures Beats(p, j, ts[b], ts[k])
  {
    NameReflexive(ts[b].name);
    assert scores[k] <= scores[b] && (k < b ==> scores[k] < scores[b]);
  }

  lemma BestNameUnique(p: Policy, j: JobView, fleet: seq<TargetView>, now: real, t: TargetView, u: TargetView)
    requires ValidFleet(fleet) && Best(p, j, fleet, now, t) && Best(p, j, fleet, now, u)
    ensures t.name == u.name
  {
    assert Beats(p, j, t, u) && Beats(p, j, u, t);
    NameAntisymmetric(t.name, u.name);
  }

  /**
   calib-aware/v0 is stable under improvement: if the chosen target's error metrics fall pointwise
   and its wait does not rise, with everything else fixed, it is still the one chosen.
   */
  lemma PlacementMonotone(j: JobView, fleet: seq<TargetView>, now: real, k: nat, better: TargetView,
                          d: Decision, d': Decision)
    requires UniqueNames(fleet) && k < |fleet|
    requires better == fleet[k].(metrics := better.metrics, waitSeconds := better.waitSeconds,
                                 snapshotId := better.snapshotId)
    requires ValidErrors(fleet[k].metrics) && ValidErrors(better.metrics)
    requires NoWorse(better.metrics, fleet[k].metrics) && 0.0 <= better.waitSeconds <= fleet[k].waitSeconds
    requires Decides(CalibAware, j, fleet, now, d) && d.target == Some(fleet[k].name)
    requires Decides(CalibAware, j, fleet[k := better], now, d')
    ensures d'.target == d.target
  {
    var fleet' := fleet[k := better];
    var t := DecisionIsBest(CalibAware, j, fleet, now, d);
    var m :| 0 <= m < |fleet| && fleet[m] == t;
    assert t == fleet[k];
    FilterMonotone(j, better, t, now, true);
    CalibAwareScoreMonotone(j, better, t);
    NameReflexive(better.name);
    assert fleet'[k] == better && better in fleet';
    forall u | u in fleet' && Feasible(CalibAware, j, u, now) ensures Beats(CalibAware, j, better, u) {
      var i :| 0 <= i < |fleet'| && fleet'[i] == u;
      if i != k {
        assert fleet[i] == u;
        assert Beats(CalibAware, j, t, u);
      }
    }
    DecisionIsFeasible(CalibAware, j, fleet', now, d');
    assert Feasible(CalibAware, j, better, now);
    var t' := DecisionIsBest(CalibAware, j, fleet', now, d');
    BestNameUnique(CalibAware, j, fleet', now, better, t');
  }

  /** u is at least as good as t on fidelity and wait, and better on one. */
  predicate DominatesOn(j: JobView, u: TargetView, t: TargetView) {
    Pareto.Dominates(ESP(ProfileFor(j), u.metrics), -u.waitSeconds, ESP(ProfileFor(j), t.metrics), -t.waitSeconds)
  }

  /** In wq parts fidelity and wt parts wait, t is ahead of u, or level with it and first by name. */
  predicate Preferred(fidelity: TargetView -> real, wq: real, wt: real, t: TargetView, u: TargetView) {
    && t.waitSeconds >= 0.0 && u.waitSeconds >= 0.0
    && var gain := wq * (fidelity(t) - fidelity(u));
       var cost := wt * (t.waitSeconds / (t.waitSeconds + 60.0) - u.waitSeconds / (u.waitSeconds + 60.0));
       gain > cost || (gain == cost && NameLeq(t.name, u.name))
  }

  /** The estimated success probability of the job on a target. */
  function FidelityFor(j: JobView): TargetView -> real {
    (t: TargetView) => ESP(ProfileFor(j), t.metrics)
  }

  function ScoreFor(j: JobView): TargetView -> real {
    (t: TargetView) => if t.waitSeconds >= 0.0 then Score(CalibAware, j, t) else 0.0
  }

  ghost predicate Weighs(score: TargetView -> real, fidelity: TargetView -> real, w: (real, real)) {
    forall t: TargetView :: t.waitSeconds >= 0.0 ==> score(t) == Weighed(w, fidelity(t), WaitNorm(t.waitSeconds))
  }

  lemma ScoreWeighs(j: JobView)
    ensures Weighs(ScoreFor(j), FidelityFor(j), Weights(j))
  {
  }

  lemma ScoresAre(j: JobView, counter: nat, ts: seq<TargetView>, scores: seq<real>)
    requires ValidFleet(ts) && ValidScores(CalibAware, counter, j, ts, scores)
    ensures forall i :: 0 <= i < |ts| ==> scores[i] == ScoreFor(j)(ts[i])
  {
  }

  lemma WinnerIsPreferred(score: TargetView -> real, fidelity: TargetView -> real, wq: real, wt: real,
                          ts: seq<TargetView>, scores: seq<real>, b: nat, k: nat)
    requires Weighs(score, fidelity, (wq, wt)) && ValidFleet(ts) && NameSorted(ts)
    requires |scores| == |ts| && (forall i :: 0 <= i < |ts| ==> scores[i] == score(ts[i]))
    requires FirstMax(scores, b) && k < |ts|
    ensures Preferred(fidelity, wq, wt, ts[b], ts[k])
  {
    NameReflexive(ts[b].name);
    assert scores[k] <= scores[b] && (k < b ==> scores[k] < scores[b]);
    Distribute(wq, wt, fidelity(ts[b]), fidelity(ts[k]), WaitNorm(ts[b].waitSeconds), WaitNorm(ts[k].waitSeconds));
  }

  lemma Distribute(wq: real, wt: real, a: real, b: real, x: real, y: real)
    ensures wq * (a - b) - wt * (x - y) == (wq * a - wt * x) - (wq * b - wt * y)
  {
  }

  lemma WinnerIsPreferredTo(score: TargetView -> real, fidelity: TargetView -> real, wq: real, wt: real,
                            ts: seq<TargetView>, scores: seq<real>, b: nat, u: TargetView)
    requires Weighs(score, fidelity, (wq, wt)) && ValidFleet(ts) && NameSorted(ts) && u in ts
    requires |scores| == |ts| && (forall i :: 0 <= i < |ts| ==> scores[i] == score(ts[i])) && FirstMax(scores, b)
    ensures Preferred(fidelity, wq, wt, ts[b], u)
  {
    var k :| 0 <= k < |ts| && ts[k] == u;
    WinnerIsPreferred(score, fidelity, wq, wt, ts, scores, b, k);
  }

  /**
   The trade-off of calib-aware/v0 between fidelity and wait: wq and wt are the weights of the job's intent, and the
   chosen target t is preferred to every feasible one.
   */
  lemma CalibAwareTradeOff(j: JobView, fleet: seq<TargetView>, now: real, d: Decision)
    returns (t: TargetView, wq: real, wt: real)
    requires Decides(CalibAware, j, fleet, now, d) && d.target.Some?
    ensures var floors := j.twoQubitErrorMax > 0.0 || j.readoutErrorMax > 0.0;
            (wq, wt) == if j.deadline.Some? then (if floors then (0.55, 0.35) else (0.45, 0.45))
                        else if floors then (0.75, 0.15) else (0.60, 0.25)
    ensures t in fleet && t.name == d.target.value && Feasible(CalibAware, j, t, now)
    ensures forall u :: u in fleet && Feasible(CalibAware, j, u, now) ==> Preferred(FidelityFor(j), wq, wt, t, u)
  {
    var ts := Candidates(CalibAware, j, fleet, now);
    CandidatesAreFeasible(CalibAware, j, fleet, now);
    var counter, scores :| ValidScores(CalibAware, counter, j, ts, scores) && Picks(ts, scores, d);
    assert ts != [];
    var b: nat :| FirstMax(scores, b) && d.target == Some(ts[b].name);
    t, wq, wt := ts[b], Weights(j).0, Weights(j).1;
    assert t in ts;
    ScoresAre(j, counter, ts, scores);
    ScoreWeighs(j);
    forall u | u in fleet && Feasible(CalibAware, j, u, now) ensures Preferred(FidelityFor(j), wq, wt, t, u) {
      assert u in ts;
      WinnerIsPreferredTo(ScoreFor(j), FidelityFor(j), wq, wt, ts, scores, b, u);
    }
  }

  lemma WaitNormStrict(a: real, b: real)
    requires 0.0 <= a < b
    ensures a / (a + 60.0) < b / (b + 60.0)
  {
    assert a / (a + 60.0) == 1.0 - 60.0 / (a + 60.0);
    assert b / (b + 60.0) == 1.0 - 60.0 / (b + 60.0);
    SmallerShare(a + 60.0, b + 60.0);
  }

  lemma SmallerShare(x: real, y: real)
    requires 0.0 < x < y
    ensures 60.0 / y < 60.0 / x
  {
    assert 60.0 / x - 60.0 / y == 60.0 * (y - x) / (x * y);
  }

  lemma PreferredIsUndominated(fidelity: TargetView -> real, wq: real, wt: real, t: TargetView, u: TargetView)
    requires wq > 0.0 && wt > 0.0 && Preferred(fidelity, wq, wt, t, u)
    ensures !Pareto.Dominates(fidelity(u), -u.waitSeconds, fidelity(t), -t.waitSeconds)
  {
    var gain := fidelity(t) - fidelity(u);
    var longer := t.waitSeconds / (t.waitSeconds + 60.0) - u.waitSeconds / (u.waitSeconds + 60.0);
    if u.waitSeconds < t.waitSeconds {
      WaitNormStrict(u.waitSeconds, t.waitSeconds);
    }
    if gain <= 0.0 <= longer && (gain < 0.0 || longer > 0.0) {
      LosesOnBoth(wq, wt, gain, longer);
    }
  }

  lemma LosesOnBoth(wq: real, wt: real, gain: real, longer: real)
    requires wq > 0.0 && wt > 0.0 && gain <= 0.0 <= longer && (gain < 0.0 || longer > 0.0)
    ensures wq * gain < wt * longer
  {
    assert wq * gain <= 0.0 && (gain < 0.0 ==> wq * gain < 0.0);
    assert wt * longer >= 0.0 && (longer > 0.0 ==> wt * longer > 0.0);
  }

  /** Under calib-aware/v0 no feasible target is better than the chosen one on fidelity or wait and no worse on both. */
  lemma CalibAwarePlacementIsUndominated(j: JobView, fleet: seq<TargetView>, now: real, d: Decision)
    returns (t: TargetView)
    requires Decides(CalibAware, j, fleet, now, d) && d.target.Some?
    ensures t in fleet && t.name == d.target.value && Feasible(CalibAware, j, t, now)
    ensures forall u :: u in fleet && Feasible(CalibAware, j, u, now) ==> !DominatesOn(j, u, t)
  {
    var wq, wt;
    t, wq, wt := CalibAwareTradeOff(j, fleet, now, d);
    forall u | u in fleet && Feasible(CalibAware, j, u, now) ensures !DominatesOn(j, u, t) {
      PreferredIsUndominated(FidelityFor(j), wq, wt, t, u);
    }
  }

  /** fifo/v0 takes the first feasible name; static-best/v0 the lowest published error, counting an unpublished as 1. */
  lemma BaselinePlacements(p: Policy, j: JobView, fleet: seq<TargetView>, now: real, d: Decision)
    returns (t: TargetView)
    requires p.Fifo? || p.StaticBest?
    requires Decides(p, j, fleet, now, d) && d.target.Some?
    ensures t in fleet && t.name == d.target.value && Feasible(p, j, t, now)
    ensures p.Fifo? ==> forall u :: u in fleet && Feasible(p, j, u, now) ==> NameLeq(t.name, u.name)
    ensures p.StaticBest? ==> forall u :: u in fleet && Feasible(p, j, u, now) ==>
              var e, f := if t.nominal2QError > 0.0 then t.nominal2QError else 1.0,
                          if u.nominal2QError > 0.0 then u.nominal2QError else 1.0;
              e < f || (e == f && NameLeq(t.name, u.name))
  {
    t := DecisionIsBest(p, j, fleet, now, d);
    forall u | u in fleet && Feasible(p, j, u, now) ensures Beats(p, j, t, u) {
    }
  }

  /** pareto/v0 always picks a feasible target that no feasible target dominates on (ESP, wait). */
  lemma ParetoPlacementIsOptimal(j: JobView, fleet: seq<TargetView>, now: real, d: Decision)
    requires Decides(ParetoV0, j, fleet, now, d) && d.target.Some?
    ensures exists t :: t in fleet && t.name == d.target.value && Feasible(ParetoV0, j, t, now)
                        && forall u :: u in fleet && Feasible(ParetoV0, j, u, now) ==> !DominatesOn(j, u, t)
  {
    var ts := Candidates(ParetoV0, j, fleet, now);
    CandidatesAreFeasible(ParetoV0, j, fleet, now);
    var counter, scores :| ValidScores(ParetoV0, counter, j, ts, scores) && Picks(ts, scores, d);
    assert ts != [];
    var b: nat :| FirstMax(scores, b) && d.target == Some(ts[b].name);
    assert ts[b] in ts;
    forall u | u in fleet && Feasible(ParetoV0, j, u, now) ensures !DominatesOn(j, u, ts[b]) {
      assert u in ts;
      UndominatedAmong(j, ts, scores, b, u);
    }
  }

  lemma UndominatedAmong(j: JobView, ts: seq<TargetView>, scores: seq<real>, b: nat, u: TargetView)
    requires |scores| == |ts| && FirstMax(scores, b) && u in ts && Pareto.IsScores(Objectives(j, ts), scores)
    ensures !DominatesOn(j, u, ts[b])
  {
    var k :| 0 <= k < |ts| && ts[k] == u;
    WinnerIsUndominated(j, ts, scores, b, k);
  }

  lemma WinnerIsUndominated(j: JobView, ts: seq<TargetView>, scores: seq<real>, b: nat, k: nat)
    requires |scores| == |ts| && FirstMax(scores, b) && k < |ts|
    requires Pareto.IsScores(Objectives(j, ts), scores)
    ensures !DominatesOn(j, ts[k], ts[b])
  {
    var points := Objectives(j, ts);
    if points.Dom(k, b) {
      Pareto.DominatorScoresHigher(points, scores, k, b);
      assert false;
    }
  }

  // ---- relaxed scheduling ----

  function Relax(j: JobView): JobView {
    j.(twoQubitErrorMax := 0.0, readoutErrorMax := 0.0)
  }

  datatype FloorViolation = FloorViolation(floor: ErrorClass, limit: real, actual: real, aggregate: string)

  function ViolationOf(c: ErrorClass, limit: real, j: JobView, t: TargetView): seq<FloorViolation> {
    var v := ErrorAggregate(c, t, EffectiveAggregate(j));
    if limit > 0.0 && v.Some? && v.value > limit then [FloorViolation(c, limit, v.value, EffectiveAggregate(j))] else []
  }

  function ViolationsOf(j: JobView, t: TargetView): seq<FloorViolation> {
    ViolationOf(TwoQubit, j.twoQubitErrorMax, j, t) + ViolationOf(Readout, j.readoutErrorMax, j, t)
  }

  /** A floor is set but the snapshot holds no value of its class: the source does not report this case. */
  predicate FloorMetricMissing(j: JobView, t: TargetView) {
    || (j.twoQubitErrorMax > 0.0 && ErrorAggregate(TwoQubit, t, EffectiveAggregate(j)).None?)
    || (j.readoutErrorMax > 0.0 && ErrorAggregate(Readout, t, EffectiveAggregate(j)).None?)
  }

  /** d and vs are an outcome of ScheduleRelaxed. */
  ghost predicate DecidesRelaxed(p: Policy, j: JobView, fleet: seq<TargetView>, now: real, d: Decision,
                                 vs: seq<FloorViolation>) {
    && Decides(p, Relax(j), fleet, now, d)
    && (d.target.None? ==> vs == [])
    && (d.target.Some? ==> exists t :: ChosenFrom(fleet, d, t) && vs == ViolationsOf(j, t))
  }

  ghost predicate ChosenFrom(fleet: seq<TargetView>, d: Decision, t: TargetView) {
    t in fleet && d.target == Some(t.name)
  }

  method FindTarget(fleet: seq<TargetView>, name: string) returns (chosen: Option<TargetView>)
    ensures chosen.None? ==> forall t :: t in fleet ==> t.name != name
    ensures chosen.Some? ==> chosen.value in fleet && chosen.value.name == name
  {
    for i := 0 to |fleet|
      invariant forall m :: 0 <= m < i ==> fleet[m].name != name
    {
      if fleet[i].name == name {
        return Some(fleet[i]);
      }
    }
    return None;
  }

  method ScheduleRelaxed(p: Policy, counter: nat, j: JobView, fleet: seq<TargetView>, now: real)
    returns (d: Decision, vs: seq<FloorViolation>, counter': nat)
    requires ValidFleet(fleet) && counter < COUNTER_WIDTH
    ensures DecidesRelaxed(p, j, fleet, now, d, vs)
    ensures counter' < COUNTER_WIDTH
  {
    d, counter' := Schedule(p, counter, Relax(j), fleet, now);
    vs := [];
    if d.target.Some? {
      DecisionIsFeasible(p, Relax(j), fleet, now, d);
      var chosen := FindTarget(fleet, d.target.value);
      if chosen.Some? {
        vs := ViolationsOf(j, chosen.value);
        assert ChosenFrom(fleet, d, chosen.value);
      }
    }
  }

  /** Every reported violation is the true aggregate of the chosen target and exceeds its declared limit. */
  lemma ViolationsAreTrue(j: JobView, t: TargetView, v: FloorViolation)
    requires v in ViolationsOf(j, t)
    ensures v.limit == (if v.floor.TwoQubit? then j.twoQubitErrorMax else j.readoutErrorMax)
    ensures ErrorAggregate(v.floor, t, EffectiveAggregate(j)) == Some(v.actual)
    ensures 0.0 < v.limit < v.actual
  {
    assert v in ViolationOf(TwoQubit, j.twoQubitErrorMax, j, t) || v in ViolationOf(Readout, j.readoutErrorMax, j, t);
  }

  /** On one fleet: a relaxed-feasible target passes the full filter iff nothing is violated or missing. */
  lemma RelaxationExplained(p: Policy, j: JobView, t: TargetView, now: real)
    requires ChecksFloors(p) && Feasible(p, Relax(j), t, now)
    ensures Feasible(p, j, t, now) <==> ViolationsOf(j, t) == [] && !FloorMetricMissing(j, t)
  {
    assert HardCapability(Relax(j), t, now) == HardCapability(j, t, now);
    assert Selectors(Relax(j), t) == Selectors(j, t);
  }

  /**
   An empty report does not mean that the floors were not the binding constraint: with a floor set and no metric of its
   class the only target is refused as declared and chosen relaxed, nothing is reported, and no deadline ever makes the
   conflict pass act.
   */
  lemma MissingMetricIsUnreported() returns (j: JobView, t: TargetView, relaxed: Decision)
    ensures j.twoQubitErrorMax > 0.0 && t.metrics == [] && j.onConflict == "prefer-deadline" && HasConflict(j)
    ensures forall d :: Decides(Fifo, j, [t], 0.0, d) ==> d.target.None?
    ensures DecidesRelaxed(Fifo, j, [t], 0.0, relaxed, []) && relaxed.target == Some(t.name)
    ensures forall now :: ResolveConflict(j, now, relaxed, []) == NotHandled
  {
    j := JobView("gate-model", "openqasm3", 10, 0, [], 0.01, 0.0, 0.0, "", "prefer-deadline", Some(0.0), [], None, [],
                 [], [], None);
    t := TargetView("site/opaque", "gate-model", "simulator", 5, ["openqasm3"], 1000, ["shots"], true, false, "", None,
                    [], 0.0, [], 0.0);
    relaxed := Decision(Some(t.name), 0.0, t.snapshotId, t.waitSeconds, []);
    assert HardCapability(j, t, 0.0).None? && Selectors(j, t).None?;
    UnmeasuredIsUnreported(j, t, relaxed);
  }

  lemma UnmeasuredIsUnreported(j: JobView, t: TargetView, relaxed: Decision)
    requires j.twoQubitErrorMax > 0.0 && j.readoutErrorMax == 0.0 && j.calibrationMaxAge == 0.0 && t.metrics == []
    requires HardCapability(j, t, 0.0).None? && Selectors(j, t).None? && t.waitSeconds >= 0.0
    requires relaxed == Decision(Some(t.name), 0.0, t.snapshotId, t.waitSeconds, [])
    ensures forall d :: Decides(Fifo, j, [t], 0.0, d) ==> d.target.None?
    ensures DecidesRelaxed(Fifo, j, [t], 0.0, relaxed, [])
  {
    UnmeasuredIsRefused(j, t);
    forall d | Decides(Fifo, j, [t], 0.0, d) ensures d.target.None? {
      DecisionIsFeasible(Fifo, j, [t], 0.0, d);
    }
    SoleDecision(Relax(j), t, 0.0, relaxed);
    assert ChosenFrom([t], relaxed, t);
  }

  /** No metric of the class: refused for the floor, feasible without it, nothing to report. */
  lemma UnmeasuredIsRefused(j: JobView, t: TargetView)
    requires j.twoQubitErrorMax > 0.0 && j.readoutErrorMax == 0.0 && j.calibrationMaxAge == 0.0 && t.metrics == []
    requires HardCapability(j, t, 0.0).None? && Selectors(j, t).None?
    ensures !Feasible(Fifo, j, t, 0.0) && Feasible(Fifo, Relax(j), t, 0.0) && ViolationsOf(j, t) == []
  {
    assert ErrorAggregate(TwoQubit, t, EffectiveAggregate(j)).None?;
    assert HardCapability(Relax(j), t, 0.0) == HardCapability(j, t, 0.0) && Selectors(Relax(j), t) == Selectors(j, t);
  }

  /** On the same fleet: infeasible as declared but feasible relaxed means a reported violation or a missing metric. */
  lemma RelaxedReportsCause(p: Policy, j: JobView, fleet: seq<TargetView>, now: real, d: Decision,
                            relaxed: Decision, vs: seq<FloorViolation>)
    requires ChecksFloors(p) && UniqueNames(fleet)
    requires Decides(p, j, fleet, now, d) && d.target.None?
    requires DecidesRelaxed(p, j, fleet, now, relaxed, vs) && relaxed.target.Some?
    ensures exists t :: ChosenFrom(fleet, relaxed, t) && (vs != [] || FloorMetricMissing(j, t))
  {
    var t :| ChosenFrom(fleet, relaxed, t) && vs == ViolationsOf(j, t);
    DecisionIsFeasible(p, Relax(j), fleet, now, relaxed);
    var u :| u in fleet && Feasible(p, Relax(j), u, now) && u.name == relaxed.target.value;
    SameName(fleet, t, u);
    DecisionIsFeasible(p, j, fleet, now, d);
    RelaxationExplained(p, j, t, now);
  }

  lemma SameName(fleet: seq<TargetView>, t: TargetView, u: TargetView)
    requires UniqueNames(fleet) && t in fleet && u in fleet && t.name == u.name
    ensures t == u
  {
    var i :| 0 <= i < |fleet| && fleet[i] == t;
    var k :| 0 <= k < |fleet| && fleet[k] == u;
  }

  // ---- conflict resolution ----

  datatype Resolution = NotHandled | BindRelaxed | RejectJob | NoteDeadlineExceeded

  function DecisionHorizon(j: JobView, relaxed: Decision): real
    requires j.deadline.Some?
  {
    j.deadline.value - relaxed.waitSeconds
  }

  /** Only a job with a quality floor and a deadline has something to trade. */
  predicate HasConflict(j: JobView) {
    HasQualityFloor(j) && j.deadline.Some?
  }

  /** resolveConflict's branch on the declared onConflict mode. */
  function ResolveConflict(j: JobView, now: real, relaxed: Decision, vs: seq<FloorViolation>): Resolution {
    if !HasConflict(j) || relaxed.target.None? || vs == [] then NotHandled
    else if j.onConflict == "prefer-deadline" then
      if now < DecisionHorizon(j, relaxed) then NotHandled else BindRelaxed
    else if j.onConflict == "reject" then
      if now < DecisionHorizon(j, relaxed) then NotHandled else RejectJob
    else if now > j.deadline.value then NoteDeadlineExceeded
    else NotHandled
  }

  /** What one dispatch attempt does with a job it could read; the fleet is read again for the conflict pass. */
  datatype Attempt =
    | BindTo(target: string, relaxedFloors: seq<FloorViolation>)
    | FailUnsatisfiable
    | StayPending

  ghost predicate BindsAsDeclared(p: Policy, j: JobView, fleet: seq<TargetView>, now: real, a: Attempt) {
    a.BindTo? && a.relaxedFloors == [] && exists d :: Decides(p, j, fleet, now, d) && d.target == Some(a.target)
  }

  ghost predicate ResolvesTo(p: Policy, j: JobView, fleet: seq<TargetView>, now: real, a: Attempt) {
    exists d, vs :: Resolves(p, j, fleet, now, a, d, vs)
  }

  ghost predicate Resolves(p: Policy, j: JobView, fleet: seq<TargetView>, now: real, a: Attempt, d: Decision,
                           vs: seq<FloorViolation>) {
    && DecidesRelaxed(p, j, fleet, now, d, vs)
    && (a.BindTo? ==>
          ResolveConflict(j, now, d, vs) == BindRelaxed && d.target == Some(a.target) && a.relaxedFloors == vs)
    && (a.FailUnsatisfiable? ==> ResolveConflict(j, now, d, vs) == RejectJob)
    && (a.StayPending? ==> ResolveConflict(j, now, d, vs) in {NotHandled, NoteDeadlineExceeded})
  }

  /**
   The outcomes of dispatchOne up to the bind: `fleet`/`now` of the first pass, `fleet'`/`now'` of the conflict pass.
   */
  ghost predicate Attempts(p: Policy, j: JobView, fleet: seq<TargetView>, now: real,
                           fleet': seq<TargetView>, now': real, a: Attempt) {
    || BindsAsDeclared(p, j, fleet, now, a)
    || ((forall t :: t in fleet ==> !Feasible(p, j, t, now))
        && if HasConflict(j) then ResolvesTo(p, j, fleet', now', a) else a.StayPending?)
  }

  /** dispatchOne's decision: schedule, and on infeasibility the conflict pass over a fresh fleet view. */
  method PlaceJob(p: Policy, counter: nat, j: JobView, fleet: seq<TargetView>, now: real,
                  fleet': seq<TargetView>, now': real) returns (a: Attempt, counter': nat)
    requires ValidFleet(fleet) && ValidFleet(fleet') && counter < COUNTER_WIDTH
    ensures Attempts(p, j, fleet, now, fleet', now', a)
  {
    var d;
    d, counter' := Schedule(p, counter, j, fleet, now);
    DecisionIsFeasible(p, j, fleet, now, d);
    if d.target.Some? {
      a := BindTo(d.target.value, []);
      return;
    }
    a := StayPending;
    if HasConflict(j) {
      var relaxed, vs;
      relaxed, vs, counter' := ScheduleRelaxed(p, counter', j, fleet', now');
      var r := ResolveConflict(j, now', relaxed, vs);
      if r == BindRelaxed {
        a := BindTo(relaxed.target.value, vs);
      } else if r == RejectJob {
        a := FailUnsatisfiable;
      }
      assert Resolves(p, j, fleet', now', a, relaxed, vs);
    }
  }

  // ---- when the conflict pass acts ----

  lemma ScoresUnique(p: Policy, j: JobView, ts: seq<TargetView>, n: nat, m: nat, xs: seq<real>, ys: seq<real>)
    requires !p.RoundRobin? && ValidFleet(ts) && ValidScores(p, n, j, ts, xs) && ValidScores(p, m, j, ts, ys)
    ensures xs == ys
  {
    if p.ParetoV0? {
      Pareto.ScoresUnique(Objectives(j, ts), xs, ys);
    }
  }

  /** Only round-robin/v0 has a choice: every other policy has one decision. */
  lemma DecisionUnique(p: Policy, j: JobView, fleet: seq<TargetView>, now: real, d: Decision, e: Decision)
    requires !p.RoundRobin? && Decides(p, j, fleet, now, d) && Decides(p, j, fleet, now, e)
    ensures d.target == e.target && (d.target.Some? ==> d.waitSeconds == e.waitSeconds)
  {
    var ts := Candidates(p, j, fleet, now);
    var n, xs :| ValidScores(p, n, j, ts, xs) && Picks(ts, xs, d);
    var m, ys :| ValidScores(p, m, j, ts, ys) && Picks(ts, ys, e);
    ScoresUnique(p, j, ts, n, m, xs, ys);
    PickUnique(ts, xs, d, e);
  }

  lemma PickUnique(ts: seq<TargetView>, scores: seq<real>, d: Decision, e: Decision)
    requires |scores| == |ts| && Picks(ts, scores, d) && Picks(ts, scores, e)
    ensures d.target == e.target && (d.target.Some? ==> d.waitSeconds == e.waitSeconds)
  {
    if ts != [] {
      var a: nat :| FirstMax(scores, a) && d.target == Some(ts[a].name) && d.waitSeconds == ts[a].waitSeconds;
      var b: nat :| FirstMax(scores, b) && e.target == Some(ts[b].name) && e.waitSeconds == ts[b].waitSeconds;
      assert a == b;
    }
  }

  /** What must become of a job whose relaxed choice is t, by its declared mode; until the horizon it waits. */
  predicate ResolvedFor(j: JobView, t: TargetView, now: real, a: Attempt) {
    j.deadline.Some? &&
    var due := now >= j.deadline.value - t.waitSeconds;
    match j.onConflict
    case "reject" => a == if due && ViolationsOf(j, t) != [] then FailUnsatisfiable else StayPending
    case "prefer-deadline" =>
      a == if due && ViolationsOf(j, t) != [] then BindTo(t.name, ViolationsOf(j, t)) else StayPending
    case _ => a == StayPending
  }

  /**
   The conflict pass, for a job with a floor and a deadline for which nothing is feasible as declared: the job stays
   pending if nothing is feasible without the floors either; otherwise its mode and the horizon of the relaxed choice
   decide.
   */
  lemma ConflictIsResolved(p: Policy, j: JobView, fleet: seq<TargetView>, now: real, fleet': seq<TargetView>,
                           now': real, a: Attempt)
    requires UniqueNames(fleet') && Attempts(p, j, fleet, now, fleet', now', a)
    requires (j.twoQubitErrorMax > 0.0 || j.readoutErrorMax > 0.0) && j.deadline.Some?
    requires forall t :: t in fleet ==> !Feasible(p, j, t, now)
    ensures if forall t :: t in fleet' ==> !Feasible(p, Relax(j), t, now') then a == StayPending
            else exists d, t :: RelaxedChoice(p, j, fleet', now', d, t) && ResolvedFor(j, t, now', a)
  {
    NotAsDeclared(p, j, fleet, now, a);
    var d, vs :| Resolves(p, j, fleet', now', a, d, vs);
    DecisionIsFeasible(p, Relax(j), fleet', now', d);
    if d.target.Some? {
      var t :| ChosenFrom(fleet', d, t) && vs == ViolationsOf(j, t);
      ChosenWait(p, Relax(j), fleet', now', d, t);
      ResolvedOnChoice(p, j, fleet', now', a, d, t);
      assert RelaxedChoice(p, j, fleet', now', d, t);
    }
  }

  lemma NotAsDeclared(p: Policy, j: JobView, fleet: seq<TargetView>, now: real, a: Attempt)
    requires forall t :: t in fleet ==> !Feasible(p, j, t, now)
    ensures !BindsAsDeclared(p, j, fleet, now, a)
  {
    forall d | Decides(p, j, fleet, now, d) ensures d.target.None? {
      DecisionIsFeasible(p, j, fleet, now, d);
    }
  }

  lemma ResolvedOnChoice(p: Policy, j: JobView, fleet: seq<TargetView>, now: real, a: Attempt, d: Decision,
                         t: TargetView)
    requires HasConflict(j) && Resolves(p, j, fleet, now, a, d, ViolationsOf(j, t))
    requires d.target == Some(t.name) && d.waitSeconds == t.waitSeconds
    ensures ResolvedFor(j, t, now, a)
  {
  }

  /** t is what the policy chooses for the job without its floors. */
  ghost predicate RelaxedChoice(p: Policy, j: JobView, fleet: seq<TargetView>, now: real, d: Decision, t: TargetView) {
    Decides(p, Relax(j), fleet, now, d) && ChosenFrom(fleet, d, t)
  }

  lemma ChosenWait(p: Policy, j: JobView, fleet: seq<TargetView>, now: real, d: Decision, t: TargetView)
    requires UniqueNames(fleet) && Decides(p, j, fleet, now, d) && ChosenFrom(fleet, d, t)
    ensures d.waitSeconds == t.waitSeconds && Feasible(p, j, t, now)
  {
    DecisionIsFeasible(p, j, fleet, now, d);
    var u :| u in fleet && Feasible(p, j, u, now) && u.name == d.target.value && u.waitSeconds == d.waitSeconds;
    SameName(fleet, t, u);
  }

  /**
   The same for a policy that does not rotate: with relaxed choice t and something violated, "reject" fails the job, and
   "prefer-deadline" binds it to t with all violations recorded, if and only if the horizon of t has come.
   */
  lemma ConflictRules(p: Policy, j: JobView, fleet: seq<TargetView>, now: real, fleet': seq<TargetView>, now': real,
                      a: Attempt, d: Decision, t: TargetView)
    requires !p.RoundRobin? && UniqueNames(fleet') && Attempts(p, j, fleet, now, fleet', now', a)
    requires (j.twoQubitErrorMax > 0.0 || j.readoutErrorMax > 0.0) && j.deadline.Some?
    requires forall u :: u in fleet ==> !Feasible(p, j, u, now)
    requires RelaxedChoice(p, j, fleet', now', d, t) && ViolationsOf(j, t) != []
    ensures a == StayPending || now' >= j.deadline.value - t.waitSeconds
    ensures j.onConflict == "reject" ==> (a == FailUnsatisfiable <==> now' >= j.deadline.value - t.waitSeconds)
    ensures j.onConflict == "prefer-deadline" ==>
              (a == BindTo(t.name, ViolationsOf(j, t)) <==> now' >= j.deadline.value - t.waitSeconds)
    ensures j.onConflict != "reject" && j.onConflict != "prefer-deadline" ==> a == StayPending
  {
    ConflictIsResolved(p, j, fleet, now, fleet', now', a);
    DecisionIsFeasible(p, Relax(j), fleet', now', d);
    var e, u :| RelaxedChoice(p, j, fleet', now', e, u) && ResolvedFor(j, u, now', a);
    DecisionUnique(p, Relax(j), fleet', now', d, e);
    SameName(fleet', t, u);
  }

  /** Every floor the chosen target breaks is reported. */
  lemma ViolationsAreComplete(j: JobView, t: TargetView, c: ErrorClass, actual: real)
    requires c.TwoQubit? || c.Readout?
    requires ErrorAggregate(c, t, EffectiveAggregate(j)) == Some(actual)
    requires 0.0 < (if c.TwoQubit? then j.twoQubitErrorMax else j.readoutErrorMax) < actual
    ensures var limit := if c.TwoQubit? then j.twoQubitErrorMax else j.readoutErrorMax;
            FloorViolation(c, limit, actual, EffectiveAggregate(j)) in ViolationsOf(j, t)
  {
    var limit := if c.TwoQubit? then j.twoQubitErrorMax else j.readoutErrorMax;
    assert ViolationOf(c, limit, j, t) == [FloorViolation(c, limit, actual, EffectiveAggregate(j))];
    assert FloorViolation(c, limit, actual, EffectiveAggregate(j)) in ViolationOf(c, limit, j, t);
  }

  /**
   Under a floor-checking policy a job is bound either on a target whose floors hold, or with floors
   relaxed - and the latter only for a prefer-deadline job with a deadline, at or past the decision
   horizon, with every relaxed floor recorded.
   */
  lemma FloorsBrokenOnlyAsDeclared(p: Policy, j: JobView, fleet: seq<TargetView>, now: real,
                                   fleet': seq<TargetView>, now': real, a: Attempt)
    requires ChecksFloors(p) && UniqueNames(fleet')
    requires Attempts(p, j, fleet, now, fleet', now', a) && a.BindTo?
    ensures a.relaxedFloors == [] ==>
              exists t :: t in fleet && t.name == a.target && Feasible(p, j, t, now) && FloorsHold(j, t)
    ensures a.relaxedFloors != [] ==>
              && j.onConflict == "prefer-deadline" && j.deadline.Some?
              && exists t :: t in fleet' && t.name == a.target
                             && now' >= j.deadline.value - t.waitSeconds && a.relaxedFloors == ViolationsOf(j, t)
  {
    if BindsAsDeclared(p, j, fleet, now, a) {
      DeclaredBindHolds(p, j, fleet, now, a);
    } else {
      RelaxedBindIsWaived(p, j, fleet', now', a);
    }
  }

  lemma DeclaredBindHolds(p: Policy, j: JobView, fleet: seq<TargetView>, now: real, a: Attempt)
    requires ChecksFloors(p) && BindsAsDeclared(p, j, fleet, now, a)
    ensures exists t :: t in fleet && t.name == a.target && Feasible(p, j, t, now) && FloorsHold(j, t)
  {
    var d :| Decides(p, j, fleet, now, d) && d.target == Some(a.target);
    DecisionIsFeasible(p, j, fleet, now, d);
    var t :| t in fleet && Feasible(p, j, t, now) && t.name == a.target;
    FilterGuaranteesFloors(j, t, now);
  }

  lemma RelaxedBindIsWaived(p: Policy, j: JobView, fleet: seq<TargetView>, now: real, a: Attempt)
    requires UniqueNames(fleet) && ResolvesTo(p, j, fleet, now, a) && a.BindTo?
    ensures a.relaxedFloors != [] && j.onConflict == "prefer-deadline" && j.deadline.Some?
    ensures exists t :: t in fleet && t.name == a.target
                        && now >= j.deadline.value - t.waitSeconds && a.relaxedFloors == ViolationsOf(j, t)
  {
    var d, vs :| Resolves(p, j, fleet, now, a, d, vs);
    var t :| ChosenFrom(fleet, d, t) && vs == ViolationsOf(j, t);
    DecisionIsFeasible(p, Relax(j), fleet, now, d);
    var u :| u in fleet && u.name == a.target && u.waitSeconds == d.waitSeconds;
    SameName(fleet, t, u);
  }

  /** A job pinned to one target (requireTargets, as session affinity sets it) is only ever bound there. */
  lemma PinnedJobsStay(p: Policy, j: JobView, fleet: seq<TargetView>, now: real,
                       fleet': seq<TargetView>, now': real, a: Attempt, pin: string)
    requires j.requireTargets == [pin]
    requires Attempts(p, j, fleet, now, fleet', now', a) && a.BindTo?
    ensures a.target == pin
  {
    if BindsAsDeclared(p, j, fleet, now, a) {
      var d :| Decides(p, j, fleet, now, d) && d.target == Some(a.target);
      PinnedDecision(p, j, fleet, now, d, pin);
    } else {
      var d, vs :| Resolves(p, j, fleet', now', a, d, vs);
      PinnedDecision(p, Relax(j), fleet', now', d, pin);
    }
  }

  lemma PinnedDecision(p: Policy, j: JobView, fleet: seq<TargetView>, now: real, d: Decision, pin: string)
    requires j.requireTargets == [pin] && Decides(p, j, fleet, now, d) && d.target.Some?
    ensures d.target.value == pin
  {
    DecisionIsFeasible(p, j, fleet, now, d);
    var t :| t in fleet && Feasible(p, j, t, now) && t.name == d.target.value;
    assert Selectors(j, t).None?;
  }

  /** The only target of a fleet is chosen when it is feasible. */
  lemma SoleTargetIsChosen(j: JobView, t: TargetView, now: real)
    requires Feasible(Fifo, j, t, now) && t.waitSeconds >= 0.0
    ensures Attempts(Fifo, j, [t], now, [t], now, BindTo(t.name, []))
  {
    SoleDecision(j, t, now, Decision(Some(t.name), 0.0, t.snapshotId, t.waitSeconds, []));
    assert BindsAsDeclared(Fifo, j, [t], now, BindTo(t.name, []));
  }

  lemma SoleDecision(j: JobView, t: TargetView, now: real, d: Decision)
    requires Feasible(Fifo, j, t, now) && t.waitSeconds >= 0.0
    requires d.target == Some(t.name) && d.score == 0.0
    requires d.snapshotId == t.snapshotId && d.waitSeconds == t.waitSeconds
    ensures Decides(Fifo, j, [t], now, d)
  {
    SoleCandidate(Fifo, j, t, now);
    SolePick(t, d);
    assert ValidScores(Fifo, 0, j, [t], [0.0]);
  }

  lemma SolePick(t: TargetView, d: Decision)
    requires d.target == Some(t.name) && d.score == 0.0
    requires d.snapshotId == t.snapshotId && d.waitSeconds == t.waitSeconds
    ensures Picks([t], [0.0], d)
  {
    assert FirstMax([0.0], 0);
  }

  lemma SoleCandidate(p: Policy, j: JobView, t: TargetView, now: real)
    requires Feasible(p, j, t, now)
    ensures Candidates(p, j, [t], now) == [t]
  {
    assert [t][1..] == [] && [t][..0] == [];
    assert SortByName([t]) == [t];
    assert FeasibleOf(p, j, [t], now) == FeasibleOf(p, j, [t][..0], now) + [t];
  }
}
