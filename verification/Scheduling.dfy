/**
 The placement pipeline: filter, score, pick (internal/scheduler/filter.go, policies.go,
 scheduler.go).
 */
module Scheduling {
  import opened Common
  import opened OrderStatistics
  import opened Fleet
  import opened Esp
  import Pareto

  datatype Reason =
    | Offline | InMaintenanceWindow | ModalityMismatch | FormatUnsupported | TooFewQubits | TooManyShots
    | TechnologyExcluded | NoTwoQubitMetric | TwoQubitFloor(actual: real) | NoReadoutMetric
    | ReadoutFloor(actual: real) | CalibrationTooOld | Denied | NotRequired | CloudNotAllowed | UnitNotMetered

  // ---- filter ----

  function EffectiveAggregate(j: JobView): string {
    if j.aggregate == "" then "best" else j.aggregate
  }

  /** One quality floor: unset, or the class has a value and its aggregate is within the limit. */
  predicate FloorHolds(c: ErrorClass, limit: real, j: JobView, t: TargetView) {
    limit > 0.0 ==>
      var v := ErrorAggregate(c, t, EffectiveAggregate(j));
      v.Some? && v.value <= limit
  }

  function QualityFloors(j: JobView, t: TargetView, now: real): Option<Reason> {
    var two := ErrorAggregate(TwoQubit, t, EffectiveAggregate(j));
    var ro := ErrorAggregate(Readout, t, EffectiveAggregate(j));
    if j.twoQubitErrorMax > 0.0 && two.None? then Some(NoTwoQubitMetric)
    else if j.twoQubitErrorMax > 0.0 && two.value > j.twoQubitErrorMax then Some(TwoQubitFloor(two.value))
    else if j.readoutErrorMax > 0.0 && ro.None? then Some(NoReadoutMetric)
    else if j.readoutErrorMax > 0.0 && ro.value > j.readoutErrorMax then Some(ReadoutFloor(ro.value))
    else if j.calibrationMaxAge > 0.0 && (t.measuredAt.None? || now - t.measuredAt.value > j.calibrationMaxAge) then
      Some(CalibrationTooOld)
    else None
  }

  function HardCapability(j: JobView, t: TargetView, now: real): Option<Reason> {
    if !t.online then Some(Offline)
    else if InMaintenance(t, now) then Some(InMaintenanceWindow)
    else if t.modality != j.kind then Some(ModalityMismatch)
    else if j.format != "" && j.format !in t.formats then Some(FormatUnsupported)
    else if j.qubits > 0 && j.qubits > t.qubits then Some(TooFewQubits)
    else if j.shots > 0 && t.maxShots > 0 && j.shots > t.maxShots then Some(TooManyShots)
    else if |j.technology| > 0 && t.technology !in j.technology then Some(TechnologyExcluded)
    else None
  }

  function Selectors(j: JobView, t: TargetView): Option<Reason> {
    if t.name in j.denyTargets then Some(Denied)
    else if |j.requireTargets| > 0 && t.name !in j.requireTargets then Some(NotRequired)
    else if t.cloud && t.name !in j.allowCloudBurst then Some(CloudNotAllowed)
    else if exists i :: 0 <= i < |j.budgetUnits| && j.budgetUnits[i] !in t.billing then Some(UnitNotMetered)
    else None
  }

  /** filterTarget: None means feasible; `quality` is off for the baseline policies. */
  function Filter(j: JobView, t: TargetView, now: real, quality: bool): Option<Reason> {
    if HardCapability(j, t, now).Some? then HardCapability(j, t, now)
    else if quality && QualityFloors(j, t, now).Some? then QualityFloors(j, t, now)
    else Selectors(j, t)
  }

  predicate FloorsHold(j: JobView, t: TargetView) {
    FloorHolds(TwoQubit, j.twoQubitErrorMax, j, t) && FloorHolds(Readout, j.readoutErrorMax, j, t)
  }

  lemma FilterGuaranteesFloors(j: JobView, t: TargetView, now: real)
    requires Filter(j, t, now, true).None?
    ensures FloorsHold(j, t)
  {
  }

  /** What a feasible target is, whatever the order of the checks. */
  lemma FeasibleIff(p: Policy, j: JobView, t: TargetView, now: real)
    ensures Feasible(p, j, t, now) <==>
              && t.online && (forall i :: 0 <= i < |t.maintenance| ==>
                                now < t.maintenance[i].start || t.maintenance[i].end <= now)
              && t.modality == j.kind && (j.format == "" || j.format in t.formats) && j.qubits <= t.qubits
              && (j.shots == 0 || t.maxShots == 0 || j.shots <= t.maxShots)
              && (j.technology == [] || t.technology in j.technology)
              && (!p.StaticBest? && !p.RoundRobin? ==>
                    && FloorsHold(j, t)
                    && (j.calibrationMaxAge > 0.0 ==>
                          t.measuredAt.Some? && now - t.measuredAt.value <= j.calibrationMaxAge))
              && t.name !in j.denyTargets && (j.requireTargets == [] || t.name in j.requireTargets)
              && (t.cloud ==> t.name in j.allowCloudBurst)
              && (forall u :: u in j.budgetUnits ==> u in t.billing)
  {
    if !InMaintenance(t, now) {
      forall i | 0 <= i < |t.maintenance| ensures now < t.maintenance[i].start || t.maintenance[i].end <= now {
        assert !(t.maintenance[i].start <= now < t.maintenance[i].end);
      }
    }
    UnitsMetered(j, t);
  }

  lemma UnitsMetered(j: JobView, t: TargetView)
    ensures (forall u :: u in j.budgetUnits ==> u in t.billing) <==>
              !exists i :: 0 <= i < |j.budgetUnits| && j.budgetUnits[i] !in t.billing
  {
    if i :| 0 <= i < |j.budgetUnits| && j.budgetUnits[i] !in t.billing {
      assert j.budgetUnits[i] in j.budgetUnits;
    }
  }

  /** A reported floor reason is the broken floor with the true aggregate, and the target is capable otherwise. */
  lemma FloorReasonsAreTrue(j: JobView, t: TargetView, now: real, quality: bool, actual: real)
    ensures Filter(j, t, now, quality) == Some(TwoQubitFloor(actual)) ==>
              && quality && HardCapability(j, t, now).None? && 0.0 < j.twoQubitErrorMax < actual
              && ErrorAggregate(TwoQubit, t, EffectiveAggregate(j)) == Some(actual)
    ensures Filter(j, t, now, quality) == Some(ReadoutFloor(actual)) ==>
              && quality && HardCapability(j, t, now).None? && 0.0 < j.readoutErrorMax < actual
              && ErrorAggregate(Readout, t, EffectiveAggregate(j)) == Some(actual)
              && FloorHolds(TwoQubit, j.twoQubitErrorMax, j, t)
    ensures Filter(j, t, now, quality) in {Some(NoTwoQubitMetric), Some(NoReadoutMetric)} ==>
              quality && !FloorsHold(j, t)
    ensures Filter(j, t, now, quality) == Some(Offline) <==> !t.online
    ensures Filter(j, t, now, quality) == Some(CalibrationTooOld) ==>
              && quality && FloorsHold(j, t)
              && (t.measuredAt.None? || now > t.measuredAt.value + j.calibrationMaxAge)
    ensures var reason := Filter(j, t, now, quality);
            reason in {Some(Denied), Some(NotRequired), Some(CloudNotAllowed), Some(UnitNotMetered)} ==>
              HardCapability(j, t, now).None? && (quality ==> FloorsHold(j, t))
  {
  }

  /** Better calibration never turns a feasible target infeasible. */
  lemma FilterMonotone(j: JobView, better: TargetView, t: TargetView, now: real, quality: bool)
    requires better == t.(metrics := better.metrics, waitSeconds := better.waitSeconds, snapshotId := better.snapshotId)
    requires NoWorse(better.metrics, t.metrics)
    requires Filter(j, t, now, quality).None?
    ensures Filter(j, better, now, quality).None?
  {
    SameCapabilities(j, better, t, now);
    if quality {
      FloorsMonotone(j, better, t, now);
    }
  }

  lemma FloorsMonotone(j: JobView, better: TargetView, t: TargetView, now: real)
    requires NoWorse(better.metrics, t.metrics) && better.measuredAt == t.measuredAt && QualityFloors(j, t, now).None?
    ensures QualityFloors(j, better, now).None?
  {
    AggregateMonotone(TwoQubit, better, t, EffectiveAggregate(j));
    AggregateMonotone(Readout, better, t, EffectiveAggregate(j));
  }

  lemma SameCapabilities(j: JobView, better: TargetView, t: TargetView, now: real)
    requires better == t.(metrics := better.metrics, waitSeconds := better.waitSeconds, snapshotId := better.snapshotId)
    ensures HardCapability(j, better, now) == HardCapability(j, t, now) && Selectors(j, better) == Selectors(j, t)
  {
  }

  // ---- policies ----

  datatype Policy = Fifo | StaticBest | RoundRobin | CalibAware | ParetoV0

  /** Whether a policy evaluates quality floors (standardFilter) or capabilities only (capabilityFilter). */
  predicate ChecksFloors(p: Policy) {
    p.Fifo? || p.CalibAware? || p.ParetoV0?
  }

  predicate Feasible(p: Policy, j: JobView, t: TargetView, now: real) {
    Filter(j, t, now, ChecksFloors(p)).None?
  }

  function ProfileFor(j: JobView): CircuitProfile {
    if j.profile.Some? then j.profile.value
    else
      var width := if j.qubits == 0 then 2 else j.qubits;
      CircuitProfile(width, width, width - 1, width)
  }

  /** A job that declares no profile counts as a chain on its qubits, two if it declares none: all of them measured. */
  lemma DefaultProfile(j: JobView)
    requires j.profile.None?
    ensures var c := ProfileFor(j);
            && c.qubits == c.oneQubitGates == c.measuredQubits == c.twoQubitGates + 1
            && (j.qubits > 0 ==> c.qubits == j.qubits) && (j.qubits == 0 ==> c.measuredQubits == 2)
  {
  }

  /** (quality weight, wait weight) by job intent. */
  function Weights(j: JobView): (real, real) {
    if j.deadline.Some? && HasQualityFloor(j) then (0.55, 0.35)
    else if j.deadline.Some? then (0.45, 0.45)
    else if HasQualityFloor(j) then (0.75, 0.15)
    else (0.60, 0.25)
  }

  /** Waits are non-negative durations. */
  ghost predicate ValidFleet(fleet: seq<TargetView>) {
    forall i :: 0 <= i < |fleet| ==> fleet[i].waitSeconds >= 0.0
  }

  function WaitNorm(wait: real): real
    requires wait >= 0.0
  {
    wait / (wait + 60.0)
  }

  function Weighed(w: (real, real), esp: real, wait: real): real {
    w.0 * esp - w.1 * wait
  }

  function Score(p: Policy, j: JobView, t: TargetView): real
    requires t.waitSeconds >= 0.0
  {
    match p
    case CalibAware => Weighed(Weights(j), ESP(ProfileFor(j), t.metrics), WaitNorm(t.waitSeconds))
    case StaticBest => if t.nominal2QError > 0.0 then -t.nominal2QError else -1.0
    case _ => 0.0
  }

  lemma WaitNormMonotone(a: real, b: real)
    requires 0.0 <= a <= b
    ensures WaitNorm(a) <= WaitNorm(b)
  {
    assert a * (b + 60.0) <= b * (a + 60.0);
    CrossDivide(a, a + 60.0, b, b + 60.0);
  }

  lemma CalibAwareScoreMonotone(j: JobView, better: TargetView, t: TargetView)
    requires 0.0 <= better.waitSeconds <= t.waitSeconds
    requires ValidErrors(better.metrics) && ValidErrors(t.metrics) && NoWorse(better.metrics, t.metrics)
    ensures Score(CalibAware, j, t) <= Score(CalibAware, j, better)
  {
    EspAntitone(ProfileFor(j), better.metrics, t.metrics);
    WaitNormMonotone(better.waitSeconds, t.waitSeconds);
    WeighedMonotone(Weights(j), ESP(ProfileFor(j), t.metrics), ESP(ProfileFor(j), better.metrics),
                    WaitNorm(t.waitSeconds), WaitNorm(better.waitSeconds));
  }

  lemma WeighedMonotone(w: (real, real), esp: real, esp': real, wait: real, wait': real)
    requires w.0 >= 0.0 && w.1 >= 0.0 && esp <= esp' && wait' <= wait
    ensures Weighed(w, esp, wait) <= Weighed(w, esp', wait')
  {
    assert w.0 * (esp' - esp) >= 0.0;
    assert w.1 * (wait - wait') >= 0.0;
  }

  // ---- name order ----

  function InsertByName(t: TargetView, ts: seq<TargetView>): seq<TargetView> {
    if ts == [] then [t]
    else if NameLeq(t.name, ts[0].name) then [t] + ts
    else [ts[0]] + InsertByName(t, ts[1..])
  }

  function SortByName(ts: seq<TargetView>): seq<TargetView> {
    if ts == [] then [] else InsertByName(ts[0], SortByName(ts[1..]))
  }

  ghost predicate NameSorted(ts: seq<TargetView>) {
    forall i, k :: 0 <= i < k < |ts| ==> NameLeq(ts[i].name, ts[k].name)
  }

  lemma {:induction false} InsertKeepsTargets(t: TargetView, ts: seq<TargetView>)
    ensures multiset(InsertByName(t, ts)) == multiset(ts) + multiset{t}
  {
    if ts != [] && !NameLeq(t.name, ts[0].name) {
      InsertKeepsTargets(t, ts[1..]);
      assert ts == [ts[0]] + ts[1..];
    }
  }

  lemma {:induction false} InsertByNameSorts(t: TargetView, ts: seq<TargetView>)
    requires NameSorted(ts)
    ensures NameSorted(InsertByName(t, ts))
    decreases |ts|
  {
    if ts != [] {
      if NameLeq(t.name, ts[0].name) {
        forall k | 0 <= k < |ts| ensures NameLeq(t.name, ts[k].name) {
          if k > 0 {
            NameTransitive(t.name, ts[0].name, ts[k].name);
          }
        }
        PrependFirst(t, ts);
      } else {
        var r := InsertByName(t, ts[1..]);
        NameTotal(t.name, ts[0].name);
        InsertByNameSorts(t, ts[1..]);
        InsertKeepsTargets(t, ts[1..]);
        forall k | 0 <= k < |r| ensures NameLeq(ts[0].name, r[k].name) {
          assert r[k] in multiset(r);
          assert r[k] == t || r[k] in ts[1..];
        }
        PrependFirst(ts[0], r);
      }
    }
  }

  lemma PrependFirst(t: TargetView, ts: seq<TargetView>)
    requires NameSorted(ts) && forall k :: 0 <= k < |ts| ==> NameLeq(t.name, ts[k].name)
    ensures NameSorted([t] + ts)
  {
  }

  lemma {:induction false} SortByNameCorrect(ts: seq<TargetView>)
    ensures NameSorted(SortByName(ts))
    ensures multiset(SortByName(ts)) == multiset(ts)
  {
    if ts != [] {
      SortByNameCorrect(ts[1..]);
      InsertByNameSorts(ts[0], SortByName(ts[1..]));
      InsertKeepsTargets(ts[0], SortByName(ts[1..]));
      assert ts == [ts[0]] + ts[1..];
    }
  }

  // ---- Schedule ----

  datatype Rejection = Rejection(target: string, reason: Reason)

  /** `target` is None when no target is feasible. */
  datatype Decision = Decision(target: Option<string>, score: real, snapshotId: string, waitSeconds: real,
                               rejected: seq<Rejection>)

  function FeasibleOf(p: Policy, j: JobView, ts: seq<TargetView>, now: real): seq<TargetView> {
    if ts == [] then []
    else
      var rest, last := ts[..|ts| - 1], ts[|ts| - 1];
      if Feasible(p, j, last, now) then FeasibleOf(p, j, rest, now) + [last] else FeasibleOf(p, j, rest, now)
  }

  function RejectedOf(p: Policy, j: JobView, ts: seq<TargetView>, now: real): seq<Rejection> {
    if ts == [] then []
    else
      var rest, last := ts[..|ts| - 1], ts[|ts| - 1];
      var reason := Filter(j, last, now, ChecksFloors(p));
      if reason.Some? then RejectedOf(p, j, rest, now) + [Rejection(last.name, reason.value)]
      else RejectedOf(p, j, rest, now)
  }

  lemma {:induction false} FeasibleOfMembers(p: Policy, j: JobView, ts: seq<TargetView>, now: real)
    ensures forall t :: t in FeasibleOf(p, j, ts, now) <==> t in ts && Feasible(p, j, t, now)
  {
    if ts != [] {
      FeasibleOfMembers(p, j, ts[..|ts| - 1], now);
      assert ts == ts[..|ts| - 1] + [ts[|ts| - 1]];
    }
  }

  lemma {:induction false} FeasibleOfSorted(p: Policy, j: JobView, ts: seq<TargetView>, now: real)
    requires NameSorted(ts)
    ensures NameSorted(FeasibleOf(p, j, ts, now))
  {
    if ts != [] {
      var rest, last := ts[..|ts| - 1], ts[|ts| - 1];
      FeasibleOfSorted(p, j, rest, now);
      FeasibleOfMembers(p, j, rest, now);
      var feasible := FeasibleOf(p, j, rest, now);
      forall k | 0 <= k < |feasible| ensures NameLeq(feasible[k].name, last.name) {
        assert feasible[k] in rest;
      }
    }
  }

  lemma FeasibleOfValid(p: Policy, j: JobView, ts: seq<TargetView>, now: real)
    requires ValidFleet(ts)
    ensures ValidFleet(FeasibleOf(p, j, ts, now))
  {
    FeasibleOfMembers(p, j, ts, now);
    var feasible := FeasibleOf(p, j, ts, now);
    forall i | 0 <= i < |feasible| ensures feasible[i].waitSeconds >= 0.0 {
      assert feasible[i] in ts;
    }
  }

  function Candidates(p: Policy, j: JobView, fleet: seq<TargetView>, now: real): seq<TargetView> {
    FeasibleOf(p, j, SortByName(fleet), now)
  }

  lemma CandidatesAreFeasible(p: Policy, j: JobView, fleet: seq<TargetView>, now: real)
    ensures forall t :: t in Candidates(p, j, fleet, now) <==> t in fleet && Feasible(p, j, t, now)
    ensures NameSorted(Candidates(p, j, fleet, now))
    ensures ValidFleet(fleet) ==> ValidFleet(Candidates(p, j, fleet, now))
  {
    var sorted := SortByName(fleet);
    SortByNameCorrect(fleet);
    SortKeepsMembers(fleet);
    FeasibleOfMembers(p, j, sorted, now);
    FeasibleOfSorted(p, j, sorted, now);
    if ValidFleet(fleet) {
      forall i | 0 <= i < |sorted| ensures sorted[i].waitSeconds >= 0.0 {
        assert sorted[i] in sorted;
      }
      FeasibleOfValid(p, j, sorted, now);
    }
  }

  lemma SortKeepsMembers(fleet: seq<TargetView>)
    ensures forall t :: t in SortByName(fleet) <==> t in fleet
    ensures |SortByName(fleet)| == |fleet|
  {
    var sorted := SortByName(fleet);
    SortByNameCorrect(fleet);
    forall t ensures t in sorted <==> t in fleet {
      assert t in sorted <==> t in multiset(sorted);
      assert t in fleet <==> t in multiset(fleet);
    }
    assert |sorted| == |multiset(sorted)| == |multiset(fleet)| == |fleet|;
  }

  // ---- the audit trail ----

  /** Some target of this name fails the policy's filter for this reason. */
  ghost predicate Rejects(p: Policy, j: JobView, ts: seq<TargetView>, now: real, x: Rejection) {
    exists t :: t in ts && t.name == x.target && Filter(j, t, now, ChecksFloors(p)) == Some(x.reason)
  }

  /** The rejections are exactly the failing targets with their reasons; every target is a candidate or rejected. */
  lemma {:induction false} RejectionsExplained(p: Policy, j: JobView, ts: seq<TargetView>, now: real)
    ensures forall x :: x in RejectedOf(p, j, ts, now) <==> Rejects(p, j, ts, now, x)
    ensures |FeasibleOf(p, j, ts, now)| + |RejectedOf(p, j, ts, now)| == |ts|
  {
    if ts != [] {
      var rest, last := ts[..|ts| - 1], ts[|ts| - 1];
      RejectionsExplained(p, j, rest, now);
      assert ts == rest + [last];
      forall x ensures x in RejectedOf(p, j, ts, now) <==> Rejects(p, j, ts, now, x) {
        RejectsAppend(p, j, rest, last, now, x);
      }
    }
  }

  lemma RejectsAppend(p: Policy, j: JobView, ts: seq<TargetView>, last: TargetView, now: real, x: Rejection)
    ensures Rejects(p, j, ts + [last], now, x) <==>
              || Rejects(p, j, ts, now, x)
              || (last.name == x.target && Filter(j, last, now, ChecksFloors(p)) == Some(x.reason))
  {
    if Rejects(p, j, ts, now, x) {
      var t :| t in ts && t.name == x.target && Filter(j, t, now, ChecksFloors(p)) == Some(x.reason);
      assert t in ts + [last];
    }
    assert last in ts + [last];
  }

  /** The same of the whole fleet, in whatever order. */
  lemma FleetRejections(p: Policy, j: JobView, fleet: seq<TargetView>, now: real)
    ensures forall x :: x in RejectedOf(p, j, SortByName(fleet), now) <==> Rejects(p, j, fleet, now, x)
    ensures |Candidates(p, j, fleet, now)| + |RejectedOf(p, j, SortByName(fleet), now)| == |fleet|
  {
    RejectionsExplained(p, j, SortByName(fleet), now);
    SortKeepsMembers(fleet);
  }

  /** The two pareto/v0 objectives: fidelity, and speed as negated wait. */
  function Objectives(j: JobView, ts: seq<TargetView>): Pareto.Points {
    Pareto.Points(seq(|ts|, i requires 0 <= i < |ts| => ESP(ProfileFor(j), ts[i].metrics)),
                  seq(|ts|, i requires 0 <= i < |ts| => -ts[i].waitSeconds))
  }

  /** The score vector a policy may give to the candidates; `counter` is round-robin's rotation state. */
  ghost predicate ValidScores(p: Policy, counter: nat, j: JobView, ts: seq<TargetView>, scores: seq<real>)
    requires ValidFleet(ts)
  {
    && |scores| == |ts|
    && match p
       case ParetoV0 => Pareto.IsScores(Objectives(j, ts), scores)
       case RoundRobin => forall i :: 0 <= i < |ts| ==> scores[i] == if i == counter % |ts| then 1.0 else 0.0
       case _ => forall i :: 0 <= i < |ts| ==> scores[i] == Score(p, j, ts[i])
  }

  /** b is the first position of the maximum score. */
  ghost predicate FirstMax(scores: seq<real>, b: nat) {
    && b < |scores|
    && (forall i :: 0 <= i < |scores| ==> scores[i] <= scores[b])
    && (forall i :: 0 <= i < b ==> scores[i] < scores[b])
  }

  ghost predicate Picks(ts: seq<TargetView>, scores: seq<real>, d: Decision)
    requires |scores| == |ts|
  {
    if ts == [] then d.target.None?
    else exists b: nat :: FirstMax(scores, b) && d.target == Some(ts[b].name) && d.score == scores[b]
                     && d.snapshotId == ts[b].snapshotId && d.waitSeconds == ts[b].waitSeconds
  }

  /** d is an outcome of Schedule for this policy, job, fleet and time. */
  ghost predicate Decides(p: Policy, j: JobView, fleet: seq<TargetView>, now: real, d: Decision) {
    ValidFleet(fleet) && ValidFleet(Candidates(p, j, fleet, now)) && exists counter, scores ::
      ValidScores(p, counter, j, Candidates(p, j, fleet, now), scores) && Picks(Candidates(p, j, fleet, now), scores, d)
  }

  method FilterFleet(p: Policy, j: JobView, sorted: seq<TargetView>, now: real)
    returns (feasible: seq<TargetView>, rejected: seq<Rejection>)
    ensures feasible == FeasibleOf(p, j, sorted, now) && rejected == RejectedOf(p, j, sorted, now)
    ensures forall x :: x in rejected <==> Rejects(p, j, sorted, now, x)
    ensures |feasible| + |rejected| == |sorted|
  {
    feasible, rejected := [], [];
    for i := 0 to |sorted|
      invariant feasible == FeasibleOf(p, j, sorted[..i], now)
      invariant rejected == RejectedOf(p, j, sorted[..i], now)
    {
      assert sorted[..i + 1][..i] == sorted[..i];
      var reason := Filter(j, sorted[i], now, ChecksFloors(p));
      if reason.Some? {
        rejected := rejected + [Rejection(sorted[i].name, reason.value)];
      } else {
        feasible := feasible + [sorted[i]];
      }
    }
    assert sorted[..|sorted|] == sorted;
    RejectionsExplained(p, j, sorted, now);
  }

  const COUNTER_WIDTH := 0x1_0000_0000_0000_0000

  method ScoreCandidates(p: Policy, counter: nat, j: JobView, ts: seq<TargetView>)
    returns (scores: seq<real>, counter': nat)
    requires ValidFleet(ts) && counter < COUNTER_WIDTH
    ensures ValidScores(p, counter, j, ts, scores)
    ensures counter' == if p.RoundRobin? && ts != [] then (counter + 1) % COUNTER_WIDTH else counter
  {
    counter' := counter;
    if p.ParetoV0? {
      scores := Pareto.ScoreSet(Objectives(j, ts));
      return;
    }
    scores := [];
    for i := 0 to |ts|
      invariant |scores| == i
      invariant !p.RoundRobin? ==> forall k :: 0 <= k < i ==> scores[k] == Score(p, j, ts[k])
      invariant p.RoundRobin? ==> forall k :: 0 <= k < i ==> scores[k] == 0.0
    {
      scores := scores + [if p.RoundRobin? then 0.0 else Score(p, j, ts[i])];
    }
    if p.RoundRobin? && ts != [] {
      counter' := (counter + 1) % COUNTER_WIDTH;
      scores := scores[counter % |ts| := 1.0];
    }
  }

  /** The argmax loop: strictly better replaces, so the first maximum wins. */
  method FirstMaximum(scores: seq<real>) returns (best: nat)
    requires scores != []
    ensures FirstMax(scores, best)
  {
    best := 0;
    for i := 1 to |scores|
      invariant best < i
      invariant forall k :: 0 <= k < i ==> scores[k] <= scores[best]
      invariant forall k :: 0 <= k < best ==> scores[k] < scores[best]
    {
      if scores[i] > scores[best] {
        best := i;
      }
    }
  }

  /** The single 1 among zeros is the first maximum. */
  lemma TurnIsMaximum(scores: seq<real>, best: nat, turn: nat)
    requires FirstMax(scores, best) && turn < |scores|
    requires forall i :: 0 <= i < |scores| ==> scores[i] == if i == turn then 1.0 else 0.0
    ensures best == turn
  {
    assert scores[turn] <= scores[best];
  }

  method Schedule(p: Policy, counter: nat, j: JobView, fleet: seq<TargetView>, now: real)
    returns (d: Decision, counter': nat)
    requires ValidFleet(fleet) && counter < COUNTER_WIDTH
    ensures Decides(p, j, fleet, now, d)
    ensures forall x :: x in d.rejected <==> Rejects(p, j, fleet, now, x)
    ensures |Candidates(p, j, fleet, now)| + |d.rejected| == |fleet|
    ensures counter'
              == if p.RoundRobin? && Candidates(p, j, fleet, now) != [] then (counter + 1) % COUNTER_WIDTH else counter
    ensures p.RoundRobin? && Candidates(p, j, fleet, now) != [] ==>
              d.target == Some(Candidates(p, j, fleet, now)[counter % |Candidates(p, j, fleet, now)|].name)
  {
    var sorted := SortByName(fleet);
    var feasible, rejected := FilterFleet(p, j, sorted, now);
    CandidatesAreFeasible(p, j, fleet, now);
    FleetRejections(p, j, fleet, now);
    assert feasible == Candidates(p, j, fleet, now);
    var scores;
    scores, counter' := ScoreCandidates(p, counter, j, feasible);
    if |feasible| == 0 {
      d := Decision(None, 0.0, "", 0.0, rejected);
    } else {
      var best := FirstMaximum(scores);
      if p.RoundRobin? {
        TurnIsMaximum(scores, best, counter % |feasible|);
      }
      d := Decision(Some(feasible[best].name), scores[best], feasible[best].snapshotId, feasible[best].waitSeconds,
                    rejected);
    }
    assert Picks(feasible, scores, d);
  }
}
