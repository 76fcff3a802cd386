/**
 The scheduler's view of the fleet (internal/scheduler/views.go): targets, calibration metrics
 and the aggregates that quality floors are compared with.
 */
module Fleet {
  import opened Common
  import opened OrderStatistics

  datatype Metric = Metric(name: string, value: real, qubits: seq<nat>)

  datatype Window = Window(start: real, end: real)

  datatype TargetView = TargetView(
    name: string, modality: string, technology: string, qubits: nat, formats: seq<string>,
    maxShots: nat, billing: seq<string>, online: bool, cloud: bool,
    snapshotId: string, measuredAt: Option<real>, metrics: seq<Metric>,
    waitSeconds: real, maintenance: seq<Window>, nominal2QError: real)

  datatype CircuitProfile = CircuitProfile(qubits: int, oneQubitGates: int, twoQubitGates: int, measuredQubits: int)

  /** Zero floors, ages, shots and qubit counts mean "unset", as in the source. */
  datatype JobView = JobView(
    kind: string, format: string, shots: nat, qubits: nat, technology: seq<string>,
    twoQubitErrorMax: real, readoutErrorMax: real, calibrationMaxAge: real,
    aggregate: string, onConflict: string, deadline: Option<real>, budgetUnits: seq<string>,
    sessionJoin: Option<string>,
    allowCloudBurst: seq<string>, denyTargets: seq<string>, requireTargets: seq<string>,
    profile: Option<CircuitProfile>)

  predicate HasQualityFloor(j: JobView) {
    j.twoQubitErrorMax > 0.0 || j.readoutErrorMax > 0.0
  }

  predicate InMaintenance(t: TargetView, now: real) {
    exists i :: 0 <= i < |t.maintenance| && t.maintenance[i].start <= now < t.maintenance[i].end
  }

  // ---- metric classes ----

  datatype ErrorClass = OneQubit | TwoQubit | Readout

  predicate Matches(c: ErrorClass, name: string) {
    match c
    case OneQubit => name == "gate.1q.error"
    case TwoQubit => HasPrefix(name, "gate.2q.") && HasSuffix(name, ".error")
    case Readout => name == "readout.error"
  }

  predicate IsErrorMetric(name: string) {
    Matches(OneQubit, name) || Matches(TwoQubit, name) || Matches(Readout, name)
  }

  function ValuesOf(c: ErrorClass, ms: seq<Metric>): seq<real> {
    if ms == [] then []
    else (if Matches(c, ms[0].name) then [ms[0].value] else []) + ValuesOf(c, ms[1..])
  }

  /** metricValues: one pass over the snapshot, keeping the values of one class. */
  method CollectValues(c: ErrorClass, ms: seq<Metric>) returns (out: seq<real>)
    ensures out == ValuesOf(c, ms)
  {
    out := [];
    for i := 0 to |ms|
      invariant out + ValuesOf(c, ms[i..]) == ValuesOf(c, ms)
    {
      if Matches(c, ms[i].name) {
        out := out + [ms[i].value];
      }
      assert ms[i..][1..] == ms[i + 1..];
    }
  }

  lemma {:induction false} ValuesAppend(c: ErrorClass, ms: seq<Metric>, m: Metric)
    ensures Matches(c, m.name) ==> ValuesOf(c, ms + [m]) == ValuesOf(c, ms) + [m.value]
    ensures !Matches(c, m.name) ==> ValuesOf(c, ms + [m]) == ValuesOf(c, ms)
  {
    if ms == [] {
      assert ms + [m] == [m];
    } else {
      assert (ms + [m])[1..] == ms[1..] + [m];
      ValuesAppend(c, ms[1..], m);
    }
  }

  /** Reordering a snapshot reorders the values of each class. */
  lemma {:induction false} ValuesPermute(c: ErrorClass, ms: seq<Metric>, ns: seq<Metric>)
    requires multiset(ms) == multiset(ns)
    ensures multiset(ValuesOf(c, ms)) == multiset(ValuesOf(c, ns))
  {
    if ms == [] {
      assert |ns| == |multiset(ns)| == |multiset(ms)| == 0;
    } else {
      var k := MatchFirst(ms, ns);
      ValuesPermute(c, ms[..0] + ms[1..], ns[..k] + ns[k + 1..]);
      ValuesReassemble(c, ms, 0, ns, k);
    }
  }

  lemma MatchFirst<T>(s: seq<T>, t: seq<T>) returns (k: nat)
    requires s != [] && multiset(s) == multiset(t)
    ensures k < |t| && t[k] == s[0]
    ensures multiset(s[..0] + s[1..]) == multiset(t[..k] + t[k + 1..])
  {
    assert s[0] in multiset(t);
    k :| 0 <= k < |t| && t[k] == s[0];
    assert s == s[..0] + [s[0]] + s[1..];
    assert t == t[..k] + [t[k]] + t[k + 1..];
    assert multiset(t[..k] + t[k + 1..]) == multiset(t) - multiset{t[k]};
    assert multiset(s[..0] + s[1..]) == multiset(s) - multiset{s[0]};
  }

  lemma ValuesReassemble(c: ErrorClass, ms: seq<Metric>, i: nat, ns: seq<Metric>, k: nat)
    requires i < |ms| && k < |ns| && ms[i] == ns[k]
    requires multiset(ValuesOf(c, ms[..i] + ms[i + 1..])) == multiset(ValuesOf(c, ns[..k] + ns[k + 1..]))
    ensures multiset(ValuesOf(c, ms)) == multiset(ValuesOf(c, ns))
  {
    ValuesExtract(c, ms, i);
    ValuesExtract(c, ns, k);
  }

  lemma ValuesExtract(c: ErrorClass, ns: seq<Metric>, k: nat)
    requires k < |ns|
    ensures multiset(ValuesOf(c, ns)) == multiset(ValuesOf(c, ns[..k] + ns[k + 1..])) + multiset(ValuesOf(c, [ns[k]]))
  {
    ValuesSplit(c, ns[..k], [ns[k]] + ns[k + 1..]);
    ValuesSplit(c, [ns[k]], ns[k + 1..]);
    ValuesSplit(c, ns[..k], ns[k + 1..]);
    assert ns == ns[..k] + ([ns[k]] + ns[k + 1..]);
  }

  lemma {:induction false} ValuesSplit(c: ErrorClass, a: seq<Metric>, b: seq<Metric>)
    ensures ValuesOf(c, a + b) == ValuesOf(c, a) + ValuesOf(c, b)
  {
    if a == [] {
      assert a + b == b;
    } else {
      assert (a + b)[1..] == a[1..] + b;
      ValuesSplit(c, a[1..], b);
    }
  }

  /** Error metrics are probabilities. */
  ghost predicate ValidErrors(ms: seq<Metric>) {
    forall i :: 0 <= i < |ms| && IsErrorMetric(ms[i].name) ==> 0.0 <= ms[i].value <= 1.0
  }

  /** The same metrics, with every error value at most what it was; other metrics are free. */
  ghost predicate NoWorse(better: seq<Metric>, ms: seq<Metric>) {
    && |better| == |ms|
    && (forall i :: 0 <= i < |ms| ==> better[i].name == ms[i].name)
    && (forall i :: 0 <= i < |ms| && IsErrorMetric(ms[i].name) ==> better[i].value <= ms[i].value)
  }

  lemma {:induction false} ValuesBelow(c: ErrorClass, better: seq<Metric>, ms: seq<Metric>)
    requires NoWorse(better, ms)
    ensures Below(ValuesOf(c, better), ValuesOf(c, ms))
  {
    if ms != [] {
      ValuesBelow(c, better[1..], ms[1..]);
    }
  }

  lemma {:induction false} ValuesWithin(c: ErrorClass, ms: seq<Metric>)
    requires ValidErrors(ms)
    ensures Within(ValuesOf(c, ms), 0.0, 1.0)
  {
    if ms != [] {
      ValuesWithin(c, ms[1..]);
    }
  }

  // ---- aggregates ----

  /** Index of the value an aggregate selects from n sorted values; unknown aggregates mean "best". */
  function AggregateIndex(aggregate: string, n: nat): (i: nat)
    requires n > 0
    ensures i < n
  {
    if aggregate == "worst" then n - 1 else if aggregate == "median" then (n - 1) / 2 else 0
  }

  /** aggregateValues: None when the snapshot holds no value of the class. */
  function Aggregate(values: seq<real>, aggregate: string): Option<real> {
    if values == [] then None else Some(Sort(values)[AggregateIndex(aggregate, |values|)])
  }

  function ErrorAggregate(c: ErrorClass, t: TargetView, aggregate: string): Option<real> {
    Aggregate(ValuesOf(c, t.metrics), aggregate)
  }

  lemma SortedPosition(values: seq<real>, i: nat) returns (k: nat)
    requires i < |values|
    ensures k < |values| && Sort(values)[k] == values[i]
  {
    SortCorrect(values);
    assert values[i] in multiset(values);
    assert values[i] in multiset(Sort(values));
    k :| 0 <= k < |Sort(values)| && Sort(values)[k] == values[i];
  }

  /** "best" and "worst" bound every value and are attained. */
  lemma AggregateExtremes(values: seq<real>, i: nat)
    requires i < |values|
    ensures Aggregate(values, "best").value <= values[i] <= Aggregate(values, "worst").value
    ensures Aggregate(values, "best").value in values && Aggregate(values, "worst").value in values
  {
    SortCorrect(values);
    var k := SortedPosition(values, i);
    var s := Sort(values);
    assert s[0] in multiset(s) && s[|s| - 1] in multiset(s);
    assert s[0] in multiset(values) && s[|s| - 1] in multiset(values);
  }

  lemma SplitAt(s: seq<real>, k: nat) returns (low: seq<real>, high: seq<real>)
    requires Sorted(s) && k < |s|
    ensures multiset(s) == multiset(low) + multiset{s[k]} + multiset(high)
    ensures |low| == k && |high| == |s| - k - 1
    ensures forall i :: 0 <= i < |low| ==> low[i] <= s[k]
    ensures forall i :: 0 <= i < |high| ==> s[k] <= high[i]
  {
    low, high := s[..k], s[k + 1..];
    assert s == low + [s[k]] + high;
  }

  /** "median" is the lower middle: it splits the values into a lower half of (n-1)/2 and the rest. */
  lemma AggregateMedian(values: seq<real>) returns (low: seq<real>, high: seq<real>)
    requires values != []
    ensures var v := Aggregate(values, "median").value;
            && multiset(values) == multiset(low) + multiset{v} + multiset(high)
            && |low| == (|values| - 1) / 2 && |high| == |values| / 2
            && (forall i :: 0 <= i < |low| ==> low[i] <= v) && (forall i :: 0 <= i < |high| ==> v <= high[i])
  {
    SortCorrect(values);
    low, high := SplitAt(Sort(values), (|values| - 1) / 2);
  }

  /** Any other aggregate name means "best". */
  lemma UnknownAggregateIsBest(values: seq<real>, aggregate: string)
    requires aggregate != "median" && aggregate != "worst"
    ensures Aggregate(values, aggregate) == Aggregate(values, "best")
    ensures Aggregate(values, aggregate).None? <==> values == []
  {
  }

  /** Which metrics count: the one-qubit and readout errors by name, the error of any two-qubit gate. */
  lemma MetricClasses(gate: string)
    ensures Matches(TwoQubit, "gate.2q." + gate + ".error")
    ensures Matches(OneQubit, "gate.1q.error") && Matches(Readout, "readout.error")
    ensures !IsErrorMetric("t1.us") && !IsErrorMetric("t2.us") && !IsErrorMetric("gate.2q." + gate + ".duration")
  {
    var name, other := "gate.2q." + gate + ".error", "gate.2q." + gate + ".duration";
    assert name[|name| - 6..] == ".error";
    assert name[..8] == "gate.2q.";
    assert other[|other| - 1] == 'n' && ".error"[5] == 'r';
    assert other[5] == '2' && "gate.1q.error"[5] == '1' && other[0] == 'g';
    assert other[|other| - 6..][5] == 'n';
    assert "t1.us"[0] == 't' && "t2.us"[0] == 't' && "gate.2q."[0] == 'g';
  }

  lemma AggregateMonotone(c: ErrorClass, better: TargetView, t: TargetView, aggregate: string)
    requires NoWorse(better.metrics, t.metrics)
    ensures ErrorAggregate(c, better, aggregate).None? <==> ErrorAggregate(c, t, aggregate).None?
    ensures ErrorAggregate(c, t, aggregate).Some? ==>
              ErrorAggregate(c, better, aggregate).value <= ErrorAggregate(c, t, aggregate).value
  {
    ValuesBelow(c, better.metrics, t.metrics);
    SortMonotone(ValuesOf(c, better.metrics), ValuesOf(c, t.metrics));
  }
}
