/** Estimated success probability (internal/scheduler/esp.go). */
module Esp {
  import opened OrderStatistics
  import opened Fleet

  const DEFAULT_ONE_QUBIT_ERROR := 0.01
  const DEFAULT_TWO_QUBIT_ERROR := 0.05
  const DEFAULT_READOUT_ERROR := 0.05

  function Max(a: int, b: int): int {
    if a > b then a else b
  }

  /** The mean of the k smallest values, missing values counted as the default. */
  function MeanBest(values: seq<real>, k: nat, d: real): real
    requires k > 0
  {
    FillSum(Sort(values), k, d) / k as real
  }

  function DefaultError(c: ErrorClass): real {
    match c
    case OneQubit => DEFAULT_ONE_QUBIT_ERROR
    case TwoQubit => DEFAULT_TWO_QUBIT_ERROR
    case Readout => DEFAULT_READOUT_ERROR
  }

  /** How many values of a class the estimate looks at. */
  function WindowSize(c: ErrorClass, p: CircuitProfile): nat {
    match c
    case OneQubit => Max(p.qubits, 1)
    case TwoQubit => Max(p.qubits - 1, 1)
    case Readout => Max(p.measuredQubits, 0)
  }

  /** The contribution of `gates` gates whose error is the mean of the k best values of class c. */
  function GateFactor(c: ErrorClass, gates: int, k: nat, ms: seq<Metric>): real
    requires k > 0
  {
    Survival(gates, MeanBest(ValuesOf(c, ms), k, DefaultError(c)))
  }

  /** The probability that none of `gates` gates with this error fails. */
  function Survival(gates: int, error: real): real {
    if gates > 0 then Pow(1.0 - error, gates) else 1.0
  }

  function OneQubitFactor(p: CircuitProfile, ms: seq<Metric>): real {
    GateFactor(OneQubit, p.oneQubitGates, WindowSize(OneQubit, p), ms)
  }

  function TwoQubitFactor(p: CircuitProfile, ms: seq<Metric>): real {
    GateFactor(TwoQubit, p.twoQubitGates, WindowSize(TwoQubit, p), ms)
  }

  function ReadoutFactor(p: CircuitProfile, ms: seq<Metric>): real {
    if p.measuredQubits > 0 then FillProd(Sort(ValuesOf(Readout, ms)), p.measuredQubits, DEFAULT_READOUT_ERROR)
    else 1.0
  }

  function ESP(p: CircuitProfile, ms: seq<Metric>): real {
    Product(OneQubitFactor(p, ms), TwoQubitFactor(p, ms), ReadoutFactor(p, ms))
  }

  function Product(a: real, b: real, c: real): real {
    a * b * c
  }

  // ---- the source's loops ----

  method MeanBestK(values: seq<real>, k: nat, fallback: real) returns (mean: real)
    requires k > 0
    ensures mean == MeanBest(values, k, fallback)
  {
    var sorted := Sort(values);
    var sum := 0.0;
    for i := 0 to k
      invariant sum + FillSum(Tail(sorted, i), k - i, fallback) == FillSum(sorted, k, fallback)
    {
      assert Tail(Tail(sorted, i), 1) == Tail(sorted, i + 1);
      if i < |sorted| {
        sum := sum + sorted[i];
      } else {
        sum := sum + fallback;
      }
    }
    mean := sum / k as real;
  }

  method ReadoutProduct(esp0: real, ro: seq<real>, measured: nat) returns (esp: real)
    ensures esp == esp0 * FillProd(ro, measured, DEFAULT_READOUT_ERROR)
  {
    esp := esp0;
    for k := 0 to measured
      invariant esp * FillProd(Tail(ro, k), measured - k, DEFAULT_READOUT_ERROR)
             == esp0 * FillProd(ro, measured, DEFAULT_READOUT_ERROR)
    {
      var rest := FillProd(Tail(ro, k + 1), measured - k - 1, DEFAULT_READOUT_ERROR);
      assert Tail(Tail(ro, k), 1) == Tail(ro, k + 1);
      var factor := if k < |ro| then 1.0 - ro[k] else 1.0 - DEFAULT_READOUT_ERROR;
      assert esp * (factor * rest) == (esp * factor) * rest;
      esp := esp * factor;
    }
  }

  /** One gate class of the estimate: classes without gates leave it alone. */
  method ApplyGates(esp0: real, c: ErrorClass, gates: int, k: nat, ms: seq<Metric>) returns (esp: real)
    requires k > 0
    ensures esp == esp0 * GateFactor(c, gates, k, ms)
  {
    if gates <= 0 {
      return esp0;
    }
    var values := CollectValues(c, ms);
    var error := MeanBestK(values, k, DefaultError(c));
    esp := esp0 * Pow(1.0 - error, gates);
  }

  method EstimateSuccess(p: CircuitProfile, ms: seq<Metric>) returns (esp: real)
    ensures esp == ESP(p, ms)
  {
    esp := ApplyGates(1.0, OneQubit, p.oneQubitGates, Max(p.qubits, 1), ms);
    ghost var first := esp;
    esp := ApplyGates(esp, TwoQubit, p.twoQubitGates, Max(p.qubits - 1, 1), ms);
    ghost var second := esp;
    if p.measuredQubits > 0 {
      var ro := CollectValues(Readout, ms);
      esp := ReadoutProduct(esp, Sort(ro), p.measuredQubits);
    }
    Folded(OneQubitFactor(p, ms), TwoQubitFactor(p, ms), ReadoutFactor(p, ms), first, second, esp);
  }

  lemma Folded(a: real, b: real, c: real, first: real, second: real, esp: real)
    requires first == 1.0 * a && second == first * b && esp == second * c
    ensures esp == Product(a, b, c)
  {
  }

  // ---- what ESP guarantees ----

  lemma MeanBestBounds(values: seq<real>, k: nat, d: real)
    requires k > 0 && Within(values, 0.0, 1.0) && 0.0 <= d <= 1.0
    ensures 0.0 <= MeanBest(values, k, d) <= 1.0
  {
    SortWithin(values, 0.0, 1.0);
    FillSumBounds(Sort(values), k, d);
    DivideBounds(FillSum(Sort(values), k, d), k as real);
  }

  lemma GateBounds(c: ErrorClass, gates: int, k: nat, ms: seq<Metric>)
    requires ValidErrors(ms) && k > 0
    ensures 0.0 <= GateFactor(c, gates, k, ms) <= 1.0
  {
    ValuesWithin(c, ms);
    MeanBestBounds(ValuesOf(c, ms), k, DefaultError(c));
    var e := MeanBest(ValuesOf(c, ms), k, DefaultError(c));
    SurvivalAntitone(gates, e, e);
  }

  lemma SurvivalAntitone(gates: int, e: real, f: real)
    requires 0.0 <= e <= f <= 1.0
    ensures 0.0 <= Survival(gates, f) <= Survival(gates, e) <= 1.0
  {
    if gates > 0 {
      PowMonotone(1.0 - f, 1.0 - e, gates);
    }
  }

  lemma SurvivalStrict(gates: int, e: real, f: real)
    requires 0.0 <= e < f <= 1.0 && gates > 0
    ensures Survival(gates, f) < Survival(gates, e)
  {
    PowStrict(1.0 - f, 1.0 - e, gates);
  }

  lemma FactorBounds(p: CircuitProfile, ms: seq<Metric>)
    requires ValidErrors(ms)
    ensures 0.0 <= OneQubitFactor(p, ms) <= 1.0
    ensures 0.0 <= TwoQubitFactor(p, ms) <= 1.0
    ensures 0.0 <= ReadoutFactor(p, ms) <= 1.0
  {
    GateBounds(OneQubit, p.oneQubitGates, WindowSize(OneQubit, p), ms);
    GateBounds(TwoQubit, p.twoQubitGates, WindowSize(TwoQubit, p), ms);
    if p.measuredQubits > 0 {
      ValuesWithin(Readout, ms);
      SortWithin(ValuesOf(Readout, ms), 0.0, 1.0);
      FillProdBounds(Sort(ValuesOf(Readout, ms)), p.measuredQubits, DEFAULT_READOUT_ERROR);
    }
  }

  /** ESP is a probability. */
  lemma EspIsProbability(p: CircuitProfile, ms: seq<Metric>)
    requires ValidErrors(ms)
    ensures 0.0 <= ESP(p, ms) <= 1.0
  {
    FactorBounds(p, ms);
    MulWithin(OneQubitFactor(p, ms), TwoQubitFactor(p, ms));
    MulWithin(OneQubitFactor(p, ms) * TwoQubitFactor(p, ms), ReadoutFactor(p, ms));
  }

  lemma ClassForgetsOrder(c: ErrorClass, ms: seq<Metric>, ns: seq<Metric>)
    requires multiset(ms) == multiset(ns)
    ensures Sort(ValuesOf(c, ms)) == Sort(ValuesOf(c, ns))
  {
    ValuesPermute(c, ms, ns);
    SortForgetsOrder(ValuesOf(c, ms), ValuesOf(c, ns));
  }

  lemma EspFromOrderStatistics(p: CircuitProfile, ms: seq<Metric>, ns: seq<Metric>)
    requires forall c :: Sort(ValuesOf(c, ms)) == Sort(ValuesOf(c, ns))
    ensures ESP(p, ms) == ESP(p, ns)
  {
    GateFromOrderStatistics(OneQubit, p.oneQubitGates, WindowSize(OneQubit, p), ms, ns);
    GateFromOrderStatistics(TwoQubit, p.twoQubitGates, WindowSize(TwoQubit, p), ms, ns);
    ReadoutFromOrderStatistics(p, ms, ns);
    SameFactors(p, ms, ns);
  }

  lemma SameFactors(p: CircuitProfile, ms: seq<Metric>, ns: seq<Metric>)
    requires OneQubitFactor(p, ms) == OneQubitFactor(p, ns) && TwoQubitFactor(p, ms) == TwoQubitFactor(p, ns)
    requires ReadoutFactor(p, ms) == ReadoutFactor(p, ns)
    ensures ESP(p, ms) == ESP(p, ns)
  {
  }

  lemma ReadoutFromOrderStatistics(p: CircuitProfile, ms: seq<Metric>, ns: seq<Metric>)
    requires Sort(ValuesOf(Readout, ms)) == Sort(ValuesOf(Readout, ns))
    ensures ReadoutFactor(p, ms) == ReadoutFactor(p, ns)
  {
  }

  lemma GateFromOrderStatistics(c: ErrorClass, gates: int, k: nat, ms: seq<Metric>, ns: seq<Metric>)
    requires k > 0 && Sort(ValuesOf(c, ms)) == Sort(ValuesOf(c, ns))
    ensures GateFactor(c, gates, k, ms) == GateFactor(c, gates, k, ns)
  {
  }

  /** ESP does not depend on the order in which a snapshot lists its metrics. */
  lemma EspForgetsOrder(p: CircuitProfile, ms: seq<Metric>, ns: seq<Metric>)
    requires multiset(ms) == multiset(ns)
    ensures ESP(p, ms) == ESP(p, ns)
  {
    forall c ensures Sort(ValuesOf(c, ms)) == Sort(ValuesOf(c, ns)) {
      ClassForgetsOrder(c, ms, ns);
    }
    EspFromOrderStatistics(p, ms, ns);
  }

  lemma MeanBestMonotone(values: seq<real>, values': seq<real>, k: nat, d: real)
    requires k > 0 && Below(values, values')
    ensures MeanBest(values, k, d) <= MeanBest(values', k, d)
  {
    SortMonotone(values, values');
    FillSumMonotone(Sort(values), Sort(values'), k, d);
    DivideMonotone(FillSum(Sort(values), k, d), FillSum(Sort(values'), k, d), k as real);
  }

  /** A gate factor only rises when the mean of its k best values falls. */
  lemma GateFactorFromMeans(c: ErrorClass, gates: int, k: nat, better: seq<Metric>, ms: seq<Metric>)
    requires ValidErrors(better) && ValidErrors(ms) && k > 0
    requires MeanBest(ValuesOf(c, better), k, DefaultError(c)) <= MeanBest(ValuesOf(c, ms), k, DefaultError(c))
    ensures GateFactor(c, gates, k, ms) <= GateFactor(c, gates, k, better)
  {
    ValuesWithin(c, better);
    ValuesWithin(c, ms);
    MeanBestBounds(ValuesOf(c, better), k, DefaultError(c));
    MeanBestBounds(ValuesOf(c, ms), k, DefaultError(c));
    SurvivalAntitone(gates, MeanBest(ValuesOf(c, better), k, DefaultError(c)),
                     MeanBest(ValuesOf(c, ms), k, DefaultError(c)));
  }

  lemma GateAntitone(c: ErrorClass, gates: int, k: nat, better: seq<Metric>, ms: seq<Metric>)
    requires ValidErrors(better) && ValidErrors(ms) && NoWorse(better, ms) && k > 0
    ensures GateFactor(c, gates, k, ms) <= GateFactor(c, gates, k, better)
  {
    ValuesBelow(c, better, ms);
    MeanBestMonotone(ValuesOf(c, better), ValuesOf(c, ms), k, DefaultError(c));
    GateFactorFromMeans(c, gates, k, better, ms);
  }

  lemma ReadoutAntitone(p: CircuitProfile, better: seq<Metric>, ms: seq<Metric>)
    requires ValidErrors(better) && ValidErrors(ms) && NoWorse(better, ms)
    ensures ReadoutFactor(p, ms) <= ReadoutFactor(p, better)
  {
    if p.measuredQubits > 0 {
      var a, b := ValuesOf(Readout, better), ValuesOf(Readout, ms);
      ValuesBelow(Readout, better, ms);
      ValuesWithin(Readout, better);
      ValuesWithin(Readout, ms);
      SortMonotone(a, b);
      SortWithin(a, 0.0, 1.0);
      SortWithin(b, 0.0, 1.0);
      FillProdAntitone(Sort(a), Sort(b), p.measuredQubits, DEFAULT_READOUT_ERROR);
    }
  }

  lemma ProductMonotone(a: real, a': real, b: real, b': real, c: real, c': real)
    requires 0.0 <= a <= a' && 0.0 <= b <= b' && 0.0 <= c <= c'
    ensures Product(a, b, c) <= Product(a', b', c')
  {
    MulMonotone(0.0, a, 0.0, b);
    MulMonotone(a, a', b, b');
    MulMonotone(a * b, a' * b', c, c');
  }

  /** ESP rises when each of its three factors does. */
  lemma EspFromFactors(p: CircuitProfile, better: seq<Metric>, ms: seq<Metric>)
    requires ValidErrors(ms)
    requires OneQubitFactor(p, ms) <= OneQubitFactor(p, better)
    requires TwoQubitFactor(p, ms) <= TwoQubitFactor(p, better)
    requires ReadoutFactor(p, ms) <= ReadoutFactor(p, better)
    ensures ESP(p, ms) <= ESP(p, better)
  {
    FactorBounds(p, ms);
    ProductMonotone(OneQubitFactor(p, ms), OneQubitFactor(p, better),
                    TwoQubitFactor(p, ms), TwoQubitFactor(p, better),
                    ReadoutFactor(p, ms), ReadoutFactor(p, better));
  }

  /** Lower error values never lower the estimate. */
  lemma EspAntitone(p: CircuitProfile, better: seq<Metric>, ms: seq<Metric>)
    requires ValidErrors(better) && ValidErrors(ms) && NoWorse(better, ms)
    ensures ESP(p, ms) <= ESP(p, better)
  {
    GateAntitone(OneQubit, p.oneQubitGates, WindowSize(OneQubit, p), better, ms);
    GateAntitone(TwoQubit, p.twoQubitGates, WindowSize(TwoQubit, p), better, ms);
    ReadoutAntitone(p, better, ms);
    EspFromFactors(p, better, ms);
  }

  // ---- what the estimate is ----

  lemma SortedSplit(values: seq<real>, n: nat)
    requires n <= |values|
    ensures |Sort(values)| == |values|
    ensures multiset(values) == multiset(Sort(values)[..n]) + multiset(Sort(values)[n..])
    ensures forall x, y :: x in Sort(values)[..n] && y in Sort(values)[n..] ==> x <= y
  {
    SortCorrect(values);
    var s := Sort(values);
    assert s == s[..n] + s[n..];
  }

  /** The mean error is that of a window of k: the best values and, where there are too few, the default. */
  lemma MeanOfBest(values: seq<real>, k: nat, d: real) returns (best: seq<real>, rest: seq<real>)
    requires k > 0
    ensures multiset(values) == multiset(best) + multiset(rest) && |best| == (if k <= |values| then k else |values|)
    ensures forall x, y :: x in best && y in rest ==> x <= y
    ensures MeanBest(values, k, d) == SumOf(best + seq(k - |best|, i => d)) / k as real
  {
    var s, n := Sort(values), if k <= |values| then k else |values|;
    SortedSplit(values, n);
    best, rest := s[..n], s[n..];
    FillSumIsSum(s, k, d);
    assert Filled(s, k, d) == best + seq(k - |best|, i => d);
  }

  lemma PowMore(b: real, n: nat)
    ensures Pow(b, n + 1) == Pow(b, n) * b
  {
  }

  lemma SurvivalMore(gates: nat, error: real)
    ensures Survival(gates + 1, error) == Survival(gates, error) * (1.0 - error)
  {
    PowMore(1.0 - error, gates);
  }

  /** An empty circuit always succeeds. */
  lemma NothingFails(p: CircuitProfile, ms: seq<Metric>)
    requires p.oneQubitGates <= 0 && p.twoQubitGates <= 0 && p.measuredQubits <= 0
    ensures ESP(p, ms) == 1.0
  {
  }

  lemma GateFactorMore(c: ErrorClass, gates: nat, k: nat, ms: seq<Metric>)
    requires k > 0
    ensures GateFactor(c, gates + 1, k, ms)
            == GateFactor(c, gates, k, ms) * (1.0 - MeanBest(ValuesOf(c, ms), k, DefaultError(c)))
  {
    SurvivalMore(gates, MeanBest(ValuesOf(c, ms), k, DefaultError(c)));
  }

  lemma ReadoutIsFillProd(p: CircuitProfile, ms: seq<Metric>)
    requires p.measuredQubits >= 0
    ensures ReadoutFactor(p, ms) == FillProd(Sort(ValuesOf(Readout, ms)), p.measuredQubits, DEFAULT_READOUT_ERROR)
  {
  }

  /** One more one-qubit gate multiplies its factor by one minus the mean error of the best values, one per qubit. */
  lemma OneQubitGateMore(p: CircuitProfile, ms: seq<Metric>)
    requires p.oneQubitGates >= 0
    ensures var q := p.(oneQubitGates := p.oneQubitGates + 1);
            && Factor(OneQubit, q, ms)
               == Factor(OneQubit, p, ms)
                  * (1.0 - MeanBest(ValuesOf(OneQubit, ms), if p.qubits > 1 then p.qubits else 1, 0.01))
            && Factor(TwoQubit, q, ms) == Factor(TwoQubit, p, ms) && Factor(Readout, q, ms) == Factor(Readout, p, ms)
  {
    GateFactorMore(OneQubit, p.oneQubitGates, if p.qubits > 1 then p.qubits else 1, ms);
  }

  /** A two-qubit gate looks at one value fewer than there are qubits, at least one. */
  lemma TwoQubitGateMore(p: CircuitProfile, ms: seq<Metric>)
    requires p.twoQubitGates >= 0
    ensures var q := p.(twoQubitGates := p.twoQubitGates + 1);
            && Factor(TwoQubit, q, ms)
               == Factor(TwoQubit, p, ms)
                  * (1.0 - MeanBest(ValuesOf(TwoQubit, ms), if p.qubits > 2 then p.qubits - 1 else 1, 0.05))
            && Factor(OneQubit, q, ms) == Factor(OneQubit, p, ms) && Factor(Readout, q, ms) == Factor(Readout, p, ms)
  {
    GateFactorMore(TwoQubit, p.twoQubitGates, if p.qubits > 2 then p.qubits - 1 else 1, ms);
  }

  /** One more measured qubit multiplies the readout factor by one minus the next best readout error. */
  lemma MeasuredQubitMore(p: CircuitProfile, ms: seq<Metric>, k: nat, ro: seq<real>, next: real)
    requires p.measuredQubits == k && ro == Sort(ValuesOf(Readout, ms)) && next == if k < |ro| then ro[k] else 0.05
    ensures ReadoutFactor(p.(measuredQubits := k + 1), ms) == ReadoutFactor(p, ms) * (1.0 - next)
  {
    FillProdMore(ro, k, 0.05, next);
    ReadoutIsFillProd(p, ms);
    ReadoutIsFillProd(p.(measuredQubits := k + 1), ms);
  }

  lemma MeasuringLeavesGates(p: CircuitProfile, ms: seq<Metric>, k: int)
    ensures OneQubitFactor(p.(measuredQubits := k), ms) == OneQubitFactor(p, ms)
    ensures TwoQubitFactor(p.(measuredQubits := k), ms) == TwoQubitFactor(p, ms)
  {
  }

  // ---- adding a measurement ----

  lemma SortAppend(s: seq<real>, v: real)
    ensures Sort(s + [v]) == Insert(v, Sort(s))
  {
    SortCorrect(s + [v]);
    SortCorrect(s);
    InsertSorts(v, Sort(s));
    SortedUnique(Sort(s + [v]), Insert(v, Sort(s)));
  }

  /**
   A new measurement never raises the mean of the k best, exactly when the class already fills the
   window or the value is no worse than the default it displaces.
   */
  lemma MeanBestAfterMeasurement(values: seq<real>, v: real, k: nat, d: real)
    requires k > 0
    ensures MeanBest(values + [v], k, d) <= MeanBest(values, k, d) <==> |values| >= k || v <= d
  {
    var s := Sort(values);
    SortAppend(values, v);
    SortCorrect(values);
    FillSumInsert(v, s, k, d);
    if |values| >= k || v <= d {
      DivideMonotone(FillSum(Insert(v, s), k, d), FillSum(s, k, d), k as real);
    } else {
      DivideMonotone(FillSum(s, k, d), FillSum(Insert(v, s), k, d), k as real);
    }
  }

  /** Whether the estimate looks at a class at all. */
  predicate Uses(p: CircuitProfile, c: ErrorClass) {
    match c
    case OneQubit => p.oneQubitGates > 0
    case TwoQubit => p.twoQubitGates > 0
    case Readout => p.measuredQubits > 0
  }

  function Factor(c: ErrorClass, p: CircuitProfile, ms: seq<Metric>): real {
    match c
    case OneQubit => OneQubitFactor(p, ms)
    case TwoQubit => TwoQubitFactor(p, ms)
    case Readout => ReadoutFactor(p, ms)
  }

  /**
   A measurement m of class c cannot hurt: the circuit does not use the class, the window the estimate looks at is full
   already, or the value is no worse than the default it displaces.
   */
  predicate Harmless(c: ErrorClass, p: CircuitProfile, ms: seq<Metric>, m: Metric) {
    !Uses(p, c) || |ValuesOf(c, ms)| >= WindowSize(c, p) || m.value <= DefaultError(c)
  }

  lemma GateAfterMeasurement(c: ErrorClass, gates: int, k: nat, ms: seq<Metric>, m: Metric)
    requires ValidErrors(ms) && ValidErrors(ms + [m]) && k > 0 && gates > 0 && Matches(c, m.name)
    ensures if |ValuesOf(c, ms)| >= k || m.value <= DefaultError(c)
            then GateFactor(c, gates, k, ms) <= GateFactor(c, gates, k, ms + [m])
            else GateFactor(c, gates, k, ms + [m]) < GateFactor(c, gates, k, ms)
  {
    var values, d := ValuesOf(c, ms), DefaultError(c);
    ValuesAppend(c, ms, m);
    MeanBestAfterMeasurement(values, m.value, k, d);
    if |values| >= k || m.value <= d {
      GateFactorFromMeans(c, gates, k, ms + [m], ms);
    } else {
      ValuesWithin(c, ms);
      ValuesWithin(c, ms + [m]);
      MeanBestBounds(values, k, d);
      MeanBestBounds(values + [m.value], k, d);
      SurvivalStrict(gates, MeanBest(values, k, d), MeanBest(values + [m.value], k, d));
    }
  }

  lemma ReadoutAfterMeasurement(p: CircuitProfile, ms: seq<Metric>, m: Metric)
    requires ValidErrors(ms) && ValidErrors(ms + [m]) && p.measuredQubits > 0 && Matches(Readout, m.name)
    ensures if Harmless(Readout, p, ms, m) then ReadoutFactor(p, ms) <= ReadoutFactor(p, ms + [m])
            else ReadoutFactor(p, ms) == 0.0 || ReadoutFactor(p, ms + [m]) < ReadoutFactor(p, ms)
  {
    var values, k := ValuesOf(Readout, ms), p.measuredQubits;
    var s := Sort(values);
    ValuesAppend(Readout, ms, m);
    ValuesWithin(Readout, ms);
    SortWithin(values, 0.0, 1.0);
    SortCorrect(values);
    SortAppend(values, m.value);
    assert (ms + [m])[|ms|] == m;
    if Harmless(Readout, p, ms, m) {
      FillProdInsert(m.value, s, k, DEFAULT_READOUT_ERROR);
    } else {
      FillProdWorse(m.value, s, k, DEFAULT_READOUT_ERROR);
    }
  }

  /** The effect of one more measurement on the factor of its class; the other factors stay. */
  lemma FactorAfterMeasurement(c: ErrorClass, p: CircuitProfile, ms: seq<Metric>, m: Metric)
    requires ValidErrors(ms) && ValidErrors(ms + [m])
    ensures !Matches(c, m.name) ==> Factor(c, p, ms + [m]) == Factor(c, p, ms)
    ensures Matches(c, m.name) && Harmless(c, p, ms, m) ==> Factor(c, p, ms) <= Factor(c, p, ms + [m])
    ensures Matches(c, m.name) && !Harmless(c, p, ms, m) ==>
              Factor(c, p, ms) == 0.0 || Factor(c, p, ms + [m]) < Factor(c, p, ms)
  {
    ValuesAppend(c, ms, m);
    if Matches(c, m.name) && Uses(p, c) {
      match c
      case OneQubit => GateAfterMeasurement(c, p.oneQubitGates, WindowSize(c, p), ms, m);
      case TwoQubit => GateAfterMeasurement(c, p.twoQubitGates, WindowSize(c, p), ms, m);
      case Readout => ReadoutAfterMeasurement(p, ms, m);
    }
  }

  /** A metric name belongs to at most one class. */
  lemma OneClass(c: ErrorClass, d: ErrorClass, name: string)
    requires Matches(c, name) && Matches(d, name)
    ensures c == d
  {
    assert Matches(OneQubit, name) ==> name[5] == '1';
    assert Matches(TwoQubit, name) ==> name[0] == 'g' && name[5] == "gate.2q."[5];
    assert Matches(Readout, name) ==> name[0] == 'r';
  }

  /** Lowering one of three positive factors lowers the product. */
  lemma ProductStrict(a: real, a': real, b: real, c: real)
    requires 0.0 <= a' < a && 0.0 < b && 0.0 < c
    ensures a' * b * c < a * b * c && b * a' * c < b * a * c && b * c * a' < b * c * a
  {
    MulStrict(a', a, b);
    MulStrict(a' * b, a * b, c);
    MulStrict(0.0, b, c);
    MulStrict(a', a, b * c);
  }

  lemma NonZeroProduct(a: real, b: real, c: real)
    requires a * b * c != 0.0
    ensures a != 0.0 && b != 0.0 && c != 0.0
  {
  }

  lemma PositiveFactors(p: CircuitProfile, ms: seq<Metric>)
    requires ValidErrors(ms) && ESP(p, ms) != 0.0
    ensures Factor(OneQubit, p, ms) > 0.0 && Factor(TwoQubit, p, ms) > 0.0 && Factor(Readout, p, ms) > 0.0
  {
    FactorBounds(p, ms);
    NonZeroProduct(OneQubitFactor(p, ms), TwoQubitFactor(p, ms), ReadoutFactor(p, ms));
  }

  lemma OneLower(f1: real, f2: real, fr: real, g1: real, g2: real, gr: real)
    requires f1 > 0.0 && f2 > 0.0 && fr > 0.0
    requires || (0.0 <= g1 < f1 && g2 == f2 && gr == fr)
             || (g1 == f1 && 0.0 <= g2 < f2 && gr == fr)
             || (g1 == f1 && g2 == f2 && 0.0 <= gr < fr)
    ensures g1 * g2 * gr < f1 * f2 * fr
  {
    if g1 < f1 {
      ProductStrict(f1, g1, f2, fr);
    } else if g2 < f2 {
      ProductStrict(f2, g2, f1, fr);
    } else {
      ProductStrict(fr, gr, f1, f2);
    }
  }

  /** A harmful measurement lowers an estimate that is not zero already. */
  lemma HarmfulMeasurement(c: ErrorClass, p: CircuitProfile, ms: seq<Metric>, m: Metric)
    requires ValidErrors(ms) && ValidErrors(ms + [m]) && ESP(p, ms) != 0.0
    requires Matches(c, m.name) && !Harmless(c, p, ms, m)
    ensures ESP(p, ms + [m]) < ESP(p, ms)
  {
    PositiveFactors(p, ms);
    FactorBounds(p, ms + [m]);
    FactorAfterMeasurement(c, p, ms, m);
    forall d | d != c ensures Factor(d, p, ms + [m]) == Factor(d, p, ms) {
      if Matches(d, m.name) {
        OneClass(c, d, m.name);
      }
      FactorAfterMeasurement(d, p, ms, m);
    }
    LowerFactorLowersEsp(c, p, ms, ms + [m]);
  }

  lemma LowerFactorLowersEsp(c: ErrorClass, p: CircuitProfile, ms: seq<Metric>, ns: seq<Metric>)
    requires Factor(OneQubit, p, ms) > 0.0 && Factor(TwoQubit, p, ms) > 0.0 && Factor(Readout, p, ms) > 0.0
    requires 0.0 <= Factor(c, p, ns) < Factor(c, p, ms)
    requires forall d :: d != c ==> Factor(d, p, ns) == Factor(d, p, ms)
    ensures ESP(p, ns) < ESP(p, ms)
  {
    EspIsProduct(p, ms);
    EspIsProduct(p, ns);
    OneLower(Factor(OneQubit, p, ms), Factor(TwoQubit, p, ms), Factor(Readout, p, ms),
             Factor(OneQubit, p, ns), Factor(TwoQubit, p, ns), Factor(Readout, p, ns));
  }

  lemma EspIsProduct(p: CircuitProfile, ms: seq<Metric>)
    ensures ESP(p, ms) == Factor(OneQubit, p, ms) * Factor(TwoQubit, p, ms) * Factor(Readout, p, ms)
  {
  }

  /**
   When a measured target is not outranked by the same target unmeasured: adding a measurement keeps ESP from falling if
   and only if the estimate is zero already or the measurement is harmless in its class.
   */
  lemma EspAfterMeasurement(p: CircuitProfile, ms: seq<Metric>, m: Metric)
    requires ValidErrors(ms) && ValidErrors(ms + [m])
    ensures ESP(p, ms) <= ESP(p, ms + [m]) <==>
              ESP(p, ms) == 0.0 || forall c :: Matches(c, m.name) ==> Harmless(c, p, ms, m)
  {
    if ESP(p, ms) == 0.0 {
      EspIsProbability(p, ms + [m]);
    } else if c :| Matches(c, m.name) && !Harmless(c, p, ms, m) {
      HarmfulMeasurement(c, p, ms, m);
    } else {
      FactorAfterMeasurement(OneQubit, p, ms, m);
      FactorAfterMeasurement(TwoQubit, p, ms, m);
      FactorAfterMeasurement(Readout, p, ms, m);
      EspFromFactors(p, ms + [m], ms);
    }
  }

  /** Measured values no worse than the class defaults: such a target is never outranked by one without measurements. */
  lemma {:induction false} OpaqueNeverOutranks(p: CircuitProfile, ms: seq<Metric>)
    requires ValidErrors(ms)
    requires forall i, c :: 0 <= i < |ms| && Matches(c, ms[i].name) ==> ms[i].value <= DefaultError(c)
    ensures ESP(p, []) <= ESP(p, ms)
  {
    if ms != [] {
      var rest, last := ms[..|ms| - 1], ms[|ms| - 1];
      assert ms == rest + [last];
      OpaqueNeverOutranks(p, rest);
      EspAfterMeasurement(p, rest, last);
    }
  }

  /** One two-qubit gate: a measured error above the default scores below an unmeasured target. */
  lemma MeasurementCanLowerEsp(m: Metric)
    requires Matches(TwoQubit, m.name) && DEFAULT_TWO_QUBIT_ERROR < m.value <= 1.0
    ensures ESP(CircuitProfile(2, 0, 1, 0), [m]) < ESP(CircuitProfile(2, 0, 1, 0), [])
  {
    var p := CircuitProfile(2, 0, 1, 0);
    ValuesAppend(TwoQubit, [], m);
    assert [] + [m] == [m];
    MeanBestAfterMeasurement([], m.value, 1, DEFAULT_TWO_QUBIT_ERROR);
    assert [] + [m.value] == [m.value];
    OneGate(TwoQubit, [m]);
    OneGate(TwoQubit, []);
  }

  lemma OneGate(c: ErrorClass, ms: seq<Metric>)
    ensures GateFactor(c, 1, 1, ms) == 1.0 - MeanBest(ValuesOf(c, ms), 1, DefaultError(c))
  {
    OneFactor(1.0 - MeanBest(ValuesOf(c, ms), 1, DefaultError(c)));
  }

  lemma OneFactor(q: real)
    ensures Pow(q, 1) == q
  {
    assert Pow(q, 1) == q * Pow(q, 0);
  }
}
