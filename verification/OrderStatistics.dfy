/**
 Sorted views of error metrics. Every quality rule of the scheduler looks at a snapshot through
 its order statistics: the k best values (ESP) or the first, middle or last value (quality floors).
 */
module OrderStatistics {

  function Insert(x: real, s: seq<real>): (r: seq<real>)
    ensures |r| == |s| + 1
  {
    if s == [] then [x]
    else if x <= s[0] then [x] + s
    else [s[0]] + Insert(x, s[1..])
  }

  /** The ascending order the scheduler obtains from `sort.Float64s`. */
  function Sort(s: seq<real>): (r: seq<real>)
    ensures |r| == |s|
  {
    if s == [] then [] else Insert(s[0], Sort(s[1..]))
  }

  ghost predicate Sorted(s: seq<real>) {
    forall i, j :: 0 <= i < j < |s| ==> s[i] <= s[j]
  }

  ghost predicate Below(s: seq<real>, t: seq<real>) {
    |s| == |t| && forall i :: 0 <= i < |s| ==> s[i] <= t[i]
  }

  ghost predicate Within(s: seq<real>, lo: real, hi: real) {
    forall i :: 0 <= i < |s| ==> lo <= s[i] <= hi
  }

  lemma {:induction false} InsertKeepsElements(x: real, s: seq<real>)
    ensures multiset(Insert(x, s)) == multiset(s) + multiset{x}
  {
    if s != [] && x > s[0] {
      InsertKeepsElements(x, s[1..]);
      assert s == [s[0]] + s[1..];
    }
  }

  lemma {:induction false} InsertKeepsFloor(x: real, s: seq<real>, lo: real)
    requires lo <= x && forall i :: 0 <= i < |s| ==> lo <= s[i]
    ensures forall i :: 0 <= i < |Insert(x, s)| ==> lo <= Insert(x, s)[i]
    decreases |s|
  {
    if s != [] && x > s[0] {
      InsertKeepsFloor(x, s[1..], lo);
    }
  }

  lemma InsertSorts(x: real, s: seq<real>)
    requires Sorted(s)
    ensures Sorted(Insert(x, s))
    ensures multiset(Insert(x, s)) == multiset(s) + multiset{x}
  {
    InsertKeepsElements(x, s);
    InsertKeepsOrder(x, s);
  }

  lemma {:induction false} InsertKeepsOrder(x: real, s: seq<real>)
    requires Sorted(s)
    ensures Sorted(Insert(x, s))
    decreases |s|
  {
    if s != [] && x > s[0] {
      InsertKeepsOrder(x, s[1..]);
      InsertKeepsFloor(x, s[1..], s[0]);
      PrependLeast(s[0], Insert(x, s[1..]));
    }
  }

  lemma PrependLeast(x: real, s: seq<real>)
    requires Sorted(s) && forall i :: 0 <= i < |s| ==> x <= s[i]
    ensures Sorted([x] + s)
  {
  }

  /** `Sort` is a sorted permutation: this determines it uniquely (see `SortedUnique`). */
  lemma {:induction false} SortCorrect(s: seq<real>)
    ensures Sorted(Sort(s))
    ensures multiset(Sort(s)) == multiset(s)
  {
    if s != [] {
      SortCorrect(s[1..]);
      InsertSorts(s[0], Sort(s[1..]));
      assert s == [s[0]] + s[1..];
    }
  }

  lemma SortedHeadIsLeast(s: seq<real>, x: real)
    requires Sorted(s) && x in multiset(s)
    ensures s[0] <= x
  {
    var i :| 0 <= i < |s| && s[i] == x;
  }

  lemma SortedHeadsAgree(s: seq<real>, t: seq<real>)
    requires Sorted(s) && Sorted(t) && multiset(s) == multiset(t) && s != []
    ensures t != [] && s[0] == t[0] && multiset(s[1..]) == multiset(t[1..])
  {
    assert |t| == |multiset(t)| == |multiset(s)| == |s|;
    SortedHeadIsLeast(s, t[0]);
    SortedHeadIsLeast(t, s[0]);
    assert s == [s[0]] + s[1..] && t == [t[0]] + t[1..];
    assert multiset(s[1..]) == multiset(s) - multiset{s[0]};
    assert multiset(t[1..]) == multiset(t) - multiset{t[0]};
  }

  lemma {:induction false} SortedUnique(s: seq<real>, t: seq<real>)
    requires Sorted(s) && Sorted(t) && multiset(s) == multiset(t)
    ensures s == t
  {
    if s == [] {
      assert |t| == |multiset(t)| == |multiset(s)| == 0;
    } else {
      SortedHeadsAgree(s, t);
      SortedUnique(s[1..], t[1..]);
      assert s == [s[0]] + s[1..] && t == [t[0]] + t[1..];
    }
  }

  /** The order in which a snapshot lists its metrics is irrelevant. */
  lemma SortForgetsOrder(s: seq<real>, t: seq<real>)
    requires multiset(s) == multiset(t)
    ensures Sort(s) == Sort(t)
  {
    SortCorrect(s);
    SortCorrect(t);
    SortedUnique(Sort(s), Sort(t));
  }

  lemma {:induction false} InsertMonotone(x: real, s: seq<real>, y: real, t: seq<real>)
    requires x <= y && Below(s, t) && Sorted(s) && Sorted(t)
    ensures Below(Insert(x, s), Insert(y, t))
    decreases |s|
  {
    if s != [] {
      if x > s[0] {
        if y <= t[0] {
          // s[0] < x <= y <= t[0]: the rest of s, with x, stays below t.
          InsertBelow(x, s[1..], t);
        } else {
          InsertMonotone(x, s[1..], y, t[1..]);
        }
      } else if y > t[0] {
        InsertAbove(y, t[1..], s);
      }
    }
  }

  lemma {:induction false} InsertBelow(x: real, s: seq<real>, t: seq<real>)
    requires Sorted(s) && Sorted(t) && |t| == |s| + 1 && x <= t[0]
    requires forall i :: 0 <= i < |s| ==> s[i] <= t[i + 1]
    ensures Below(Insert(x, s), t)
    decreases |s|
  {
    if s != [] && x > s[0] {
      InsertBelow(x, s[1..], t[1..]);
    }
  }

  lemma {:induction false} InsertAbove(y: real, t: seq<real>, s: seq<real>)
    requires Sorted(s) && Sorted(t) && |s| == |t| + 1
    requires s[0] <= y && forall i :: 0 <= i < |t| ==> s[i + 1] <= t[i]
    ensures Below(s, Insert(y, t))
    decreases |t|
  {
    if t != [] && y > t[0] {
      InsertAbove(y, t[1..], s[1..]);
    }
  }

  /** Order statistics are monotone: improving any values improves every rank. */
  lemma {:induction false} SortMonotone(s: seq<real>, t: seq<real>)
    requires Below(s, t)
    ensures Below(Sort(s), Sort(t))
  {
    if s != [] {
      SortMonotone(s[1..], t[1..]);
      SortCorrect(s[1..]);
      SortCorrect(t[1..]);
      InsertMonotone(s[0], Sort(s[1..]), t[0], Sort(t[1..]));
    }
  }

  lemma SortWithin(s: seq<real>, lo: real, hi: real)
    requires Within(s, lo, hi)
    ensures Within(Sort(s), lo, hi)
  {
    SortCorrect(s);
    var r := Sort(s);
    forall i | 0 <= i < |r| ensures lo <= r[i] <= hi {
      assert r[i] in multiset(r);
      assert r[i] in multiset(s);
    }
  }

  // ---- the k best values, missing ones filled with a default ----

  function Tail(s: seq<real>, i: nat): seq<real> {
    if i <= |s| then s[i..] else []
  }

  function HeadOr(s: seq<real>, d: real): real {
    if s == [] then d else s[0]
  }

  function FillSum(s: seq<real>, k: nat, d: real): real {
    if k == 0 then 0.0 else HeadOr(s, d) + FillSum(Tail(s, 1), k - 1, d)
  }

  function FillProd(s: seq<real>, k: nat, d: real): real {
    if k == 0 then 1.0 else (1.0 - HeadOr(s, d)) * FillProd(Tail(s, 1), k - 1, d)
  }

  function SumOf(s: seq<real>): real {
    if s == [] then 0.0 else s[0] + SumOf(s[1..])
  }

  /** The first k values, a default for each missing one. */
  function Filled(s: seq<real>, k: nat, d: real): seq<real> {
    seq(k, i requires 0 <= i < k => if i < |s| then s[i] else d)
  }

  lemma {:induction false} FillSumIsSum(s: seq<real>, k: nat, d: real)
    ensures FillSum(s, k, d) == SumOf(Filled(s, k, d))
  {
    if k > 0 {
      FillSumIsSum(Tail(s, 1), k - 1, d);
      assert Filled(s, k, d)[1..] == Filled(Tail(s, 1), k - 1, d);
    }
  }

  /** One more factor: the next value, or the default when there is none. */
  lemma {:induction false} FillProdMore(s: seq<real>, k: nat, d: real, next: real)
    requires next == if k < |s| then s[k] else d
    ensures FillProd(s, k + 1, d) == FillProd(s, k, d) * (1.0 - next)
  {
    if k > 0 {
      var rest := Tail(s, 1);
      FillProdMore(rest, k - 1, d, next);
      Associate(1.0 - HeadOr(s, d), FillProd(rest, k - 1, d), 1.0 - next);
    } else {
      OneFactor(s, d);
    }
  }

  lemma OneFactor(s: seq<real>, d: real)
    ensures FillProd(s, 1, d) == 1.0 - HeadOr(s, d) && FillProd(s, 0, d) == 1.0
  {
    assert FillProd(Tail(s, 1), 0, d) == 1.0;
  }

  lemma Associate(a: real, b: real, c: real)
    ensures a * (b * c) == a * b * c
  {
  }

  lemma {:induction false} FillSumBounds(s: seq<real>, k: nat, d: real)
    requires Within(s, 0.0, 1.0) && 0.0 <= d <= 1.0
    ensures 0.0 <= FillSum(s, k, d) <= k as real
  {
    if k > 0 {
      FillSumBounds(Tail(s, 1), k - 1, d);
    }
  }

  lemma {:induction false} FillProdBounds(s: seq<real>, k: nat, d: real)
    requires Within(s, 0.0, 1.0) && 0.0 <= d <= 1.0
    ensures 0.0 <= FillProd(s, k, d) <= 1.0
  {
    if k > 0 {
      FillProdBounds(Tail(s, 1), k - 1, d);
      MulWithin(1.0 - HeadOr(s, d), FillProd(Tail(s, 1), k - 1, d));
    }
  }

  lemma {:induction false} FillSumMonotone(s: seq<real>, t: seq<real>, k: nat, d: real)
    requires Below(s, t)
    ensures FillSum(s, k, d) <= FillSum(t, k, d)
  {
    if k > 0 {
      FillSumMonotone(Tail(s, 1), Tail(t, 1), k - 1, d);
    }
  }

  lemma {:induction false} FillProdAntitone(s: seq<real>, t: seq<real>, k: nat, d: real)
    requires Below(s, t) && Within(s, 0.0, 1.0) && Within(t, 0.0, 1.0) && 0.0 <= d <= 1.0
    ensures FillProd(t, k, d) <= FillProd(s, k, d)
  {
    if k > 0 {
      var s', t' := Tail(s, 1), Tail(t, 1);
      FillProdAntitone(s', t', k - 1, d);
      FillProdBounds(t', k - 1, d);
      MulMonotone(1.0 - HeadOr(t, d), 1.0 - HeadOr(s, d), FillProd(t', k - 1, d), FillProd(s', k - 1, d));
    }
  }

  /** One more sorted value: the k best sum can only rise when a default is displaced by a worse value. */
  lemma {:induction false} FillSumInsert(v: real, s: seq<real>, k: nat, d: real)
    requires Sorted(s)
    ensures |s| >= k || v <= d ==> FillSum(Insert(v, s), k, d) <= FillSum(s, k, d)
    ensures |s| < k && v > d ==> FillSum(Insert(v, s), k, d) > FillSum(s, k, d)
  {
    if k > 0 {
      if s == [] {
        assert Tail([v], 1) == [] == Tail(s, 1);
      } else if v <= s[0] {
        assert Tail([v] + s, 1) == s;
        FillSumShift(v, s, k, d);
      } else {
        assert Tail(Insert(v, s), 1) == Insert(v, s[1..]);
        FillSumInsert(v, s[1..], k - 1, d);
      }
    }
  }

  /** Prepending v to s drops the k-th filled value of s. */
  lemma {:induction false} FillSumShift(v: real, s: seq<real>, k: nat, d: real)
    requires k > 0
    requires Sorted(s) && s != [] && v <= s[0]
    ensures |s| >= k ==> v + FillSum(s, k - 1, d) <= FillSum(s, k, d)
    ensures |s| < k ==> v + FillSum(s, k - 1, d) == FillSum(s, k, d) + v - d
    decreases k
  {
    if k > 1 {
      if |s| == 1 {
        FillSumEmpty(k - 1, d);
        FillSumEmpty(k - 2, d);
      } else {
        FillSumShift(s[0], s[1..], k - 1, d);
      }
    }
  }

  lemma {:induction false} FillSumEmpty(k: nat, d: real)
    ensures FillSum([], k, d) == k as real * d
  {
    if k > 0 {
      FillSumEmpty(k - 1, d);
    }
  }

  lemma {:induction false} FillProdInsert(v: real, s: seq<real>, k: nat, d: real)
    requires Sorted(s) && Within(s, 0.0, 1.0) && 0.0 <= v <= 1.0 && 0.0 <= d <= 1.0
    requires |s| >= k || v <= d
    ensures FillProd(Insert(v, s), k, d) >= FillProd(s, k, d)
  {
    if k > 0 {
      if s == [] || v <= s[0] {
        FillProdFront(v, s, k, d);
      } else {
        FillProdInsert(v, s[1..], k - 1, d);
        FillProdBounds(s[1..], k - 1, d);
        FillProdBehind(v, s, k, d);
      }
    }
  }

  lemma FillProdFront(v: real, s: seq<real>, k: nat, d: real)
    requires Sorted(s) && Within(s, 0.0, 1.0) && 0.0 <= v <= 1.0 && 0.0 <= d <= 1.0
    requires k > 0 && (|s| >= k || v <= d) && (s == [] || v <= s[0])
    ensures FillProd(Insert(v, s), k, d) >= FillProd(s, k, d)
  {
    assert Insert(v, s) == [v] + s;
    assert Tail([v] + s, 1) == s;
    if |s| >= k {
      FillProdShift(v, s, k, d);
    } else {
      FillProdDisplace(v, s, k, d);
    }
  }

  lemma FillProdBehind(v: real, s: seq<real>, k: nat, d: real)
    requires k > 0 && s != [] && v > s[0] && 0.0 <= s[0] <= 1.0
    requires 0.0 <= FillProd(s[1..], k - 1, d) <= FillProd(Insert(v, s[1..]), k - 1, d)
    ensures FillProd(Insert(v, s), k, d) >= FillProd(s, k, d)
  {
    assert Tail(Insert(v, s), 1) == Insert(v, s[1..]);
    MulMonotone(1.0 - s[0], 1.0 - s[0], FillProd(s[1..], k - 1, d), FillProd(Insert(v, s[1..]), k - 1, d));
  }

  lemma {:induction false} FillProdShift(v: real, s: seq<real>, k: nat, d: real)
    requires 0 < k <= |s| && Sorted(s) && Within(s, 0.0, 1.0) && 0.0 <= v <= s[0] && 0.0 <= d <= 1.0
    ensures (1.0 - v) * FillProd(s, k - 1, d) >= FillProd(s, k, d)
    decreases k
  {
    FillProdBounds(s[1..], k - 1, d);
    if k > 1 {
      FillProdShift(s[0], s[1..], k - 1, d);
    }
    FillProdSwap(v, s, k, d);
  }

  /** One step of the shift: the head takes the place of v. */
  lemma FillProdSwap(v: real, s: seq<real>, k: nat, d: real)
    requires 0 < k <= |s| && 0.0 <= v <= s[0] <= 1.0
    requires 0.0 <= FillProd(s[1..], k - 1, d)
    requires k > 1 ==> (1.0 - s[0]) * FillProd(s[1..], k - 2, d) >= FillProd(s[1..], k - 1, d)
    ensures (1.0 - v) * FillProd(s, k - 1, d) >= FillProd(s, k, d)
  {
    if k > 1 {
      MulMonotone(1.0 - s[0], 1.0 - v, FillProd(s[1..], k - 1, d), (1.0 - s[0]) * FillProd(s[1..], k - 2, d));
    }
  }

  /** With fewer than k values, dropping the last default factors the product exactly. */
  lemma {:induction false} FillProdDisplace(v: real, s: seq<real>, k: nat, d: real)
    requires |s| < k && Within(s, 0.0, 1.0) && 0.0 <= v <= d <= 1.0
    ensures FillProd(s, k, d) == (1.0 - d) * FillProd(s, k - 1, d)
    ensures (1.0 - v) * FillProd(s, k - 1, d) >= FillProd(s, k, d)
  {
    FillProdDropDefault(s, k, d);
    FillProdBounds(s, k - 1, d);
    MulMonotone(1.0 - d, 1.0 - v, FillProd(s, k - 1, d), FillProd(s, k - 1, d));
  }

  lemma {:induction false} FillProdDropDefault(s: seq<real>, k: nat, d: real)
    requires |s| < k
    ensures FillProd(s, k, d) == (1.0 - d) * FillProd(s, k - 1, d)
  {
    if s != [] {
      FillProdDropDefault(s[1..], k - 1, d);
      MulSwap(1.0 - s[0], 1.0 - d, FillProd(s[1..], k - 2, d));
    }
  }

  /** With fewer than k values, a new value takes the place of a default. */
  lemma {:induction false} FillProdReplace(v: real, s: seq<real>, k: nat, d: real)
    requires |s| < k
    ensures FillProd(Insert(v, s), k, d) == (1.0 - v) * FillProd(s, k - 1, d)
  {
    if s == [] || v <= s[0] {
      ReplaceFront(v, s, k, d);
    } else {
      FillProdReplace(v, s[1..], k - 1, d);
      ReplaceBehind(v, s, k, d);
    }
  }

  lemma ReplaceFront(v: real, s: seq<real>, k: nat, d: real)
    requires k > 0 && (s == [] || v <= s[0])
    ensures FillProd(Insert(v, s), k, d) == (1.0 - v) * FillProd(s, k - 1, d)
  {
    assert Insert(v, s)[1..] == s;
    FillProdStep(Insert(v, s), k, d);
  }

  lemma ReplaceBehind(v: real, s: seq<real>, k: nat, d: real)
    requires k > 1 && s != [] && v > s[0]
    requires FillProd(Insert(v, s[1..]), k - 1, d) == (1.0 - v) * FillProd(s[1..], k - 2, d)
    ensures FillProd(Insert(v, s), k, d) == (1.0 - v) * FillProd(s, k - 1, d)
  {
    assert Insert(v, s)[1..] == Insert(v, s[1..]) && Insert(v, s)[0] == s[0];
    FillProdStep(Insert(v, s), k, d);
    FillProdStep(s, k - 1, d);
    MulSwap(1.0 - s[0], 1.0 - v, FillProd(s[1..], k - 2, d));
  }

  lemma FillProdStep(s: seq<real>, k: nat, d: real)
    requires s != [] && k > 0
    ensures FillProd(s, k, d) == (1.0 - s[0]) * FillProd(s[1..], k - 1, d)
  {
  }

  /** Displacing a default by a worse value lowers a product that is not zero. */
  lemma FillProdWorse(v: real, s: seq<real>, k: nat, d: real)
    requires |s| < k && Within(s, 0.0, 1.0) && 0.0 <= d < v <= 1.0
    ensures FillProd(s, k, d) == 0.0 || FillProd(Insert(v, s), k, d) < FillProd(s, k, d)
  {
    FillProdReplace(v, s, k, d);
    FillProdDropDefault(s, k, d);
    FillProdBounds(s, k - 1, d);
    ScaleStrict(1.0 - v, 1.0 - d, FillProd(s, k - 1, d), FillProd(Insert(v, s), k, d), FillProd(s, k, d));
  }

  // ---- real arithmetic ----

  lemma MulWithin(a: real, b: real)
    requires 0.0 <= a <= 1.0 && 0.0 <= b <= 1.0
    ensures 0.0 <= a * b <= 1.0
  {
    MulMonotone(a, 1.0, b, 1.0);
    MulMonotone(0.0, a, 0.0, b);
  }

  lemma MulMonotone(a: real, a': real, b: real, b': real)
    requires 0.0 <= a <= a' && 0.0 <= b <= b'
    ensures a * b <= a' * b'
  {
    assert a * b <= a' * b by { assert (a' - a) * b >= 0.0; }
    assert a' * b <= a' * b' by { assert a' * (b' - b) >= 0.0; }
  }

  lemma MulSwap(a: real, b: real, p: real)
    ensures a * (b * p) == b * (a * p)
  {
  }

  lemma MulStrict(a: real, a': real, b: real)
    requires a < a' && 0.0 < b
    ensures a * b < a' * b
  {
    assert (a' - a) * b > 0.0;
  }

  lemma ScaleStrict(a: real, b: real, p: real, x: real, y: real)
    requires a < b && 0.0 <= p && x == a * p && y == b * p
    ensures y == 0.0 || x < y
  {
    if p > 0.0 {
      MulStrict(a, b, p);
    }
  }

  lemma DivideBounds(x: real, k: real)
    requires 0.0 <= x <= k && k > 0.0
    ensures 0.0 <= x / k <= 1.0
  {
  }

  lemma DivideMonotone(x: real, y: real, k: real)
    requires x <= y && k > 0.0
    ensures x / k <= y / k
    ensures x < y ==> x / k < y / k
  {
  }

  lemma CrossDivide(a: real, x: real, b: real, y: real)
    requires x > 0.0 && y > 0.0 && a * y <= b * x
    ensures a / x <= b / y
  {
    var u, v, q := a / x, b / y, x * y;
    assert u * q == a * y by { assert u * x == a; assert (u * x) * y == u * (x * y); }
    assert v * q == b * x by { assert v * y == b; assert (v * y) * x == v * (x * y); }
    DivideMonotone(u * q, v * q, q);
    assert (u * q) / q == u && (v * q) / q == v;
  }

  function Pow(b: real, n: nat): real {
    if n == 0 then 1.0 else b * Pow(b, n - 1)
  }

  lemma {:induction false} PowMonotone(a: real, b: real, n: nat)
    requires 0.0 <= a <= b <= 1.0
    ensures 0.0 <= Pow(a, n) <= Pow(b, n) <= 1.0
  {
    if n > 0 {
      PowMonotone(a, b, n - 1);
      MulMonotone(a, b, Pow(a, n - 1), Pow(b, n - 1));
      MulWithin(a, Pow(a, n - 1));
      MulWithin(b, Pow(b, n - 1));
    }
  }

  lemma PowStrict(a: real, b: real, n: nat)
    requires 0.0 <= a < b <= 1.0 && n > 0
    ensures Pow(a, n) < Pow(b, n)
  {
    var x, y := Pow(a, n - 1), Pow(b, n - 1);
    PowPositive(b, n - 1);
    PowMonotone(a, b, n - 1);
    MulMonotone(a, a, x, y);
    MulStrict(a, b, y);
    assert Pow(a, n) == a * x && Pow(b, n) == b * y;
  }

  lemma {:induction false} PowPositive(b: real, n: nat)
    requires 0.0 < b
    ensures Pow(b, n) > 0.0
  {
    if n > 0 {
      PowPositive(b, n - 1);
      MulStrict(0.0, b, Pow(b, n - 1));
    }
  }
}
