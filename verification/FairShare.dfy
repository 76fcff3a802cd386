/** Weighted fair ordering of one cycle's pending jobs (internal/dispatch/fairshare.go). */
module FairShare {
  import opened Common
  import opened OrderStatistics

  datatype Job = Job(id: string, tenant: string)

  type Weights = map<string, int>

  function WeightOf(weights: Weights, tenant: string): (w: int)
    ensures w >= 1
  {
    if tenant in weights && weights[tenant] >= 1 then weights[tenant] else 1
  }

  /** The jobs of one tenant, in order. */
  function Queue(s: seq<Job>, tenant: string): seq<Job> {
    if s == [] then []
    else
      var rest, last := s[..|s| - 1], s[|s| - 1];
      if last.tenant == tenant then Queue(rest, tenant) + [last] else Queue(rest, tenant)
  }

  function Count(s: seq<Job>, tenant: string): nat {
    |Queue(s, tenant)|
  }

  /** How many jobs of the same tenant precede position i. */
  function Rank(s: seq<Job>, i: nat): nat
    requires i < |s|
  {
    Count(s[..i], s[i].tenant)
  }

  /** The virtual finish time of a tenant's job of the given rank. */
  function VirtualTime(weights: Weights, tenant: string, rank: nat): real {
    (rank + 1) as real / WeightOf(weights, tenant) as real
  }

  /** The documented order: virtual time, ties by tenant name, FIFO within a tenant. */
  predicate Earlier(weights: Weights, a: string, m: nat, b: string, n: nat) {
    if a == b then m < n
    else VirtualTime(weights, a, m) < VirtualTime(weights, b, n)
         || (VirtualTime(weights, a, m) == VirtualTime(weights, b, n) && NameLeq(a, b))
  }

  /**
   The order the loop realizes. The empty string doubles as its "nothing picked yet" marker, so a tenant
   named "" loses to every other tenant.
   */
  predicate Picked(weights: Weights, a: string, m: nat, b: string, n: nat) {
    if a == b then m < n
    else if a == "" then false
    else if b == "" then true
    else Earlier(weights, a, m, b, n)
  }

  ghost predicate SortedBy(order: (Weights, string, nat, string, nat) -> bool, weights: Weights, s: seq<Job>) {
    forall i, k :: 0 <= i < k < |s| ==> order(weights, s[i].tenant, Rank(s, i), s[k].tenant, Rank(s, k))
  }

  // ---- queues ----

  lemma QueueAppend(s: seq<Job>, j: Job, tenant: string)
    ensures Queue(s + [j], tenant) == if j.tenant == tenant then Queue(s, tenant) + [j] else Queue(s, tenant)
  {
    assert (s + [j])[..|s|] == s;
  }

  lemma {:induction false} QueuePrefix(s: seq<Job>, i: nat, tenant: string)
    requires i <= |s|
    ensures Queue(s[..i], tenant) <= Queue(s, tenant)
    decreases |s|
  {
    if i < |s| {
      var rest := s[..|s| - 1];
      QueuePrefix(rest, i, tenant);
      assert rest[..i] == s[..i];
    } else {
      assert s[..i] == s;
    }
  }

  lemma CountMonotone(s: seq<Job>, i: nat, k: nat, tenant: string)
    requires i <= k <= |s|
    ensures Count(s[..i], tenant) <= Count(s[..k], tenant)
  {
    QueuePrefix(s[..k], i, tenant);
    assert s[..k][..i] == s[..i];
  }

  lemma CountNext(s: seq<Job>, i: nat, tenant: string)
    requires i < |s|
    ensures Count(s[..i + 1], tenant) == Count(s[..i], tenant) + if s[i].tenant == tenant then 1 else 0
  {
    QueueAppend(s[..i], s[i], tenant);
    assert s[..i + 1] == s[..i] + [s[i]];
  }

  /** The next job of a tenant that still has jobs after position i. */
  lemma {:induction false} NextOf(s: seq<Job>, i: nat, tenant: string) returns (m: nat)
    requires i <= |s| && Count(s[..i], tenant) < Count(s, tenant)
    ensures i <= m < |s| && s[m].tenant == tenant && Rank(s, m) == Count(s[..i], tenant)
    decreases |s| - i
  {
    assert s[..|s|] == s;
    CountNext(s, i, tenant);
    if s[i].tenant == tenant {
      m := i;
    } else {
      m := NextOf(s, i + 1, tenant);
    }
  }

  /** The last job of a tenant before position i. */
  lemma {:induction false} LastOf(s: seq<Job>, i: nat, tenant: string) returns (m: nat)
    requires i <= |s| && Count(s[..i], tenant) > 0
    ensures m < i && s[m].tenant == tenant && Rank(s, m) == Count(s[..i], tenant) - 1
    decreases i
  {
    CountNext(s, i - 1, tenant);
    if s[i - 1].tenant == tenant {
      m := i - 1;
    } else {
      m := LastOf(s, i - 1, tenant);
    }
  }

  ghost predicate SameQueues(s: seq<Job>, t: seq<Job>) {
    forall tenant :: Queue(s, tenant) == Queue(t, tenant)
  }

  ghost predicate PrefixQueues(s: seq<Job>, t: seq<Job>) {
    forall tenant :: Queue(s, tenant) <= Queue(t, tenant)
  }

  /** Two lists with the same per-tenant queues are permutations of each other. */
  lemma SameQueuesPermute(s: seq<Job>, t: seq<Job>)
    requires SameQueues(s, t)
    ensures multiset(s) == multiset(t)
  {
    forall j: Job ensures multiset(s)[j] == multiset(t)[j] {
      QueueMultiplicity(s, j);
      QueueMultiplicity(t, j);
    }
  }

  lemma {:induction false} QueueMultiplicity(s: seq<Job>, j: Job)
    ensures multiset(s)[j] == multiset(Queue(s, j.tenant))[j]
  {
    if s != [] {
      var rest, last := s[..|s| - 1], s[|s| - 1];
      QueueMultiplicity(rest, j);
      assert s == rest + [last];
    }
  }

  // ---- the order ----

  lemma VirtualTimeGrows(weights: Weights, tenant: string, m: nat, n: nat)
    requires m < n
    ensures VirtualTime(weights, tenant, m) < VirtualTime(weights, tenant, n)
  {
    DivideMonotone((m + 1) as real, (n + 1) as real, WeightOf(weights, tenant) as real);
  }

  lemma PickedAsymmetric(weights: Weights, a: string, m: nat, b: string, n: nat)
    requires Picked(weights, a, m, b, n)
    ensures !Picked(weights, b, n, a, m)
  {
    if a != b && NameLeq(a, b) && NameLeq(b, a) {
      NameAntisymmetric(a, b);
    }
  }

  /** An earlier pick stays before a tenant's later jobs. */
  lemma PickedBeforeLater(weights: Weights, a: string, m: nat, b: string, n: nat)
    requires Picked(weights, a, m, b, n)
    ensures Picked(weights, a, m, b, n + 1)
  {
    VirtualTimeGrows(weights, b, n, n + 1);
  }

  // ---- tenant names ----

  function InsertName(n: string, ns: seq<string>): seq<string> {
    if ns == [] then [n]
    else if NameLeq(n, ns[0]) then [n] + ns
    else [ns[0]] + InsertName(n, ns[1..])
  }

  function SortNames(ns: seq<string>): seq<string> {
    if ns == [] then [] else InsertName(ns[0], SortNames(ns[1..]))
  }

  ghost predicate StrictlySorted(ns: seq<string>) {
    forall i, k :: 0 <= i < k < |ns| ==> NameLess(ns[i], ns[k])
  }

  ghost predicate Distinct(ns: seq<string>) {
    forall i, k :: 0 <= i < k < |ns| ==> ns[i] != ns[k]
  }

  lemma {:induction false} InsertNameMembers(n: string, ns: seq<string>)
    ensures forall x :: x in InsertName(n, ns) <==> x == n || x in ns
    decreases |ns|
  {
    if ns != [] && !NameLeq(n, ns[0]) {
      InsertNameMembers(n, ns[1..]);
      assert ns == [ns[0]] + ns[1..];
    }
  }

  lemma PrependSmallest(n: string, ns: seq<string>)
    requires StrictlySorted(ns) && forall x :: x in ns ==> NameLess(n, x)
    ensures StrictlySorted([n] + ns)
  {
  }

  lemma {:induction false} InsertNameSorts(n: string, ns: seq<string>)
    requires StrictlySorted(ns) && n !in ns
    ensures StrictlySorted(InsertName(n, ns))
    ensures forall x :: x in InsertName(n, ns) <==> x == n || x in ns
    decreases |ns|
  {
    InsertNameMembers(n, ns);
    if ns != [] {
      if NameLeq(n, ns[0]) {
        forall x | x in ns ensures NameLess(n, x) {
          if x != ns[0] {
            NameTransitive(n, ns[0], x);
          }
        }
        PrependSmallest(n, ns);
      } else {
        NameTotal(n, ns[0]);
        InsertNameSorts(n, ns[1..]);
        InsertNameMembers(n, ns[1..]);
        PrependSmallest(ns[0], InsertName(n, ns[1..]));
      }
    }
  }

  lemma {:induction false} SortNamesSorts(ns: seq<string>)
    requires Distinct(ns)
    ensures StrictlySorted(SortNames(ns))
    ensures forall x :: x in SortNames(ns) <==> x in ns
  {
    if ns != [] {
      SortNamesSorts(ns[1..]);
      InsertNameSorts(ns[0], SortNames(ns[1..]));
      assert forall x :: x in ns <==> x == ns[0] || x in ns[1..];
    }
  }

  // ---- the loop ----

  function AssignedTo(given: map<string, nat>, tenant: string): nat {
    if tenant in given then given[tenant] else 0
  }

  /** A tenant with jobs left. */
  predicate Open(queues: map<string, seq<Job>>, given: map<string, nat>, tenant: string) {
    tenant in queues && AssignedTo(given, tenant) < |queues[tenant]|
  }

  ghost predicate Grouped(pending: seq<Job>, queues: map<string, seq<Job>>, tenants: seq<string>) {
    && (forall t :: t in queues <==> t in tenants)
    && (forall t :: t in queues ==> queues[t] == Queue(pending, t))
    && (forall t :: t !in queues ==> Queue(pending, t) == [])
  }

  method GroupByTenant(pending: seq<Job>) returns (queues: map<string, seq<Job>>, tenants: seq<string>)
    ensures Grouped(pending, queues, tenants) && StrictlySorted(tenants)
  {
    var seen;
    queues, seen := FillQueues(pending);
    SortNamesSorts(seen);
    tenants := SortNames(seen);
  }

  method FillQueues(pending: seq<Job>) returns (queues: map<string, seq<Job>>, seen: seq<string>)
    ensures Grouped(pending, queues, seen) && Distinct(seen)
  {
    queues, seen := map[], [];
    for i := 0 to |pending|
      invariant Grouped(pending[..i], queues, seen) && Distinct(seen)
    {
      var rec := pending[i];
      assert pending[..i + 1] == pending[..i] + [rec];
      forall t
        ensures Queue(pending[..i + 1], t)
                == if rec.tenant == t then Queue(pending[..i], t) + [rec] else Queue(pending[..i], t)
      {
        QueueAppend(pending[..i], rec, t);
      }
      if rec.tenant !in queues {
        seen := seen + [rec.tenant];
        queues := queues[rec.tenant := [rec]];
      } else {
        queues := queues[rec.tenant := queues[rec.tenant] + [rec]];
      }
    }
    assert pending[..|pending|] == pending;
  }

  /** The inner loop: smallest (assigned+1)/weight, first in name order, with "" as the unset marker. */
  method PickTenant(weights: Weights, tenants: seq<string>, queues: map<string, seq<Job>>, given: map<string, nat>)
    returns (best: string)
    requires StrictlySorted(tenants)
    requires exists t :: t in tenants && Open(queues, given, t)
    ensures best in tenants && Open(queues, given, best)
    ensures forall t :: t in tenants && t != best && Open(queues, given, t) ==>
              Picked(weights, best, AssignedTo(given, best), t, AssignedTo(given, t))
  {
    best := "";
    var bestKey := 0.0;
    for i := 0 to |tenants|
      invariant best != "" ==> best in tenants[..i] && Open(queues, given, best)
                               && bestKey == VirtualTime(weights, best, AssignedTo(given, best))
      invariant best == "" ==> forall k :: 0 <= k < i && Open(queues, given, tenants[k]) ==> tenants[k] == ""
      invariant best != "" ==> forall k :: 0 <= k < i && tenants[k] != best && Open(queues, given, tenants[k]) ==>
                  Picked(weights, best, AssignedTo(given, best), tenants[k], AssignedTo(given, tenants[k]))
    {
      var tenant := tenants[i];
      if Open(queues, given, tenant) {
        var key := VirtualTime(weights, tenant, AssignedTo(given, tenant));
        if best == "" || key < bestKey {
          best, bestKey := tenant, key;
        }
      }
    }
    assert tenants[..|tenants|] == tenants;
  }

  /** The output holds the assigned prefix of every queue. */
  ghost predicate Tracks(queues: map<string, seq<Job>>, given: map<string, nat>, out: seq<Job>) {
    forall t :: TracksAt(queues, given, out, t)
  }

  ghost predicate TracksAt(queues: map<string, seq<Job>>, given: map<string, nat>, out: seq<Job>, t: string) {
    if t in queues then AssignedTo(given, t) <= |queues[t]| && Queue(out, t) == queues[t][..AssignedTo(given, t)]
    else Queue(out, t) == []
  }

  /** Everything picked so far comes before every open tenant's next job. */
  ghost predicate Ahead(weights: Weights, queues: map<string, seq<Job>>, given: map<string, nat>, out: seq<Job>) {
    forall i, t :: 0 <= i < |out| && Open(queues, given, t) ==>
      Picked(weights, out[i].tenant, Rank(out, i), t, AssignedTo(given, t))
  }

  ghost predicate TenantQueues(queues: map<string, seq<Job>>) {
    forall t, i :: t in queues && 0 <= i < |queues[t]| ==> queues[t][i].tenant == t
  }

  lemma TracksStep(queues: map<string, seq<Job>>, given: map<string, nat>, out: seq<Job>, best: string)
    requires TenantQueues(queues) && Tracks(queues, given, out) && Open(queues, given, best)
    ensures Tracks(queues, given[best := AssignedTo(given, best) + 1], out + [queues[best][AssignedTo(given, best)]])
  {
    var a := AssignedTo(given, best);
    var j := queues[best][a];
    var given', out' := given[best := a + 1], out + [j];
    assert queues[best][..a + 1] == queues[best][..a] + [j];
    forall t ensures TracksAt(queues, given', out', t) {
      assert TracksAt(queues, given, out, t);
      QueueAppend(out, j, t);
    }
  }

  lemma PrefixRank(out: seq<Job>, j: Job, i: nat)
    requires i <= |out|
    ensures Rank(out + [j], i) == if i < |out| then Rank(out, i) else Count(out, j.tenant)
  {
    assert (out + [j])[..i] == out[..i];
    assert out[..|out|] == out;
  }

  lemma SortedStep(weights: Weights, out: seq<Job>, j: Job)
    requires SortedBy(Picked, weights, out)
    requires forall i :: 0 <= i < |out| ==> Picked(weights, out[i].tenant, Rank(out, i), j.tenant, Count(out, j.tenant))
    ensures SortedBy(Picked, weights, out + [j])
  {
    var out' := out + [j];
    forall i, k | 0 <= i < k < |out'|
      ensures Picked(weights, out'[i].tenant, Rank(out', i), out'[k].tenant, Rank(out', k))
    {
      PrefixRank(out, j, i);
      PrefixRank(out, j, k);
    }
  }

  lemma AheadStep(weights: Weights, queues: map<string, seq<Job>>, given: map<string, nat>, out: seq<Job>,
                  best: string, j: Job)
    requires Ahead(weights, queues, given, out) && Open(queues, given, best)
    requires j.tenant == best && Count(out, best) == AssignedTo(given, best)
    requires forall t :: t != best && Open(queues, given, t) ==>
               Picked(weights, best, AssignedTo(given, best), t, AssignedTo(given, t))
    ensures Ahead(weights, queues, given[best := AssignedTo(given, best) + 1], out + [j])
  {
    var a := AssignedTo(given, best);
    var out', given' := out + [j], given[best := a + 1];
    forall i, t | 0 <= i < |out'| && Open(queues, given', t)
      ensures Picked(weights, out'[i].tenant, Rank(out', i), t, AssignedTo(given', t))
    {
      PrefixRank(out, j, i);
      if i == |out| {
        assert out'[i] == j && Rank(out', i) == a;
        if t == best {
          assert AssignedTo(given', t) == a + 1;
        } else {
          assert Open(queues, given, t) && AssignedTo(given', t) == AssignedTo(given, t);
        }
      } else {
        assert out'[i] == out[i] && Rank(out', i) == Rank(out, i);
        if t == best {
          PickedBeforeLater(weights, out[i].tenant, Rank(out, i), best, a);
        } else {
          assert Open(queues, given, t) && AssignedTo(given', t) == AssignedTo(given, t);
        }
      }
    }
  }

  lemma {:induction false} QueueTenants(s: seq<Job>, tenant: string)
    ensures forall i :: 0 <= i < |Queue(s, tenant)| ==> Queue(s, tenant)[i].tenant == tenant
  {
    if s != [] {
      QueueTenants(s[..|s| - 1], tenant);
    }
  }

  lemma PrefixQueuesBound(s: seq<Job>, t: seq<Job>)
    requires PrefixQueues(s, t)
    ensures multiset(s) <= multiset(t)
  {
    forall j: Job ensures multiset(s)[j] <= multiset(t)[j] {
      QueueMultiplicity(s, j);
      QueueMultiplicity(t, j);
      var a, b := Queue(s, j.tenant), Queue(t, j.tenant);
      assert b == a + b[|a|..];
    }
  }

  lemma PrefixQueueEqual(s: seq<Job>, t: seq<Job>, tenant: string)
    requires multiset(s) == multiset(t) && Queue(s, tenant) <= Queue(t, tenant)
    ensures Queue(s, tenant) == Queue(t, tenant)
  {
    var a, b := Queue(s, tenant), Queue(t, tenant);
    QueueTenants(t, tenant);
    assert b == a + b[|a|..];
    if |a| < |b| {
      QueueMultiplicity(s, b[|a|..][0]);
      QueueMultiplicity(t, b[|a|..][0]);
      assert false;
    }
  }

  lemma SizeFromBag(s: seq<Job>, t: seq<Job>)
    requires multiset(s) == multiset(t)
    ensures |s| == |t|
  {
    assert |s| == |multiset(s)| && |t| == |multiset(t)|;
  }

  lemma BagOfSameSize(a: multiset<Job>, b: multiset<Job>)
    requires a <= b && |a| == |b|
    ensures a == b
  {
    assert b == a + (b - a);
  }

  /** A list that holds a prefix of every queue and has the full length holds every queue. */
  lemma FullMeansComplete(s: seq<Job>, t: seq<Job>)
    requires PrefixQueues(s, t) && |s| == |t|
    ensures SameQueues(s, t)
  {
    PrefixQueuesBound(s, t);
    BagOfSameSize(multiset(s), multiset(t));
    forall tenant ensures Queue(s, tenant) == Queue(t, tenant) {
      PrefixQueueEqual(s, t, tenant);
    }
  }

  lemma TracksIsPrefix(pending: seq<Job>, queues: map<string, seq<Job>>, tenants: seq<string>, given: map<string, nat>,
                       out: seq<Job>)
    requires Grouped(pending, queues, tenants) && Tracks(queues, given, out)
    ensures PrefixQueues(out, pending)
  {
    forall t ensures Queue(out, t) <= Queue(pending, t) {
      assert TracksAt(queues, given, out, t);
      assert t in queues ==> queues[t] == Queue(pending, t);
    }
  }

  /** While the output is short, some tenant is open. */
  lemma SomeTenantOpen(pending: seq<Job>, queues: map<string, seq<Job>>, tenants: seq<string>, given: map<string, nat>,
                       out: seq<Job>)
    requires Grouped(pending, queues, tenants) && Tracks(queues, given, out) && |out| < |pending|
    ensures exists t :: t in tenants && Open(queues, given, t)
  {
    if SameQueues(out, pending) {
      SameQueuesPermute(out, pending);
      SizeFromBag(out, pending);
      assert false;
    }
    var t :| Queue(out, t) != Queue(pending, t);
    assert TracksAt(queues, given, out, t);
    assert t in queues && queues[t] == Queue(pending, t);
  }

  /** fairOrder keeps every tenant's queue and is sorted by the order its loop realizes. */
  ghost predicate IsFairOrder(pending: seq<Job>, weights: Weights, out: seq<Job>) {
    SameQueues(out, pending) && SortedBy(Picked, weights, out)
  }

  method FairOrder(pending: seq<Job>, weights: Weights) returns (out: seq<Job>)
    ensures IsFairOrder(pending, weights, out)
    ensures multiset(out) == multiset(pending)
  {
    if |pending| <= 1 {
      return pending;
    }
    var queues: map<string, seq<Job>>, tenants := GroupByTenant(pending);
    forall t | t in queues ensures forall i :: 0 <= i < |queues[t]| ==> queues[t][i].tenant == t {
      QueueTenants(pending, t);
    }
    var given: map<string, nat> := map[];
    out := [];
    while |out| < |pending|
      invariant |out| <= |pending|
      invariant Tracks(queues, given, out) && SortedBy(Picked, weights, out) && Ahead(weights, queues, given, out)
    {
      SomeTenantOpen(pending, queues, tenants, given, out);
      var best := PickTenant(weights, tenants, queues, given);
      var j := queues[best][AssignedTo(given, best)];
      assert TracksAt(queues, given, out, best);
      assert Count(out, best) == AssignedTo(given, best);
      TracksStep(queues, given, out, best);
      SortedStep(weights, out, j);
      AheadStep(weights, queues, given, out, best, j);
      out := out + [j];
      given := given[best := AssignedTo(given, best) + 1];
    }
    TracksIsPrefix(pending, queues, tenants, given, out);
    FullMeansComplete(out, pending);
    SameQueuesPermute(out, pending);
  }

  // ---- what the order guarantees ----

  /** The order is fully determined: any list with the same queues and the same sorting is equal to it. */
  lemma {:induction false} FairOrderUnique(weights: Weights, s: seq<Job>, t: seq<Job>, i: nat)
    requires SameQueues(s, t) && SortedBy(Picked, weights, s) && SortedBy(Picked, weights, t)
    requires i <= |s|
    ensures |s| == |t| && s[..i] == t[..i]
  {
    SameQueuesPermute(s, t);
    SizeFromBag(s, t);
    if i > 0 {
      FairOrderUnique(weights, s, t, i - 1);
      NextAgrees(weights, s, t, i - 1);
    }
  }

  lemma NextAgrees(weights: Weights, s: seq<Job>, t: seq<Job>, i: nat)
    requires SameQueues(s, t) && SortedBy(Picked, weights, s) && SortedBy(Picked, weights, t)
    requires i < |s| == |t| && s[..i] == t[..i]
    ensures s[i] == t[i]
  {
    var a, b := s[i].tenant, t[i].tenant;
    if a != b {
      LeaderWins(weights, s, i, b, t);
      LeaderWins(weights, t, i, a, s);
      PickedAsymmetric(weights, a, Rank(s, i), b, Rank(t, i));
      assert false;
    }
    JobAtRank(s, i);
    JobAtRank(t, i);
    assert Queue(s, a) == Queue(t, a);
  }

  /** In s, position i precedes the next job of any other tenant that the other list has at i. */
  lemma LeaderWins(weights: Weights, s: seq<Job>, i: nat, b: string, t: seq<Job>)
    requires SameQueues(s, t) || SameQueues(t, s)
    requires SortedBy(Picked, weights, s)
    requires i < |s| && i < |t| && s[..i] == t[..i] && t[i].tenant == b != s[i].tenant
    ensures Picked(weights, s[i].tenant, Rank(s, i), b, Rank(t, i))
  {
    CountNext(t, i, b);
    CountMonotone(t, i + 1, |t|, b);
    assert t[..|t|] == t;
    assert Queue(s, b) == Queue(t, b);
    var m := NextOf(s, i, b);
  }

  lemma PrefixElement<T>(a: seq<T>, b: seq<T>, k: nat)
    requires a <= b && k < |a|
    ensures |b| >= |a| && b[k] == a[k]
  {
  }

  lemma JobAtRank(s: seq<Job>, i: nat)
    requires i < |s|
    ensures Rank(s, i) < Count(s, s[i].tenant) && Queue(s, s[i].tenant)[Rank(s, i)] == s[i]
  {
    var tenant := s[i].tenant;
    QueueNext(s, i);
    QueuePrefix(s, i + 1, tenant);
    PrefixElement(Queue(s[..i + 1], tenant), Queue(s, tenant), Rank(s, i));
  }

  lemma QueueNext(s: seq<Job>, i: nat)
    requires i < |s|
    ensures |Queue(s[..i + 1], s[i].tenant)| == Rank(s, i) + 1
    ensures Queue(s[..i + 1], s[i].tenant)[Rank(s, i)] == s[i]
  {
    QueueAppend(s[..i], s[i], s[i].tenant);
    assert s[..i + 1] == s[..i] + [s[i]];
  }

  /**
   The fair-share bound: after any number n of picks, no tenant's served share exceeds the next share of a
   tenant that still has jobs: assigned(A)/w(A) <= (assigned(B)+1)/w(B).
   */
  lemma FairShareBound(weights: Weights, out: seq<Job>, n: nat, a: string, b: string)
    requires SortedBy(Picked, weights, out) && n <= |out| && b != ""
    requires Count(out[..n], b) < Count(out, b)
    ensures Count(out[..n], a) as real / WeightOf(weights, a) as real
            <= (Count(out[..n], b) + 1) as real / WeightOf(weights, b) as real
  {
    var next := NextOf(out, n, b);
    if Count(out[..n], a) > 0 {
      var last := LastOf(out, n, a);
      assert Picked(weights, a, Rank(out, last), b, Rank(out, next));
      if a == b {
        VirtualTimeGrows(weights, a, Rank(out, last), Rank(out, next));
      }
    } else {
      NothingServed(weights, a, b, Count(out[..n], b) + 1);
    }
  }

  lemma NothingServed(weights: Weights, a: string, b: string, n: nat)
    ensures 0 as real / WeightOf(weights, a) as real <= n as real / WeightOf(weights, b) as real
  {
    DivideMonotone(0.0, n as real, WeightOf(weights, b) as real);
  }

  // ---- exact cadence ----

  function TotalCount(s: seq<Job>, tenants: seq<string>): nat {
    if tenants == [] then 0 else Count(s, tenants[0]) + TotalCount(s, tenants[1..])
  }

  /** n rounds of a tenant's weight. */
  function Share(weights: Weights, n: nat, tenant: string): nat {
    n * WeightOf(weights, tenant)
  }

  function TotalShare(weights: Weights, n: nat, tenants: seq<string>): nat {
    if tenants == [] then 0 else Share(weights, n, tenants[0]) + TotalShare(weights, n, tenants[1..])
  }

  lemma {:induction false} TotalCountAppend(s: seq<Job>, j: Job, tenants: seq<string>)
    requires Distinct(tenants)
    ensures TotalCount(s + [j], tenants) == TotalCount(s, tenants) + if j.tenant in tenants then 1 else 0
  {
    if tenants != [] {
      QueueAppend(s, j, tenants[0]);
      TotalCountAppend(s, j, tenants[1..]);
      assert tenants == [tenants[0]] + tenants[1..];
    }
  }

  lemma {:induction false} TotalCountIsLength(s: seq<Job>, tenants: seq<string>)
    requires Distinct(tenants) && forall i :: 0 <= i < |s| ==> s[i].tenant in tenants
    ensures TotalCount(s, tenants) == |s|
  {
    if s == [] {
      TotalCountEmpty(tenants);
    } else {
      var rest, last := s[..|s| - 1], s[|s| - 1];
      TotalCountIsLength(rest, tenants);
      TotalCountAppend(rest, last, tenants);
      assert s == rest + [last];
    }
  }

  lemma {:induction false} TotalCountEmpty(tenants: seq<string>)
    ensures TotalCount([], tenants) == 0
  {
    if tenants != [] {
      TotalCountEmpty(tenants[1..]);
    }
  }

  lemma {:induction false} SharesCovered(s: seq<Job>, weights: Weights, tenants: seq<string>, n: nat)
    requires forall t :: t in tenants ==> Count(s, t) >= Share(weights, n, t)
    ensures TotalCount(s, tenants) >= TotalShare(weights, n, tenants)
  {
    if tenants != [] {
      SharesCovered(s, weights, tenants[1..], n);
    }
  }

  lemma {:induction false} SharesBound(s: seq<Job>, weights: Weights, tenants: seq<string>, n: nat)
    requires forall t :: t in tenants ==> Count(s, t) <= Share(weights, n, t)
    ensures TotalCount(s, tenants) <= TotalShare(weights, n, tenants)
  {
    if tenants != [] {
      SharesBound(s, weights, tenants[1..], n);
    }
  }

  /** If nobody is above its share and one tenant is below, the total falls short. */
  lemma {:induction false} SharesShort(s: seq<Job>, weights: Weights, tenants: seq<string>, n: nat, k: nat)
    requires forall t :: t in tenants ==> Count(s, t) <= Share(weights, n, t)
    requires k < |tenants| && Count(s, tenants[k]) < Share(weights, n, tenants[k])
    ensures TotalCount(s, tenants) < TotalShare(weights, n, tenants)
  {
    if k == 0 {
      SharesBound(s, weights, tenants[1..], n);
    } else {
      SharesShort(s, weights, tenants[1..], n, k - 1);
    }
  }

  /** If one tenant is above its share while the total is n rounds, another one is below. */
  lemma {:induction false} SomeoneBelow(s: seq<Job>, weights: Weights, tenants: seq<string>, n: nat) returns (k: nat)
    requires TotalCount(s, tenants) < TotalShare(weights, n, tenants)
    ensures k < |tenants| && Count(s, tenants[k]) < Share(weights, n, tenants[k])
  {
    if Count(s, tenants[0]) < Share(weights, n, tenants[0]) {
      k := 0;
    } else {
      var k' := SomeoneBelow(s, weights, tenants[1..], n);
      k := k' + 1;
    }
  }

  lemma {:induction false} OverMeansUnder(s: seq<Job>, weights: Weights, tenants: seq<string>, n: nat, o: nat)
    returns (k: nat)
    requires TotalCount(s, tenants) <= TotalShare(weights, n, tenants)
    requires o < |tenants| && Count(s, tenants[o]) > Share(weights, n, tenants[o])
    ensures k < |tenants| && Count(s, tenants[k]) < Share(weights, n, tenants[k])
  {
    if o == 0 {
      var k' := SomeoneBelow(s, weights, tenants[1..], n);
      k := k' + 1;
    } else if Count(s, tenants[0]) < Share(weights, n, tenants[0]) {
      k := 0;
    } else {
      var k' := OverMeansUnder(s, weights, tenants[1..], n, o - 1);
      k := k' + 1;
    }
  }

  /** A tenant above n rounds and one below contradict the fair-share bound. */
  lemma BoundForbidsOvershoot(weights: Weights, n: nat, a: string, x: nat, b: string, y: nat)
    requires x > Share(weights, n, a) && y < Share(weights, n, b)
    ensures x as real / WeightOf(weights, a) as real > (y + 1) as real / WeightOf(weights, b) as real
  {
    var wa, wb := WeightOf(weights, a), WeightOf(weights, b);
    DivideMonotone((n * wa) as real, x as real, wa as real);
    DivideMonotone((y + 1) as real, (n * wb) as real, wb as real);
    RoundsQuotient(n, wa);
    RoundsQuotient(n, wb);
  }

  lemma RoundsQuotient(n: nat, w: int)
    requires w >= 1
    ensures (n * w) as real / w as real == n as real
  {
    assert (n * w) as real == n as real * w as real;
  }

  /**
   Exact cadence: when every tenant has at least n rounds of jobs, the first n rounds of picks serve every
   tenant exactly n times its weight.
   */
  lemma ExactCadence(weights: Weights, out: seq<Job>, tenants: seq<string>, n: nat, a: string)
    requires SortedBy(Picked, weights, out) && Distinct(tenants) && "" !in tenants
    requires forall i :: 0 <= i < |out| ==> out[i].tenant in tenants
    requires forall t :: t in tenants ==> Count(out, t) >= Share(weights, n, t)
    requires a in tenants
    ensures TotalShare(weights, n, tenants) <= |out|
    ensures Count(out[..TotalShare(weights, n, tenants)], a) == Share(weights, n, a)
  {
    TotalCountIsLength(out, tenants);
    SharesCovered(out, weights, tenants, n);
    var s := out[..TotalShare(weights, n, tenants)];
    TotalCountIsLength(s, tenants);
    forall t | t in tenants ensures Count(s, t) <= Share(weights, n, t) {
      var o :| 0 <= o < |tenants| && tenants[o] == t;
      NoOvershoot(weights, out, tenants, n, o);
    }
    var k :| 0 <= k < |tenants| && tenants[k] == a;
    if Count(s, a) < Share(weights, n, a) {
      SharesShort(s, weights, tenants, n, k);
      assert false;
    }
  }

  /** Nobody is ahead of its share: someone else would be behind, against the fair-share bound. */
  lemma NoOvershoot(weights: Weights, out: seq<Job>, tenants: seq<string>, n: nat, o: nat)
    requires SortedBy(Picked, weights, out) && Distinct(tenants) && "" !in tenants && o < |tenants|
    requires forall t :: t in tenants ==> Count(out, t) >= Share(weights, n, t)
    requires TotalShare(weights, n, tenants) <= |out|
    requires TotalCount(out[..TotalShare(weights, n, tenants)], tenants) == TotalShare(weights, n, tenants)
    ensures Count(out[..TotalShare(weights, n, tenants)], tenants[o]) <= Share(weights, n, tenants[o])
  {
    var s := out[..TotalShare(weights, n, tenants)];
    if Count(s, tenants[o]) > Share(weights, n, tenants[o]) {
      var k := OverMeansUnder(s, weights, tenants, n, o);
      FairShareBound(weights, out, |s|, tenants[o], tenants[k]);
      BoundForbidsOvershoot(weights, n, tenants[o], Count(s, tenants[o]), tenants[k], Count(s, tenants[k]));
      assert false;
    }
  }

  // ---- the configured weights ----

  /**
   What the output is, in the weights of the configuration: wa and wb are the tenants' weights, one where none of at
   least one is set. Earlier positions have the smaller virtual time, ties go to the smaller name.
   */
  lemma OrderByWeights(pending: seq<Job>, weights: Weights, out: seq<Job>, i: nat, k: nat, wa: int, wb: int)
    requires IsFairOrder(pending, weights, out) && i < k < |out|
    requires wa == if out[i].tenant in weights && weights[out[i].tenant] >= 1 then weights[out[i].tenant] else 1
    requires wb == if out[k].tenant in weights && weights[out[k].tenant] >= 1 then weights[out[k].tenant] else 1
    requires out[i].tenant != out[k].tenant && out[k].tenant != ""
    ensures out[i].tenant != ""
    ensures var x, y := (Rank(out, i) + 1) as real / wa as real, (Rank(out, k) + 1) as real / wb as real;
            x < y || (x == y && NameLeq(out[i].tenant, out[k].tenant))
  {
    assert Picked(weights, out[i].tenant, Rank(out, i), out[k].tenant, Rank(out, k));
  }

  /** The bound after any number n of picks: served(a) / weight(a) <= (served(b) + 1) / weight(b). */
  lemma SharesFollowWeights(pending: seq<Job>, weights: Weights, out: seq<Job>, n: nat, a: string, b: string,
                            wa: int, wb: int)
    requires IsFairOrder(pending, weights, out) && n <= |out| && b != "" && Count(out[..n], b) < Count(pending, b)
    requires wa == if a in weights && weights[a] >= 1 then weights[a] else 1
    requires wb == if b in weights && weights[b] >= 1 then weights[b] else 1
    ensures Count(out[..n], a) as real / wa as real <= (Count(out[..n], b) + 1) as real / wb as real
  {
    assert Queue(out, b) == Queue(pending, b);
    FairShareBound(weights, out, n, a, b);
  }

  /** n times the sum of the weights. */
  function Slots(shares: seq<int>, n: nat): int {
    if shares == [] then 0 else n * shares[0] + Slots(shares[1..], n)
  }

  lemma {:induction false} SlotsAreShares(weights: Weights, tenants: seq<string>, shares: seq<int>, n: nat)
    requires |shares| == |tenants|
    requires forall i :: 0 <= i < |tenants| ==> shares[i] == WeightOf(weights, tenants[i])
    ensures Slots(shares, n) == TotalShare(weights, n, tenants)
  {
    if tenants != [] {
      SlotsAreShares(weights, tenants[1..], shares[1..], n);
    }
  }

  lemma {:induction false} CountFromMember(s: seq<Job>, i: nat)
    requires i < |s|
    ensures Count(s, s[i].tenant) > 0
  {
    var rest := s[..|s| - 1];
    if i < |rest| {
      CountFromMember(rest, i);
    }
  }

  /**
   The cadence: if every tenant has n rounds of jobs waiting, the first n rounds of picks serve every tenant exactly n
   times its configured weight.
   */
  lemma CadenceFollowsWeights(pending: seq<Job>, weights: Weights, out: seq<Job>, tenants: seq<string>,
                              shares: seq<int>, n: nat, k: nat)
    requires IsFairOrder(pending, weights, out) && Distinct(tenants) && "" !in tenants && |shares| == |tenants|
    requires forall i :: 0 <= i < |pending| ==> pending[i].tenant in tenants
    requires forall i :: 0 <= i < |tenants| ==>
               shares[i] == if tenants[i] in weights && weights[tenants[i]] >= 1 then weights[tenants[i]] else 1
    requires forall i :: 0 <= i < |tenants| ==> Count(pending, tenants[i]) >= n * shares[i]
    requires k < |tenants|
    ensures 0 <= Slots(shares, n) <= |out| && Count(out[..Slots(shares, n)], tenants[k]) == n * shares[k]
  {
    SlotsAreShares(weights, tenants, shares, n);
    forall i | 0 <= i < |out| ensures out[i].tenant in tenants {
      CountFromMember(out, i);
      assert Queue(out, out[i].tenant) == Queue(pending, out[i].tenant);
      if out[i].tenant !in tenants {
        NobodyQueues(pending, out[i].tenant);
      }
    }
    forall t | t in tenants ensures Count(out, t) >= Share(weights, n, t) {
      var i :| 0 <= i < |tenants| && tenants[i] == t;
      assert Queue(out, t) == Queue(pending, t) && Count(pending, tenants[i]) >= n * shares[i];
    }
    ExactCadence(weights, out, tenants, n, tenants[k]);
  }

  /** Weights three to one: the first jobs come out as A, A, A, B. */
  lemma ThreeToOne(weights: Weights, a1: Job, a2: Job, a3: Job, b: Job, out: seq<Job>)
    requires a1.tenant == a2.tenant == a3.tenant && NameLess(a1.tenant, b.tenant) && a1.tenant != "" && b.tenant != ""
    requires a1.tenant in weights && weights[a1.tenant] == 3 && b.tenant in weights && weights[b.tenant] == 1
    requires IsFairOrder([a1, a2, a3, b], weights, out)
    ensures out == [a1, a2, a3, b]
  {
    var s := [a1, a2, a3, b];
    FourJobs(s, a1.tenant);
    assert SortedBy(Picked, weights, s);
    FairOrderUnique(weights, out, s, |out|);
    assert out[..|out|] == out && s[..|s|] == s;
  }

  lemma FourJobs(s: seq<Job>, a: string)
    requires |s| == 4 && s[0].tenant == s[1].tenant == s[2].tenant == a != s[3].tenant
    ensures Rank(s, 0) == 0 && Rank(s, 1) == 1 && Rank(s, 2) == 2 && Rank(s, 3) == 0
  {
    assert s[..0] == [];
    CountNext(s, 0, a);
    CountNext(s, 1, a);
    CountNext(s, 0, s[3].tenant);
    CountNext(s, 1, s[3].tenant);
    CountNext(s, 2, s[3].tenant);
  }

  // ---- the tenant named "" ----

  /** No tenant is named "", or the whole backlog of every other tenant precedes its first job. */
  ghost predicate EmptyNameHarmless(pending: seq<Job>, weights: Weights) {
    Count(pending, "") > 0 ==>
      forall t :: t != "" && Count(pending, t) > 0 ==>
        VirtualTime(weights, t, Count(pending, t) - 1) < VirtualTime(weights, "", 0)
  }

  /**
   fairOrder meets its documentation (virtual time, then name) if and only if no tenant is named "" or every
   other tenant's whole backlog comes before the first job of "" anyway.
   */
  lemma DocumentedOrderIff(pending: seq<Job>, weights: Weights, out: seq<Job>)
    requires IsFairOrder(pending, weights, out)
    ensures SortedBy(Earlier, weights, out) <==> EmptyNameHarmless(pending, weights)
  {
    if EmptyNameHarmless(pending, weights) {
      forall i, k | 0 <= i < k < |out|
        ensures Earlier(weights, out[i].tenant, Rank(out, i), out[k].tenant, Rank(out, k))
      {
        var a, b := out[i].tenant, out[k].tenant;
        assert Picked(weights, a, Rank(out, i), b, Rank(out, k));
        if b == "" != a {
          HarmlessPair(pending, weights, out, i, k);
        }
      }
    } else {
      var t :| t != "" && Count(pending, t) > 0
        && !(VirtualTime(weights, t, Count(pending, t) - 1) < VirtualTime(weights, "", 0));
      HarmfulPair(pending, weights, out, t);
    }
  }

  /** Every project has a name, so every batch the dispatcher sees comes out in the documented order. */
  lemma NamedTenantsAreInDocumentedOrder(pending: seq<Job>, weights: Weights, out: seq<Job>)
    requires IsFairOrder(pending, weights, out) && forall i :: 0 <= i < |pending| ==> pending[i].tenant != ""
    ensures SortedBy(Earlier, weights, out)
  {
    NobodyQueues(pending, "");
    DocumentedOrderIff(pending, weights, out);
  }

  lemma {:induction false} NobodyQueues(s: seq<Job>, tenant: string)
    requires forall i :: 0 <= i < |s| ==> s[i].tenant != tenant
    ensures Count(s, tenant) == 0
  {
    if s != [] {
      NobodyQueues(s[..|s| - 1], tenant);
    }
  }

  /** Two jobs, one of tenant "" submitted first, equal weights: not the documented order. */
  lemma EmptyNameIsMisordered(a: Job, b: Job, out: seq<Job>)
    requires a.tenant == "" != b.tenant && IsFairOrder([a, b], map[], out)
    ensures !SortedBy(Earlier, map[], out)
  {
    QueueAppend([], a, "");
    QueueAppend([a], b, "");
    QueueAppend([], a, b.tenant);
    QueueAppend([a], b, b.tenant);
    assert [] + [a] == [a] && [a] + [b] == [a, b];
    DocumentedOrderIff([a, b], map[], out);
    assert VirtualTime(map[], b.tenant, Count([a, b], b.tenant) - 1) == VirtualTime(map[], "", 0);
  }

  lemma HarmlessPair(pending: seq<Job>, weights: Weights, out: seq<Job>, i: nat, k: nat)
    requires IsFairOrder(pending, weights, out) && EmptyNameHarmless(pending, weights)
    requires i < k < |out| && out[i].tenant != "" == out[k].tenant
    ensures VirtualTime(weights, out[i].tenant, Rank(out, i)) < VirtualTime(weights, "", Rank(out, k))
  {
    var a := out[i].tenant;
    JobAtRank(out, i);
    JobAtRank(out, k);
    assert Queue(out, a) == Queue(pending, a) && Queue(out, "") == Queue(pending, "");
    if Rank(out, i) < Count(pending, a) - 1 {
      VirtualTimeGrows(weights, a, Rank(out, i), Count(pending, a) - 1);
    }
    if Rank(out, k) > 0 {
      VirtualTimeGrows(weights, "", 0, Rank(out, k));
    }
  }

  lemma NeverPickedFirst(weights: Weights, t: string, n: nat)
    requires t != ""
    ensures !Picked(weights, "", 0, t, n)
  {
  }

  lemma HarmfulPair(pending: seq<Job>, weights: Weights, out: seq<Job>, t: string)
    requires IsFairOrder(pending, weights, out) && Count(pending, "") > 0 && t != "" && Count(pending, t) > 0
    requires VirtualTime(weights, t, Count(pending, t) - 1) >= VirtualTime(weights, "", 0)
    ensures !SortedBy(Earlier, weights, out)
  {
    assert Queue(out, t) == Queue(pending, t) && Queue(out, "") == Queue(pending, "");
    assert out[..|out|] == out && Count(out[..0], "") == 0;
    var i := LastOf(out, |out|, t);
    var k := NextOf(out, 0, "");
    assert i < k by {
      if k < i {
        NeverPickedFirst(weights, t, Rank(out, i));
        assert false;
      }
    }
    assert !Earlier(weights, t, Rank(out, i), "", 0);
  }
}
