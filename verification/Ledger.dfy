/** Sums over the usage ledger (internal/store/tasks.go, accounting.go) and over the jobs of a tenant. */
module Ledger {
  import opened Tables
  import opened Audit

  function OfJob(id: JobId, unit: string): LedgerRow -> bool {
    (r: LedgerRow) => r.jobId == id && r.unit == unit
  }

  function OfTenant(tenant: string, unit: string): LedgerRow -> bool {
    (r: LedgerRow) => r.tenant == tenant && r.unit == unit
  }

  /** SELECT SUM(amount) ... WHERE p. */
  function SumWhere(rows: seq<LedgerRow>, p: LedgerRow -> bool): real {
    if rows == [] then 0.0
    else SumWhere(rows[..|rows| - 1], p) + if p(rows[|rows| - 1]) then rows[|rows| - 1].amount else 0.0
  }

  lemma SumAppend(rows: seq<LedgerRow>, r: LedgerRow, p: LedgerRow -> bool)
    ensures SumWhere(rows + [r], p) == SumWhere(rows, p) + if p(r) then r.amount else 0.0
  {
    assert (rows + [r])[..|rows|] == rows;
  }

  lemma {:induction false} SumNone(rows: seq<LedgerRow>, p: LedgerRow -> bool)
    requires forall i :: 0 <= i < |rows| ==> !p(rows[i])
    ensures SumWhere(rows, p) == 0.0
  {
    if rows != [] {
      SumNone(rows[..|rows| - 1], p);
    }
  }

  /** The sum of a selection that holds exactly one row. */
  lemma {:induction false} SumOne(rows: seq<LedgerRow>, p: LedgerRow -> bool, at: nat)
    requires at < |rows| && p(rows[at])
    requires forall i :: 0 <= i < |rows| && p(rows[i]) ==> i == at
    ensures SumWhere(rows, p) == rows[at].amount
  {
    var rest := rows[..|rows| - 1];
    if at == |rows| - 1 {
      SumNone(rest, p);
    } else {
      assert rest[at] == rows[at];
      SumOne(rest, p, at);
    }
  }

  lemma {:induction false} SumNonNegative(rows: seq<LedgerRow>, p: LedgerRow -> bool)
    requires forall i :: 0 <= i < |rows| ==> rows[i].amount >= 0.0
    ensures SumWhere(rows, p) >= 0.0
  {
    if rows != [] {
      SumNonNegative(rows[..|rows| - 1], p);
    }
  }

  // ---- sums over jobs ----

  function Sum(ids: seq<JobId>, f: JobId -> real): real {
    if ids == [] then 0.0 else Sum(ids[..|ids| - 1], f) + f(ids[|ids| - 1])
  }

  lemma SumJobsAppend(ids: seq<JobId>, id: JobId, f: JobId -> real)
    ensures Sum(ids + [id], f) == Sum(ids, f) + f(id)
  {
    assert (ids + [id])[..|ids|] == ids;
  }

  lemma SumOneMore(ids: seq<JobId>, id: JobId, f: JobId -> real, g: JobId -> real)
    requires forall i :: 0 <= i < |ids| ==> g(ids[i]) == f(ids[i])
    ensures Sum(ids + [id], g) == Sum(ids, f) + g(id)
  {
    SumJobsAppend(ids, id, g);
    SumMonotone(ids, f, g);
    SumMonotone(ids, g, f);
  }

  lemma {:induction false} SumMonotone(ids: seq<JobId>, f: JobId -> real, g: JobId -> real)
    requires forall i :: 0 <= i < |ids| ==> f(ids[i]) <= g(ids[i])
    ensures Sum(ids, f) <= Sum(ids, g)
  {
    if ids != [] {
      SumMonotone(ids[..|ids| - 1], f, g);
    }
  }

  /** Only job x may grow, by at most d. */
  lemma {:induction false} SumShift(ids: seq<JobId>, f: JobId -> real, g: JobId -> real, x: JobId, d: real)
    requires Distinct(ids) && x in ids
    requires forall i :: 0 <= i < |ids| && ids[i] != x ==> g(ids[i]) <= f(ids[i])
    requires g(x) <= f(x) + d
    ensures Sum(ids, g) <= Sum(ids, f) + d
  {
    var rest, last := ids[..|ids| - 1], ids[|ids| - 1];
    if last == x {
      forall i | 0 <= i < |rest| ensures g(rest[i]) <= f(rest[i]) {
        assert rest[i] == ids[i] != x;
      }
      SumMonotone(rest, g, f);
    } else {
      assert x in rest;
      SumShift(rest, f, g, x, d);
    }
  }

  lemma {:induction false} SumZeroOrMore(ids: seq<JobId>, f: JobId -> real)
    requires forall i :: 0 <= i < |ids| ==> f(ids[i]) >= 0.0
    ensures Sum(ids, f) >= 0.0
  {
    if ids != [] {
      SumZeroOrMore(ids[..|ids| - 1], f);
    }
  }
}
