/**
 The whole control plane: quota admission (internal/store/tenancy.go) in front of the protocol. Jobs enter only
 through an admission step, and every write of the protocol is a write next to the open admission transactions.
 */
module Deployment {
  import opened Common
  import opened Tables
  import Ledger
  import Quota
  import Protocol
  import Guarantees

  /** The admission side and the protocol share the tables. */
  datatype Whole = Whole(sys: Protocol.System, q: Quota.State)

  /** The job an admission step inserts, if any. */
  function Entering(q: Quota.State, a: Quota.Step): Option<Quota.Request> {
    if a.Bypass? then Some(a.req) else if a.Commit? && a.x in q.txs then Some(q.txs[a.x].req) else None
  }

  ghost predicate Admits(w: Whole, a: Quota.Step, w': Whole) {
    && Quota.Enabled(w.q, a) && !a.Write? && w'.q == Quota.Apply(w.q, a)
    && match Entering(w.q, a)
       case None => w'.sys == w.sys
       case Some(req) => Protocol.StepTo(w.sys, Protocol.SubmitJob(req.id, req.tenant, req.doc, req.conditions), w'.sys)
  }

  ghost predicate Controls(w: Whole, s: Protocol.Step, w': Whole) {
    && Protocol.StepTo(w.sys, s, w'.sys) && !s.SubmitJob?
    && var write := Protocol.WriteOf(w.sys, s);
       w'.q == if write.Some? then Quota.AfterWrite(w.q, write.value) else w.q
  }

  ghost predicate Next(w: Whole, w': Whole) {
    Admission(w, w') || exists s :: Controls(w, s, w')
  }

  ghost predicate Admission(w: Whole, w': Whole) {
    exists a :: Admits(w, a, w')
  }

  ghost predicate Linked(run: seq<Whole>, i: nat)
    requires i + 1 < |run|
  {
    Next(run[i], run[i + 1])
  }

  ghost predicate IsRun(run: seq<Whole>) {
    run != [] && Protocol.Init(run[0].sys) && Quota.Init(run[0].q) && forall i: nat :: i + 1 < |run| ==> Linked(run, i)
  }

  /** A gate-model document: the shots it reserves are the shots it sends to the adapter. */
  predicate GateModel(doc: Doc) {
    doc.gateShots == Some(doc.view.shots as real)
  }

  /** No gate-model job is ever billed shots above its reservation. */
  ghost predicate ExcessOk(db: Db, h: Quota.History) {
    && (forall i :: 0 <= i < |h.within| ==> h.within[i] in db.ledger)
    && (forall i :: 0 <= i < |h.excess| ==> Unreserved(db, h.excess[i]))
  }

  ghost predicate Unreserved(db: Db, r: LedgerRow) {
    r.jobId in db.jobs && r.tenant == db.jobs[r.jobId].tenant && !(r.unit == "shots" && GateModel(db.jobs[r.jobId].doc))
  }

  ghost predicate Inv(w: Whole) {
    Guarantees.Inv(w.sys) && Quota.Inv(w.q) && w.q.db == w.sys.db && ExcessOk(w.q.db, w.q.usage)
  }

  lemma ExcessStable(db: Db, db': Db, h: Quota.History)
    requires ExcessOk(db, h) && Guarantees.Grows(db, db')
    ensures ExcessOk(db', h)
  {
  }

  lemma AdmitsFacts(w: Whole, a: Quota.Step, w': Whole)
    requires Admits(w, a, w') && w.q.db == w.sys.db
    ensures w'.q.usage == w.q.usage && w'.q.limits == w.q.limits && w'.q.db == w'.sys.db
  {
  }

  lemma AdmitsKeeps(w: Whole, a: Quota.Step, w': Whole)
    requires Inv(w) && Admits(w, a, w')
    ensures Inv(w')
  {
    AdmitsFacts(w, a, w');
    Quota.StepKeeps(w.q, a);
    if Entering(w.q, a).Some? {
      var req := Entering(w.q, a).value;
      EntryKeeps(w, Protocol.SubmitJob(req.id, req.tenant, req.doc, req.conditions), w'.sys);
    }
  }

  lemma EntryKeeps(w: Whole, s: Protocol.Step, sys': Protocol.System)
    requires Guarantees.Inv(w.sys) && w.q.db == w.sys.db && ExcessOk(w.q.db, w.q.usage)
    requires Protocol.StepTo(w.sys, s, sys')
    ensures Guarantees.Inv(sys') && ExcessOk(sys'.db, w.q.usage)
  {
    Guarantees.StepMoves(w.sys, s, sys');
    Guarantees.StepKeeps(w.sys, s, sys');
    ExcessStable(w.q.db, sys'.db, w.q.usage);
  }

  /** The rows the protocol writes belong to their job and bill its declared shots, or one task. */
  lemma RowBelongs(sys: Protocol.System, row: LedgerRow)
    requires Guarantees.Inv(sys) && Guarantees.RowOk(sys.db, sys.eng, row)
    ensures Quota.Belongs(sys.db, RecordStep(row)) && row.jobId in sys.db.jobs
    ensures row.tenant == sys.db.jobs[row.jobId].tenant
    ensures row.unit == "shots" ==> row.amount == sys.db.jobs[row.jobId].doc.view.shots as real
  {
    var usage := Guarantees.RowUsage(sys.db, sys.eng, row);
    Guarantees.InvEngineOk(sys);
    Guarantees.BilledUnits(sys.db, sys.eng, row.taskId, row.target, usage);
  }

  /** A new row is the first of its unit for its job. */
  lemma NothingReservedYet(db: Db, eng: Guarantees.Aer.Engine, h: Quota.History, row: LedgerRow)
    requires Guarantees.LedgerOk(db, eng) && Guarantees.RowOk(db, eng, row) && ExcessOk(db, h)
    requires !IsRecorded(db.ledger, row.taskId, row.unit)
    ensures Quota.Recorded(h, row.jobId, row.unit) == 0.0
  {
    forall i | 0 <= i < |h.within| ensures !Ledger.OfJob(row.jobId, row.unit)(h.within[i]) {
      var k :| 0 <= k < |db.ledger| && db.ledger[k] == h.within[i];
      assert Guarantees.RowOk(db, eng, db.ledger[k]);
    }
    Ledger.SumNone(h.within, Ledger.OfJob(row.jobId, row.unit));
  }

  lemma ClassifiedKeeps(db: Db, h: Quota.History, row: LedgerRow)
    requires ExcessOk(db, h) && row.jobId in db.jobs && row.tenant == db.jobs[row.jobId].tenant
    requires row.unit == "shots" ==> row.amount == db.jobs[row.jobId].doc.view.shots as real
    requires !IsRecorded(db.ledger, row.taskId, row.unit) && Quota.Recorded(h, row.jobId, row.unit) == 0.0
    ensures ExcessOk(RecordRow(db, row), Quota.Classified(db, h, row))
  {
  }

  lemma ControlWrites(w: Whole, s: Protocol.Step, w': Whole)
    requires Inv(w) && Controls(w, s, w') && Protocol.WriteOf(w.sys, s).Some?
    ensures Quota.Enabled(w.q, Quota.Write(Protocol.WriteOf(w.sys, s).value))
    ensures ExcessOk(w'.q.db, w'.q.usage)
  {
    var write := Protocol.WriteOf(w.sys, s).value;
    Guarantees.StepSanctioned(w.sys, s);
    OnlyAdmissionInserts(w.sys, s);
    if write.RecordStep? {
      RowBelongs(w.sys, write.row);
    }
    if Quota.IsNew(w.q.db, write) {
      NothingReservedYet(w.sys.db, w.sys.eng, w.q.usage, write.row);
      ClassifiedKeeps(w.sys.db, w.q.usage, write.row);
    } else {
      Guarantees.WriteGrows(w.q.db, write);
      ExcessStable(w.q.db, w'.q.db, w.q.usage);
    }
  }

  lemma OnlyAdmissionInserts(sys: Protocol.System, s: Protocol.Step)
    requires Protocol.Enabled(sys, s) && !s.SubmitJob? && Protocol.WriteOf(sys, s).Some?
    ensures !Protocol.WriteOf(sys, s).value.InsertStep?
  {
  }

  lemma ControlsKeeps(w: Whole, s: Protocol.Step, w': Whole)
    requires Inv(w) && Controls(w, s, w')
    ensures Inv(w')
  {
    Guarantees.StepKeeps(w.sys, s, w'.sys);
    if Protocol.WriteOf(w.sys, s).Some? {
      ControlWrites(w, s, w');
      Quota.StepKeeps(w.q, Quota.Write(Protocol.WriteOf(w.sys, s).value));
    }
  }

  lemma InitInv(w: Whole)
    requires Protocol.Init(w.sys) && Quota.Init(w.q)
    ensures Inv(w)
  {
    Guarantees.InitInv(w.sys);
    Quota.InitInv(w.q);
  }

  /** A property of whole states that every step keeps. */
  ghost predicate Kept(r: Whole -> bool) {
    forall a, b :: r(a) && Next(a, b) ==> r(b)
  }

  lemma {:induction false} RunKeeps(r: Whole -> bool, run: seq<Whole>, i: nat)
    requires Kept(r) && IsRun(run) && r(run[0]) && i < |run|
    ensures r(run[i])
  {
    if i > 0 {
      RunKeeps(r, run, i - 1);
      RunNext(run, i - 1);
    }
  }

  lemma RunInvariant(run: seq<Whole>, i: nat)
    requires IsRun(run) && i < |run|
    ensures Inv(run[i]) && run[i].q.limits == run[0].q.limits
  {
    var limits := run[0].q.limits;
    var r := (w: Whole) => Inv(w) && w.q.limits == limits;
    forall a, b | r(a) && Next(a, b) ensures r(b) {
      NextKeeps(a, b);
    }
    InitInv(run[0]);
    RunKeeps(r, run, i);
  }

  lemma RunNext(run: seq<Whole>, i: nat)
    requires IsRun(run) && i + 1 < |run|
    ensures Next(run[i], run[i + 1])
  {
    assert Linked(run, i);
  }

  lemma NextKeeps(w: Whole, w': Whole)
    requires Inv(w) && Next(w, w')
    ensures Inv(w') && w'.q.limits == w.q.limits
  {
    if Admission(w, w') {
      AdmissionKeeps(w, w');
    } else {
      var s :| Controls(w, s, w');
      ControlsKeeps(w, s, w');
    }
  }

  lemma AdmissionKeeps(w: Whole, w': Whole)
    requires Inv(w) && Admission(w, w')
    ensures Inv(w') && w'.q.limits == w.q.limits
  {
    var a :| Admits(w, a, w');
    AdmitsKeeps(w, a, w');
    AdmitsFacts(w, a, w');
  }

  lemma NextSplits(w: Whole, w': Whole, tenant: string, unit: string)
    requires Inv(w) && Next(w, w') && Quota.SplitAt(w.q, tenant, unit)
    ensures Quota.SplitAt(w'.q, tenant, unit)
  {
    if Admission(w, w') {
      var a :| Admits(w, a, w');
      Quota.StepSplits(w.q, a, tenant, unit);
    } else {
      var s :| Controls(w, s, w');
      ControlSplits(w, s, w', tenant, unit);
    }
  }

  lemma ControlSplits(w: Whole, s: Protocol.Step, w': Whole, tenant: string, unit: string)
    requires Inv(w) && Controls(w, s, w') && Quota.SplitAt(w.q, tenant, unit)
    ensures Quota.SplitAt(w'.q, tenant, unit)
  {
    if Protocol.WriteOf(w.sys, s).Some? {
      ControlWrites(w, s, w');
      Quota.WriteSplits(w.q, Protocol.WriteOf(w.sys, s).value, tenant, unit);
    }
  }

  lemma RunSplits(run: seq<Whole>, i: nat, tenant: string, unit: string)
    requires IsRun(run) && i < |run|
    ensures Quota.SplitAt(run[i].q, tenant, unit)
  {
    var r := (w: Whole) => Inv(w) && Quota.SplitAt(w.q, tenant, unit);
    forall a, b | r(a) && Next(a, b) ensures r(b) {
      NextKeeps(a, b);
      NextSplits(a, b, tenant, unit);
    }
    InitInv(run[0]);
    RunKeeps(r, run, i);
  }

  /**
   The end-to-end quota theorem. Whatever the submitters, dispatchers, cancels, crashes and the adapter do: a tenant of
   gate-model jobs is never billed more shots than its limit, plus the shots billed for jobs that had already ended
   when their usage arrived, plus the demand of jobs inserted past the check; its bill is exactly the shots within its
   reservations plus the late ones. That usage stays within what a job declared is not assumed; the engine guarantees
   it.
   */
  lemma TenantsStayWithinQuota(run: seq<Whole>, i: nat, tenant: string)
    requires IsRun(run) && i < |run| && (tenant, "shots") in run[0].q.limits
    requires forall id :: id in run[i].sys.db.jobs && run[i].sys.db.jobs[id].tenant == tenant ==>
               GateModel(run[i].sys.db.jobs[id].doc)
    ensures Quota.Spent(run[i].sys.db, tenant, "shots") <= run[0].q.limits[(tenant, "shots")]
              + Quota.Late(run[i].q, tenant, "shots") + Quota.Bypassed(run[i].q, tenant, "shots")
    ensures Quota.Spent(run[i].sys.db, tenant, "shots")
              == Quota.Within(run[i].q, tenant, "shots") + Quota.Late(run[i].q, tenant, "shots")
  {
    RunInvariant(run, i);
    RunSplits(run, i, tenant, "shots");
    Quota.SpentWithin(run[i].q, tenant, "shots");
    NoExcess(run[i].q, tenant);
  }

  lemma NoExcess(q: Quota.State, tenant: string)
    requires ExcessOk(q.db, q.usage)
    requires forall id :: id in q.db.jobs && q.db.jobs[id].tenant == tenant ==> GateModel(q.db.jobs[id].doc)
    ensures Quota.Excess(q, tenant, "shots") == 0.0
  {
    forall i | 0 <= i < |q.usage.excess| ensures !Ledger.OfTenant(tenant, "shots")(q.usage.excess[i]) {
      assert Unreserved(q.db, q.usage.excess[i]);
    }
    Ledger.SumNone(q.usage.excess, Ledger.OfTenant(tenant, "shots"));
  }
}
