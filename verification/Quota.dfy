/**
 Quota admission (internal/store/tenancy.go): any number of concurrent InsertJobWithQuota transactions,
 interleaved statement by statement with every other writer of the tables.
 */
module Quota {
  import opened Common
  import opened Phases
  import opened Tables
  import Audit
  import opened Ledger

  // ---- declared demand ----

  /** declaredCosts: what the API asks for. */
  function Costs(doc: Doc): map<string, real> {
    if doc.gateShots.Some? && doc.gateShots.value > 0.0 then map["shots" := doc.gateShots.value] else map[]
  }

  /** declared_cost: what the SQL reserves for a job in flight. */
  function DeclaredCost(doc: Doc, unit: string): real {
    if unit == "shots" && doc.gateShots.Some? then doc.gateShots.value else 0.0
  }

  function CostOf(doc: Doc, unit: string): real {
    if unit in Costs(doc) then Costs(doc)[unit] else 0.0
  }

  predicate DocOk(doc: Doc) {
    doc.gateShots.Some? ==> doc.gateShots.value >= 0.0
  }

  /** The two definitions of demand agree on every unit exactly for documents without negative shots. */
  lemma CostsAgreeIff(doc: Doc)
    ensures (forall unit :: CostOf(doc, unit) == DeclaredCost(doc, unit)) <==> DocOk(doc)
  {
    assert CostOf(doc, "shots") == DeclaredCost(doc, "shots") <==> DocOk(doc);
  }

  // ---- what the transaction reads ----

  predicate Live(row: JobRow) {
    !(row.phase.Succeeded? || row.phase.Failed? || row.phase.Cancelled?)
  }

  function Reserved(db: Db, tenant: string, unit: string): JobId -> real {
    (id: JobId) =>
      if id in db.jobs && db.jobs[id].tenant == tenant && Live(db.jobs[id]) then DeclaredCost(db.jobs[id].doc, unit)
      else 0.0
  }

  function Spent(db: Db, tenant: string, unit: string): real {
    SumWhere(db.ledger, OfTenant(tenant, unit))
  }

  /** The committed usage the quota check compares: the ledger plus the demand of non-terminal jobs. */
  function Committed(db: Db, tenant: string, unit: string): real {
    Spent(db, tenant, unit) + Sum(db.order, Reserved(db, tenant, unit))
  }

  // ---- the transition system ----

  type TxId = nat

  datatype Request = Request(id: JobId, tenant: string, doc: Doc, conditions: seq<Condition>)

  /** An open transaction: units still to check, quota rows it has locked, committed usage it has read. */
  datatype Tx = Tx(req: Request, todo: set<string>, held: set<string>, seen: map<string, real>)

  datatype Rejection = Rejection(tenant: string, unit: string, requested: real, committed: real)

  /**
   The ledger rows by what they were when written: within the job's reservation, above it, or after the job had ended.
   */
  datatype History = History(within: seq<LedgerRow>, excess: seq<LedgerRow>, late: seq<LedgerRow>)

  /** `usage`, `bypassed` (jobs inserted without a quota check, as the probe does) and `rejected` are history. */
  datatype State = State(db: Db, limits: map<(string, string), real>, txs: map<TxId, Tx>,
                         usage: History, bypassed: seq<JobId>, rejected: seq<Rejection>)

  datatype Step =
    | Begin(x: TxId, req: Request)
    | Skip(x: TxId, unit: string)
    | Lock(x: TxId, unit: string)
    | Check(x: TxId, unit: string)
    | Commit(x: TxId)
    | Abort(x: TxId)
    | Bypass(req: Request)
    | Write(w: Tables.Step)

  ghost predicate LockFree(s: State, tenant: string, unit: string) {
    forall y :: y in s.txs && s.txs[y].req.tenant == tenant ==> unit !in s.txs[y].held
  }

  predicate IsNew(db: Db, w: Tables.Step) {
    w.RecordStep? && !IsRecorded(db.ledger, w.row.taskId, w.row.unit)
  }

  /** A usage row is not negative and carries the tenant of its job. */
  predicate Belongs(db: Db, w: Tables.Step) {
    IsNew(db, w) ==> w.row.amount >= 0.0 && w.row.jobId in db.jobs && db.jobs[w.row.jobId].tenant == w.row.tenant
  }

  ghost predicate Enabled(s: State, a: Step) {
    match a
    case Begin(x, req) => x !in s.txs && DocOk(req.doc)
    case Skip(x, unit) => x in s.txs && unit in s.txs[x].todo && (s.txs[x].req.tenant, unit) !in s.limits
    case Lock(x, unit) =>
      && x in s.txs && unit in s.txs[x].todo && (s.txs[x].req.tenant, unit) in s.limits
      && LockFree(s, s.txs[x].req.tenant, unit)
    case Check(x, unit) =>
      x in s.txs && unit in s.txs[x].todo && unit in s.txs[x].held
      && (s.txs[x].req.tenant, unit) in s.limits
    case Commit(x) => x in s.txs && s.txs[x].todo == {}
    case Abort(x) => true
    case Bypass(req) => DocOk(req.doc)
    case Write(w) => Allowed(w) && !w.InsertStep? && Belongs(s.db, w)
  }

  function AfterCheck(s: State, x: TxId, unit: string): State
    requires x in s.txs && (s.txs[x].req.tenant, unit) in s.limits
  {
    var tx := s.txs[x];
    var committed := Committed(s.db, tx.req.tenant, unit);
    var requested := CostOf(tx.req.doc, unit);
    if committed + requested > s.limits[(tx.req.tenant, unit)] then
      s.(txs := s.txs - {x}, rejected := s.rejected + [Rejection(tx.req.tenant, unit, requested, committed)])
    else s.(txs := s.txs[x := tx.(todo := tx.todo - {unit}, seen := tx.seen[unit := committed])])
  }

  function Inserted(db: Db, req: Request): Db {
    OrElse(Insert(db, req.id, req.tenant, req.doc, req.conditions), db)
  }

  /** Usage a job has recorded within its reservation. */
  function Recorded(h: History, id: JobId, unit: string): real {
    SumWhere(h.within, OfJob(id, unit))
  }

  function Classified(db: Db, h: History, row: LedgerRow): History {
    if row.jobId !in db.jobs then h
    else if !Live(db.jobs[row.jobId]) then h.(late := h.late + [row])
    else if Recorded(h, row.jobId, row.unit) + row.amount <= DeclaredCost(db.jobs[row.jobId].doc, row.unit) then
      h.(within := h.within + [row])
    else h.(excess := h.excess + [row])
  }

  function AfterWrite(s: State, w: Tables.Step): State {
    s.(db := Tables.Apply(s.db, w), usage := if IsNew(s.db, w) then Classified(s.db, s.usage, w.row) else s.usage)
  }

  function Apply(s: State, a: Step): State
    requires Enabled(s, a)
  {
    match a
    case Begin(x, req) => s.(txs := s.txs[x := Tx(req, Costs(req.doc).Keys, {}, map[])])
    case Skip(x, unit) => s.(txs := s.txs[x := s.txs[x].(todo := s.txs[x].todo - {unit})])
    case Lock(x, unit) => s.(txs := s.txs[x := s.txs[x].(held := s.txs[x].held + {unit})])
    case Check(x, unit) => AfterCheck(s, x, unit)
    case Commit(x) => s.(db := Inserted(s.db, s.txs[x].req), txs := s.txs - {x})
    case Abort(x) => s.(txs := s.txs - {x})
    case Bypass(req) =>
      s.(db := Inserted(s.db, req), bypassed := if req.id in s.db.jobs then s.bypassed else s.bypassed + [req.id])
    case Write(w) => AfterWrite(s, w)
  }

  // ---- the quantity that never exceeds the limit ----

  /** What a job in flight may still record. */
  function Open(db: Db, h: History, tenant: string, unit: string): JobId -> real {
    (id: JobId) =>
      if id in db.jobs && db.jobs[id].tenant == tenant && Live(db.jobs[id]) then
        DeclaredCost(db.jobs[id].doc, unit) - Recorded(h, id, unit)
      else 0.0
  }

  function Demand(db: Db, tenant: string, unit: string): JobId -> real {
    (id: JobId) => if id in db.jobs && db.jobs[id].tenant == tenant then DeclaredCost(db.jobs[id].doc, unit) else 0.0
  }

  function Late(s: State, tenant: string, unit: string): real {
    SumWhere(s.usage.late, OfTenant(tenant, unit))
  }

  function Within(s: State, tenant: string, unit: string): real {
    SumWhere(s.usage.within, OfTenant(tenant, unit))
  }

  function Excess(s: State, tenant: string, unit: string): real {
    SumWhere(s.usage.excess, OfTenant(tenant, unit))
  }

  function Bypassed(s: State, tenant: string, unit: string): real {
    Sum(s.bypassed, Demand(s.db, tenant, unit))
  }

  function Exposure(s: State, tenant: string, unit: string): real {
    Spent(s.db, tenant, unit) + Sum(s.db.order, Open(s.db, s.usage, tenant, unit))
    - Late(s, tenant, unit) - Excess(s, tenant, unit) - Bypassed(s, tenant, unit)
  }

  // ---- invariants ----

  ghost predicate RowsOk(db: Db, rows: seq<LedgerRow>) {
    forall i :: 0 <= i < |rows| ==> rows[i].amount >= 0.0 && rows[i].jobId in db.jobs
  }

  ghost predicate JobFits(db: Db, h: History, id: JobId)
    requires id in db.jobs
  {
    && DocOk(db.jobs[id].doc)
    && (Live(db.jobs[id]) ==> forall unit :: Recorded(h, id, unit) <= DeclaredCost(db.jobs[id].doc, unit))
  }

  ghost predicate TablesOk(db: Db, h: History) {
    && Audit.Distinct(db.order) && (forall id :: id in db.order <==> id in db.jobs)
    && RowsOk(db, h.within) && RowsOk(db, h.excess) && RowsOk(db, h.late)
    && (forall id :: id in db.jobs ==> JobFits(db, h, id))
  }

  ghost predicate BypassOk(s: State) {
    forall i :: 0 <= i < |s.bypassed| ==> s.bypassed[i] in s.db.jobs
  }

  /** A transaction checked every limited unit it costs, and holds the locks of those it has read. */
  ghost predicate TxOk(s: State, x: TxId)
    requires x in s.txs
  {
    var tx := s.txs[x];
    && DocOk(tx.req.doc)
    && (forall unit :: unit in tx.seen ==> unit in tx.held)
    && (forall unit :: unit in Costs(tx.req.doc) && (tx.req.tenant, unit) in s.limits ==>
          unit in tx.todo || unit in tx.seen)
  }

  ghost predicate LocksExclusive(s: State) {
    forall x, y, unit :: x in s.txs && y in s.txs && unit in s.txs[x].held && unit in s.txs[y].held ==>
      s.txs[x].req.tenant == s.txs[y].req.tenant ==> x == y
  }

  /** The exposure stays within the limit, and what a transaction has read is an upper bound of it. */
  ghost predicate WithinLimit(s: State, tenant: string, unit: string)
    requires (tenant, unit) in s.limits
  {
    && Exposure(s, tenant, unit) <= s.limits[(tenant, unit)]
    && (forall x :: x in s.txs && s.txs[x].req.tenant == tenant && unit in s.txs[x].seen ==>
          && Exposure(s, tenant, unit) <= s.txs[x].seen[unit]
          && s.txs[x].seen[unit] + CostOf(s.txs[x].req.doc, unit) <= s.limits[(tenant, unit)])
  }

  ghost predicate Inv(s: State) {
    && TablesOk(s.db, s.usage) && BypassOk(s)
    && (forall x :: x in s.txs ==> TxOk(s, x))
    && LocksExclusive(s)
    && (forall tenant, unit :: (tenant, unit) in s.limits ==> WithinLimit(s, tenant, unit))
  }

  const NOTHING := History([], [], [])

  ghost predicate Init(s: State) {
    && s.db == Audit.EMPTY && s.txs == map[] && s.usage == NOTHING && s.bypassed == [] && s.rejected == []
    && forall k :: k in s.limits ==> s.limits[k] >= 0.0
  }

  // ---- how the exposure moves ----

  lemma UnbornUnrecorded(db: Db, h: History, id: JobId, unit: string)
    requires id !in db.jobs && RowsOk(db, h.within)
    ensures Recorded(h, id, unit) == 0.0
  {
    SumNone(h.within, OfJob(id, unit));
  }

  /** An insert adds exactly the declared demand to the open amounts and the reservations of its tenant. */
  lemma InsertMoves(db: Db, h: History, req: Request, tenant: string, unit: string)
    requires TablesOk(db, h) && req.id !in db.jobs
    ensures Spent(Inserted(db, req), tenant, unit) == Spent(db, tenant, unit)
    ensures var d := if req.tenant == tenant then DeclaredCost(req.doc, unit) else 0.0;
            && Sum(Inserted(db, req).order, Open(Inserted(db, req), h, tenant, unit))
               == Sum(db.order, Open(db, h, tenant, unit)) + d
            && Sum(Inserted(db, req).order, Reserved(Inserted(db, req), tenant, unit))
               == Sum(db.order, Reserved(db, tenant, unit)) + d
  {
    var db' := Inserted(db, req);
    UnbornUnrecorded(db, h, req.id, unit);
    SumOneMore(db.order, req.id, Open(db, h, tenant, unit), Open(db', h, tenant, unit));
    SumOneMore(db.order, req.id, Reserved(db, tenant, unit), Reserved(db', tenant, unit));
  }

  lemma InsertTables(db: Db, h: History, req: Request)
    requires TablesOk(db, h) && DocOk(req.doc) && req.id !in db.jobs
    ensures TablesOk(Inserted(db, req), h)
  {
    var db' := Inserted(db, req);
    forall id | id in db'.jobs ensures JobFits(db', h, id) {
      if id == req.id {
        forall unit ensures Recorded(h, id, unit) <= DeclaredCost(req.doc, unit) {
          UnbornUnrecorded(db, h, id, unit);
        }
      } else {
        assert JobFits(db, h, id);
      }
    }
  }

  /** What a write other than an insert or a new usage row does to the jobs. */
  lemma OtherWrites(db: Db, w: Tables.Step)
    requires Allowed(w) && !w.InsertStep? && !IsNew(db, w)
    ensures Tables.Apply(db, w).ledger == db.ledger && Tables.Apply(db, w).order == db.order
    ensures Tables.Apply(db, w).jobs.Keys == db.jobs.Keys
    ensures forall id :: id in db.jobs ==>
              && Tables.Apply(db, w).jobs[id].tenant == db.jobs[id].tenant
              && Tables.Apply(db, w).jobs[id].doc == db.jobs[id].doc
              && (Live(Tables.Apply(db, w).jobs[id]) ==> Live(db.jobs[id]))
  {
  }

  lemma OtherWritesMove(db: Db, h: History, w: Tables.Step, tenant: string, unit: string)
    requires TablesOk(db, h) && Allowed(w) && !w.InsertStep? && !IsNew(db, w)
    ensures Spent(Tables.Apply(db, w), tenant, unit) == Spent(db, tenant, unit)
    ensures Sum(Tables.Apply(db, w).order, Open(Tables.Apply(db, w), h, tenant, unit))
              <= Sum(db.order, Open(db, h, tenant, unit))
  {
    var db' := Tables.Apply(db, w);
    OtherWrites(db, w);
    forall i | 0 <= i < |db.order|
      ensures Open(db', h, tenant, unit)(db.order[i]) <= Open(db, h, tenant, unit)(db.order[i])
    {
      assert JobFits(db, h, db.order[i]);
    }
    SumMonotone(db.order, Open(db', h, tenant, unit), Open(db, h, tenant, unit));
  }

  lemma OtherWritesKeep(db: Db, h: History, w: Tables.Step)
    requires TablesOk(db, h) && Allowed(w) && !w.InsertStep? && !IsNew(db, w)
    ensures TablesOk(Tables.Apply(db, w), h)
  {
    var db' := Tables.Apply(db, w);
    OtherWrites(db, w);
    forall id | id in db'.jobs ensures JobFits(db', h, id) {
      assert JobFits(db, h, id);
    }
  }

  ghost predicate NewRow(db: Db, row: LedgerRow) {
    IsNew(db, RecordStep(row)) && Belongs(db, RecordStep(row))
  }

  /** A new usage row moves its amount from the open demand of its job to the ledger, or it is late or in excess. */
  lemma RecordMoves(db: Db, h: History, row: LedgerRow, tenant: string, unit: string)
    requires TablesOk(db, h) && NewRow(db, row)
    ensures var h' := Classified(db, h, row);
            && Spent(RecordRow(db, row), tenant, unit)
               == Spent(db, tenant, unit) + (if OfTenant(tenant, unit)(row) then row.amount else 0.0)
            && Spent(RecordRow(db, row), tenant, unit) + Sum(db.order, Open(RecordRow(db, row), h', tenant, unit))
               - SumWhere(h'.late, OfTenant(tenant, unit)) - SumWhere(h'.excess, OfTenant(tenant, unit))
            <= Spent(db, tenant, unit) + Sum(db.order, Open(db, h, tenant, unit))
               - SumWhere(h.late, OfTenant(tenant, unit)) - SumWhere(h.excess, OfTenant(tenant, unit))
  {
    SumAppend(db.ledger, row, OfTenant(tenant, unit));
    SumAppend(h.late, row, OfTenant(tenant, unit));
    SumAppend(h.excess, row, OfTenant(tenant, unit));
    RecordOpens(db, h, row, tenant, unit);
  }

  lemma RecordOpens(db: Db, h: History, row: LedgerRow, tenant: string, unit: string)
    requires TablesOk(db, h) && NewRow(db, row)
    ensures Sum(db.order, Open(RecordRow(db, row), Classified(db, h, row), tenant, unit))
              <= Sum(db.order, Open(db, h, tenant, unit))
              - if OfTenant(tenant, unit)(row) && Classified(db, h, row).within != h.within then row.amount else 0.0
  {
    var db', h' := RecordRow(db, row), Classified(db, h, row);
    var moved := if OfTenant(tenant, unit)(row) && h'.within != h.within then row.amount else 0.0;
    forall i | 0 <= i < |db.order| && db.order[i] != row.jobId
      ensures Open(db', h', tenant, unit)(db.order[i]) <= Open(db, h, tenant, unit)(db.order[i])
    {
      SumAppend(h.within, row, OfJob(db.order[i], unit));
    }
    SumAppend(h.within, row, OfJob(row.jobId, unit));
    SumShift(db.order, Open(db, h, tenant, unit), Open(db', h', tenant, unit), row.jobId, -moved);
  }

  lemma RecordKeeps(db: Db, h: History, row: LedgerRow)
    requires TablesOk(db, h) && NewRow(db, row)
    ensures TablesOk(RecordRow(db, row), Classified(db, h, row))
  {
  }

  lemma BypassedStable(s: State, db': Db, tenant: string, unit: string)
    requires BypassOk(s)
    requires forall id :: id in s.db.jobs ==>
               id in db'.jobs && db'.jobs[id].tenant == s.db.jobs[id].tenant && db'.jobs[id].doc == s.db.jobs[id].doc
    ensures Sum(s.bypassed, Demand(db', tenant, unit)) == Sum(s.bypassed, Demand(s.db, tenant, unit))
  {
    SumMonotone(s.bypassed, Demand(s.db, tenant, unit), Demand(db', tenant, unit));
    SumMonotone(s.bypassed, Demand(db', tenant, unit), Demand(s.db, tenant, unit));
  }

  /** No write other than an admission raises any exposure. */
  lemma WriteLowers(s: State, w: Tables.Step, tenant: string, unit: string)
    requires TablesOk(s.db, s.usage) && BypassOk(s) && Enabled(s, Write(w))
    ensures Exposure(AfterWrite(s, w), tenant, unit) <= Exposure(s, tenant, unit)
  {
    WriteRows(s, w);
    BypassedStable(s, AfterWrite(s, w).db, tenant, unit);
    if IsNew(s.db, w) {
      assert NewRow(s.db, w.row);
      RecordMoves(s.db, s.usage, w.row, tenant, unit);
    } else {
      OtherWritesMove(s.db, s.usage, w, tenant, unit);
    }
  }

  lemma WriteRows(s: State, w: Tables.Step)
    requires Enabled(s, Write(w))
    ensures forall id :: id in s.db.jobs ==>
              && id in AfterWrite(s, w).db.jobs && AfterWrite(s, w).db.jobs[id].tenant == s.db.jobs[id].tenant
              && AfterWrite(s, w).db.jobs[id].doc == s.db.jobs[id].doc
  {
    if !IsNew(s.db, w) {
      OtherWrites(s.db, w);
    }
  }

  lemma WriteKeepsTables(s: State, w: Tables.Step)
    requires TablesOk(s.db, s.usage) && BypassOk(s) && Enabled(s, Write(w))
    ensures TablesOk(AfterWrite(s, w).db, AfterWrite(s, w).usage) && BypassOk(AfterWrite(s, w))
  {
    WriteRows(s, w);
    if IsNew(s.db, w) {
      assert NewRow(s.db, w.row);
      RecordKeeps(s.db, s.usage, w.row);
    } else {
      OtherWritesKeep(s.db, s.usage, w);
    }
  }

  /** What a transaction reads is at least the exposure. */
  lemma CommittedCovers(s: State, tenant: string, unit: string)
    requires TablesOk(s.db, s.usage) && BypassOk(s)
    ensures Exposure(s, tenant, unit) <= Committed(s.db, tenant, unit)
  {
    forall i | 0 <= i < |s.db.order|
      ensures Open(s.db, s.usage, tenant, unit)(s.db.order[i]) <= Reserved(s.db, tenant, unit)(s.db.order[i])
    {
      SumNonNegative(s.usage.within, OfJob(s.db.order[i], unit));
    }
    SumMonotone(s.db.order, Open(s.db, s.usage, tenant, unit), Reserved(s.db, tenant, unit));
    HistoryNonNegative(s, tenant, unit);
  }

  lemma HistoryNonNegative(s: State, tenant: string, unit: string)
    requires TablesOk(s.db, s.usage) && BypassOk(s)
    ensures Late(s, tenant, unit) >= 0.0 && Excess(s, tenant, unit) >= 0.0 && Bypassed(s, tenant, unit) >= 0.0
  {
    SumNonNegative(s.usage.late, OfTenant(tenant, unit));
    SumNonNegative(s.usage.excess, OfTenant(tenant, unit));
    forall i | 0 <= i < |s.bypassed| ensures Demand(s.db, tenant, unit)(s.bypassed[i]) >= 0.0 {
      assert JobFits(s.db, s.usage, s.bypassed[i]);
    }
    SumZeroOrMore(s.bypassed, Demand(s.db, tenant, unit));
  }

  // ---- every step keeps the invariant ----

  /** Steps that leave the tables and the history alone and add no reading. */
  ghost predicate Quiet(s: State, s': State) {
    && s'.db == s.db && s'.limits == s.limits && s'.usage == s.usage && s'.bypassed == s.bypassed
    && (forall x :: x in s'.txs && s'.txs[x].seen != map[] ==>
          x in s.txs && s'.txs[x].req == s.txs[x].req && s'.txs[x].seen == s.txs[x].seen)
  }

  lemma QuietKeeps(s: State, s': State)
    requires Inv(s) && Quiet(s, s')
    ensures TablesOk(s'.db, s'.usage) && BypassOk(s')
    ensures forall tenant, unit :: (tenant, unit) in s'.limits ==> WithinLimit(s', tenant, unit)
  {
  }

  lemma TxStepsKeep(s: State, a: Step)
    requires Inv(s) && Enabled(s, a) && (a.Begin? || a.Skip? || a.Lock? || a.Abort?)
    ensures Inv(Apply(s, a))
  {
    var s' := Apply(s, a);
    TxStepsQuiet(s, a);
    QuietKeeps(s, s');
    forall x | x in s'.txs ensures TxOk(s', x) {
      assert x in s.txs ==> TxOk(s, x);
      TxStepsTx(s, a, x);
    }
  }

  lemma TxStepsTx(s: State, a: Step, x: TxId)
    requires Enabled(s, a) && (a.Begin? || a.Skip? || a.Lock? || a.Abort?)
    requires x in Apply(s, a).txs && (x in s.txs ==> TxOk(s, x))
    ensures TxOk(Apply(s, a), x)
  {
  }

  lemma TxStepsQuiet(s: State, a: Step)
    requires LocksExclusive(s) && Enabled(s, a) && (a.Begin? || a.Skip? || a.Lock? || a.Abort?)
    ensures Quiet(s, Apply(s, a)) && LocksExclusive(Apply(s, a))
  {
  }

  lemma CheckKeeps(s: State, x: TxId, unit: string)
    requires Inv(s) && Enabled(s, Check(x, unit))
    ensures Inv(AfterCheck(s, x, unit))
  {
    var s' := AfterCheck(s, x, unit);
    forall y | y in s'.txs ensures TxOk(s', y) {
      assert TxOk(s, y);
    }
    forall t, u | (t, u) in s'.limits ensures WithinLimit(s', t, u) {
      assert WithinLimit(s, t, u);
      CheckWithin(s, x, unit, t, u);
    }
  }

  lemma CheckWithin(s: State, x: TxId, unit: string, t: string, u: string)
    requires Enabled(s, Check(x, unit)) && TablesOk(s.db, s.usage) && BypassOk(s) && (t, u) in s.limits
    requires WithinLimit(s, t, u)
    ensures WithinLimit(AfterCheck(s, x, unit), t, u)
  {
    assert Exposure(AfterCheck(s, x, unit), t, u) == Exposure(s, t, u);
    CommittedCovers(s, t, u);
  }

  /** An admission raises the exposure of its tenant by its declared demand. */
  lemma AdmitMoves(s: State, req: Request, bypassed: seq<JobId>, tenant: string, unit: string)
    requires TablesOk(s.db, s.usage) && BypassOk(s) && DocOk(req.doc) && req.id !in s.db.jobs
    requires bypassed == s.bypassed || bypassed == s.bypassed + [req.id]
    ensures TablesOk(Inserted(s.db, req), s.usage)
    ensures var s' := s.(db := Inserted(s.db, req), bypassed := bypassed);
            && BypassOk(s')
            && Exposure(s', tenant, unit) == Exposure(s, tenant, unit)
               + if req.tenant == tenant && bypassed == s.bypassed then DeclaredCost(req.doc, unit) else 0.0
  {
    var db' := Inserted(s.db, req);
    InsertMoves(s.db, s.usage, req, tenant, unit);
    InsertTables(s.db, s.usage, req);
    BypassedStable(s, db', tenant, unit);
    SumJobsAppend(s.bypassed, req.id, Demand(db', tenant, unit));
  }

  lemma CommitKeeps(s: State, x: TxId)
    requires Inv(s) && Enabled(s, Commit(x))
    ensures Inv(Apply(s, Commit(x)))
  {
    var s', req := Apply(s, Commit(x)), s.txs[x].req;
    assert TxOk(s, x);
    forall y | y in s'.txs ensures TxOk(s', y) {
      assert TxOk(s, y);
    }
    if req.id in s.db.jobs {
      QuietKeeps(s, s');
    } else {
      InsertTables(s.db, s.usage, req);
      AdmitMoves(s, req, s.bypassed, "", "");
      forall t, u | (t, u) in s'.limits ensures WithinLimit(s', t, u) {
        assert WithinLimit(s, t, u);
        CommitWithin(s, x, t, u);
      }
    }
  }

  /**
   The committing transaction holds the lock of every limited unit it costs, so nobody else's reading is disturbed.
   */
  lemma CommitWithin(s: State, x: TxId, t: string, u: string)
    requires Enabled(s, Commit(x)) && TxOk(s, x) && s.txs[x].req.id !in s.db.jobs
    requires TablesOk(s.db, s.usage) && BypassOk(s) && LocksExclusive(s) && (t, u) in s.limits && WithinLimit(s, t, u)
    requires forall y :: y in s.txs ==> TxOk(s, y)
    ensures WithinLimit(Apply(s, Commit(x)), t, u)
  {
    var s', req := Apply(s, Commit(x)), s.txs[x].req;
    CommitMoves(s, x, t, u);
    if req.tenant == t && u in Costs(req.doc) {
      forall y | y in s'.txs && s.txs[y].req.tenant == t ensures u !in s.txs[y].seen {
        assert TxOk(s, y);
      }
    }
  }

  lemma CommitMoves(s: State, x: TxId, t: string, u: string)
    requires Enabled(s, Commit(x)) && DocOk(s.txs[x].req.doc) && s.txs[x].req.id !in s.db.jobs
    requires TablesOk(s.db, s.usage) && BypassOk(s)
    ensures Exposure(Apply(s, Commit(x)), t, u) ==
            Exposure(s, t, u) + if s.txs[x].req.tenant == t then CostOf(s.txs[x].req.doc, u) else 0.0
  {
    var req := s.txs[x].req;
    AdmitMoves(s, req, s.bypassed, t, u);
    CostsAgreeIff(req.doc);
    assert CostOf(req.doc, u) == DeclaredCost(req.doc, u);
  }

  lemma BypassKeeps(s: State, req: Request)
    requires Inv(s) && DocOk(req.doc)
    ensures Inv(Apply(s, Bypass(req)))
  {
    var s' := Apply(s, Bypass(req));
    forall y | y in s'.txs ensures TxOk(s', y) {
      assert TxOk(s, y);
    }
    if req.id !in s.db.jobs {
      InsertTables(s.db, s.usage, req);
      forall t, u | (t, u) in s'.limits ensures WithinLimit(s', t, u) {
        assert WithinLimit(s, t, u);
        AdmitMoves(s, req, s'.bypassed, t, u);
      }
    }
  }

  lemma WriteKeeps(s: State, w: Tables.Step)
    requires Inv(s) && Enabled(s, Write(w))
    ensures Inv(AfterWrite(s, w))
  {
    var s' := AfterWrite(s, w);
    WriteKeepsTables(s, w);
    forall y | y in s'.txs ensures TxOk(s', y) {
      assert TxOk(s, y);
    }
    forall t, u | (t, u) in s'.limits ensures WithinLimit(s', t, u) {
      assert WithinLimit(s, t, u);
      WriteLowers(s, w, t, u);
    }
  }

  lemma StepKeeps(s: State, a: Step)
    requires Inv(s) && Enabled(s, a)
    ensures Inv(Apply(s, a))
  {
    match a
    case Check(x, unit) => CheckKeeps(s, x, unit);
    case Commit(x) => CommitKeeps(s, x);
    case Bypass(req) => BypassKeeps(s, req);
    case Write(w) => WriteKeeps(s, w);
    case _ => TxStepsKeep(s, a);
  }

  // ---- runs ----

  ghost predicate Next(s: State, s': State) {
    exists a :: Enabled(s, a) && s' == Apply(s, a)
  }

  ghost predicate Linked(run: seq<State>, i: nat)
    requires i + 1 < |run|
  {
    Next(run[i], run[i + 1])
  }

  ghost predicate IsRun(run: seq<State>) {
    run != [] && Init(run[0]) && forall i: nat :: i + 1 < |run| ==> Linked(run, i)
  }

  lemma InitInv(s: State)
    requires Init(s)
    ensures Inv(s)
  {
    forall t, u | (t, u) in s.limits ensures WithinLimit(s, t, u) {
      assert Exposure(s, t, u) == 0.0;
    }
  }

  lemma {:induction false} RunInvariant(run: seq<State>, i: nat)
    requires IsRun(run) && i < |run|
    ensures Inv(run[i]) && run[i].limits == run[0].limits
  {
    if i == 0 {
      InitInv(run[0]);
    } else {
      RunInvariant(run, i - 1);
      assert Linked(run, i - 1);
      var a :| Enabled(run[i - 1], a) && run[i] == Apply(run[i - 1], a);
      StepKeeps(run[i - 1], a);
    }
  }

  /** Nothing in the ledger is unexplained: it splits into usage within, above and after the reservations. */
  ghost predicate SplitAt(s: State, tenant: string, unit: string) {
    Spent(s.db, tenant, unit) == Within(s, tenant, unit) + Excess(s, tenant, unit) + Late(s, tenant, unit)
  }

  function Parts(h: History, f: LedgerRow -> bool): real {
    SumWhere(h.within, f) + SumWhere(h.excess, f) + SumWhere(h.late, f)
  }

  lemma ClassifiedParts(db: Db, h: History, row: LedgerRow, f: LedgerRow -> bool)
    requires row.jobId in db.jobs
    ensures Parts(Classified(db, h, row), f) == Parts(h, f) + if f(row) then row.amount else 0.0
  {
    SumAppend(h.within, row, f);
    SumAppend(h.excess, row, f);
    SumAppend(h.late, row, f);
  }

  lemma WriteSplits(s: State, w: Tables.Step, tenant: string, unit: string)
    requires Enabled(s, Write(w)) && SplitAt(s, tenant, unit)
    ensures SplitAt(AfterWrite(s, w), tenant, unit)
  {
    if IsNew(s.db, w) {
      SumAppend(s.db.ledger, w.row, OfTenant(tenant, unit));
      ClassifiedParts(s.db, s.usage, w.row, OfTenant(tenant, unit));
    } else {
      OtherWrites(s.db, w);
    }
  }

  lemma StepSplits(s: State, a: Step, tenant: string, unit: string)
    requires Enabled(s, a) && SplitAt(s, tenant, unit)
    ensures SplitAt(Apply(s, a), tenant, unit)
  {
    if a.Write? {
      WriteSplits(s, a.w, tenant, unit);
    } else {
      QuietLedger(s, a);
    }
  }

  lemma QuietLedger(s: State, a: Step)
    requires Enabled(s, a) && !a.Write?
    ensures Apply(s, a).db.ledger == s.db.ledger && Apply(s, a).usage == s.usage
  {
  }

  lemma {:induction false} LedgerSplits(run: seq<State>, i: nat, tenant: string, unit: string)
    requires IsRun(run) && i < |run|
    ensures SplitAt(run[i], tenant, unit)
  {
    if i > 0 {
      LedgerSplits(run, i - 1, tenant, unit);
      assert Linked(run, i - 1);
      var a :| Enabled(run[i - 1], a) && run[i] == Apply(run[i - 1], a);
      StepSplits(run[i - 1], a, tenant, unit);
    }
  }

  /**
   The quota theorem. Over every interleaving of submissions and writers, what a tenant has been billed never exceeds
   its limit, plus usage recorded for jobs that had already ended, plus usage above a declaration, plus the demand of
   jobs inserted past the check. The ledger splits exactly into these parts, so only the late and the excessive usage
   can overdraw: what is recorded in time and as declared stays within the limit and the bypassed demand.
   */
  lemma LedgerWithinQuota(run: seq<State>, i: nat, tenant: string, unit: string)
    requires IsRun(run) && i < |run| && (tenant, unit) in run[0].limits
    ensures Spent(run[i].db, tenant, unit) <= run[0].limits[(tenant, unit)]
              + Late(run[i], tenant, unit) + Excess(run[i], tenant, unit) + Bypassed(run[i], tenant, unit)
    ensures SplitAt(run[i], tenant, unit)
    ensures Within(run[i], tenant, unit) <= run[0].limits[(tenant, unit)] + Bypassed(run[i], tenant, unit)
    ensures Spent(run[i].db, tenant, unit) > run[0].limits[(tenant, unit)] + Bypassed(run[i], tenant, unit) ==>
              Late(run[i], tenant, unit) + Excess(run[i], tenant, unit) > 0.0
  {
    RunInvariant(run, i);
    SpentWithin(run[i], tenant, unit);
    LedgerSplits(run, i, tenant, unit);
  }

  lemma SpentWithin(s: State, tenant: string, unit: string)
    requires Inv(s) && (tenant, unit) in s.limits
    ensures Spent(s.db, tenant, unit)
              <= s.limits[(tenant, unit)] + Late(s, tenant, unit) + Excess(s, tenant, unit) + Bypassed(s, tenant, unit)
  {
    assert WithinLimit(s, tenant, unit);
    forall k | 0 <= k < |s.db.order| ensures Open(s.db, s.usage, tenant, unit)(s.db.order[k]) >= 0.0 {
      assert JobFits(s.db, s.usage, s.db.order[k]);
    }
    SumZeroOrMore(s.db.order, Open(s.db, s.usage, tenant, unit));
  }

  // ---- races admit exactly the affordable number ----

  ghost predicate SubmissionStep(s: State, s': State) {
    exists a :: Enabled(s, a) && !a.Write? && !a.Bypass? && s' == Apply(s, a)
  }

  ghost predicate LinkedBySubmission(run: seq<State>, i: nat)
    requires i + 1 < |run|
  {
    SubmissionStep(run[i], run[i + 1])
  }

  /** Any number of submissions race; nothing has executed yet. */
  ghost predicate IsRace(run: seq<State>) {
    run != [] && Init(run[0]) && forall i: nat :: i + 1 < |run| ==> LinkedBySubmission(run, i)
  }

  lemma RaceIsRun(run: seq<State>)
    requires IsRace(run)
    ensures IsRun(run)
  {
    forall i: nat | i + 1 < |run| ensures Linked(run, i) {
      assert LinkedBySubmission(run, i);
    }
  }

  ghost predicate AllLive(db: Db) {
    db.ledger == [] && forall id :: id in db.jobs ==> Live(db.jobs[id])
  }

  /** A rejected request was unaffordable when it was checked and still is. */
  ghost predicate RejectionStands(s: State, r: Rejection) {
    (r.tenant, r.unit) in s.limits && r.requested + Committed(s.db, r.tenant, r.unit) > s.limits[(r.tenant, r.unit)]
  }

  ghost predicate RaceOk(s: State) {
    && AllLive(s.db) && s.usage == NOTHING && s.bypassed == []
    && forall i :: 0 <= i < |s.rejected| ==> RejectionStands(s, s.rejected[i])
  }

  lemma RaceStep(s: State, a: Step)
    requires Inv(s) && RaceOk(s) && Enabled(s, a) && !a.Write? && !a.Bypass?
    ensures RaceOk(Apply(s, a))
  {
    var s' := Apply(s, a);
    forall i | 0 <= i < |s'.rejected| ensures RejectionStands(s', s'.rejected[i]) {
      if i < |s.rejected| {
        var r := s.rejected[i];
        assert RejectionStands(s, r);
        if a.Commit? && s.txs[a.x].req.id !in s.db.jobs {
          assert TxOk(s, a.x);
          InsertMoves(s.db, s.usage, s.txs[a.x].req, r.tenant, r.unit);
        }
      }
    }
  }

  lemma {:induction false} RaceInvariant(run: seq<State>, i: nat)
    requires IsRace(run) && i < |run|
    ensures RaceOk(run[i])
  {
    if i > 0 {
      RaceInvariant(run, i - 1);
      RaceIsRun(run);
      RunInvariant(run, i - 1);
      assert LinkedBySubmission(run, i - 1);
      var a :| Enabled(run[i - 1], a) && !a.Write? && !a.Bypass? && run[i] == Apply(run[i - 1], a);
      RaceStep(run[i - 1], a);
    }
  }

  function JobsOf(db: Db, ids: seq<JobId>, tenant: string): nat {
    if ids == [] then 0
    else JobsOf(db, ids[..|ids| - 1], tenant)
         + if ids[|ids| - 1] in db.jobs && db.jobs[ids[|ids| - 1]].tenant == tenant then 1 else 0
  }

  lemma {:induction false} UniformReservation(db: Db, ids: seq<JobId>, tenant: string, unit: string, c: real)
    requires AllLive(db) && forall id :: id in db.jobs && db.jobs[id].tenant == tenant ==>
               DeclaredCost(db.jobs[id].doc, unit) == c
    ensures Sum(ids, Reserved(db, tenant, unit)) == JobsOf(db, ids, tenant) as real * c
  {
    if ids != [] {
      UniformReservation(db, ids[..|ids| - 1], tenant, unit, c);
    }
  }

  /**
   Concurrent requests of equal cost c against one quota: the number admitted never exceeds what the limit affords, and
   as soon as one of them has been rejected it is exactly that number.
   */
  lemma RacesAdmitTheAffordableNumber(run: seq<State>, i: nat, tenant: string, unit: string, c: real)
    requires IsRace(run) && i < |run| && (tenant, unit) in run[0].limits
    requires forall id :: id in run[i].db.jobs && run[i].db.jobs[id].tenant == tenant ==>
               DeclaredCost(run[i].db.jobs[id].doc, unit) == c
    ensures var n := JobsOf(run[i].db, run[i].db.order, tenant);
            && n as real * c <= run[0].limits[(tenant, unit)]
            && ((exists r :: r in run[i].rejected && r.tenant == tenant && r.unit == unit && r.requested == c) ==>
                  run[0].limits[(tenant, unit)] < (n + 1) as real * c)
  {
    RaceWithin(run, i, tenant, unit);
    AffordableNumber(run[i], tenant, unit, c);
  }

  lemma AffordableNumber(s: State, tenant: string, unit: string, c: real)
    requires RaceOk(s) && (tenant, unit) in s.limits
    requires forall id :: id in s.db.jobs && s.db.jobs[id].tenant == tenant ==>
               DeclaredCost(s.db.jobs[id].doc, unit) == c
    requires Committed(s.db, tenant, unit) == Sum(s.db.order, Reserved(s.db, tenant, unit)) <= s.limits[(tenant, unit)]
    ensures JobsOf(s.db, s.db.order, tenant) as real * c <= s.limits[(tenant, unit)]
    ensures (exists r :: r in s.rejected && r.tenant == tenant && r.unit == unit && r.requested == c) ==>
              s.limits[(tenant, unit)] < (JobsOf(s.db, s.db.order, tenant) + 1) as real * c
  {
    UniformReservation(s.db, s.db.order, tenant, unit, c);
    OneMore(JobsOf(s.db, s.db.order, tenant), c);
    if exists r :: r in s.rejected && r.tenant == tenant && r.unit == unit && r.requested == c {
      NoRoomForOneMore(s, tenant, unit, c);
    }
  }

  lemma NoRoomForOneMore(s: State, tenant: string, unit: string, c: real)
    requires RaceOk(s) && exists r :: r in s.rejected && r.tenant == tenant && r.unit == unit && r.requested == c
    ensures (tenant, unit) in s.limits && c + Committed(s.db, tenant, unit) > s.limits[(tenant, unit)]
  {
    var r :| r in s.rejected && r.tenant == tenant && r.unit == unit && r.requested == c;
    assert RejectionStands(s, r);
  }

  lemma OneMore(n: nat, c: real)
    ensures (n + 1) as real * c == n as real * c + c
  {
  }

  lemma RaceWithin(run: seq<State>, i: nat, tenant: string, unit: string)
    requires IsRace(run) && i < |run| && (tenant, unit) in run[0].limits
    ensures var s := run[i];
            && RaceOk(s) && s.limits == run[0].limits
            && Committed(s.db, tenant, unit) == Sum(s.db.order, Reserved(s.db, tenant, unit))
            && Committed(s.db, tenant, unit) <= s.limits[(tenant, unit)]
  {
    var s := run[i];
    RaceIsRun(run);
    RunInvariant(run, i);
    RaceInvariant(run, i);
    assert WithinLimit(s, tenant, unit);
    SumMonotone(s.db.order, Reserved(s.db, tenant, unit), Open(s.db, s.usage, tenant, unit));
  }
}
