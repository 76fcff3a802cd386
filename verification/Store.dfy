/**
 The store object (internal/store/jobs.go, tasks.go, tenancy.go): each method rewrites the tables in place and is proved
 against the transaction it stands for.
 */
module Store {
  import opened Common
  import opened Phases
  import opened Tables
  import Audit
  import Quota

  // ---- reading events ----

  /** An event with its sequence number: events are numbered from 1 in append order. */
  datatype Numbered = Numbered(seqNo: nat, event: Event)

  /** Events of one job with a sequence number above `after`, in order. */
  function EventsSince(events: seq<Event>, id: JobId, after: nat): seq<Numbered> {
    if events == [] then []
    else
      var last := events[|events| - 1];
      EventsSince(events[..|events| - 1], id, after)
      + if last.jobId == id && |events| > after then [Numbered(|events|, last)] else []
  }

  /** A numbered event stands at its place in the log. */
  ghost predicate Stands(events: seq<Event>, id: JobId, after: nat, n: Numbered) {
    after < n.seqNo <= |events| && events[n.seqNo - 1] == n.event && n.event.jobId == id
  }

  /** Everything read stands in the log above the cursor, in growing order. */
  lemma {:induction false} ReadsAreSound(events: seq<Event>, id: JobId, after: nat)
    ensures forall k :: 0 <= k < |EventsSince(events, id, after)| ==>
              Stands(events, id, after, EventsSince(events, id, after)[k])
    ensures forall i, k :: 0 <= i < k < |EventsSince(events, id, after)| ==>
              EventsSince(events, id, after)[i].seqNo < EventsSince(events, id, after)[k].seqNo
  {
    if events != [] {
      var rest := events[..|events| - 1];
      ReadsAreSound(rest, id, after);
      forall k | 0 <= k < |EventsSince(events, id, after)|
        ensures Stands(events, id, after, EventsSince(events, id, after)[k])
      {
        if k < |EventsSince(rest, id, after)| {
          assert Stands(rest, id, after, EventsSince(rest, id, after)[k]);
        }
      }
    }
  }

  /** Every event of the job above the cursor is read. */
  lemma {:induction false} ReadsAreComplete(events: seq<Event>, id: JobId, after: nat, m: nat)
    requires after <= m < |events| && events[m].jobId == id
    ensures Numbered(m + 1, events[m]) in EventsSince(events, id, after)
  {
    if m < |events| - 1 {
      ReadsAreComplete(events[..|events| - 1], id, after, m);
    }
  }

  /** Nothing lies past the end of the log. */
  lemma {:induction false} NothingSince(events: seq<Event>, id: JobId, after: nat)
    requires |events| <= after
    ensures EventsSince(events, id, after) == []
  {
    if events != [] {
      NothingSince(events[..|events| - 1], id, after);
    }
  }

  /** The cursor after reading: the last sequence number read, or the old cursor. */
  function Cursor(read: seq<Numbered>, after: nat): nat {
    if read == [] then after else read[|read| - 1].seqNo
  }

  /** Reading in two steps from an append-only log skips nothing and repeats nothing. */
  lemma {:induction false} ReadsCompose(early: seq<Event>, later: seq<Event>, id: JobId, after: nat)
    requires early <= later
    ensures EventsSince(early, id, after) + EventsSince(later, id, Cursor(EventsSince(early, id, after), after))
            == EventsSince(later, id, after)
  {
    var read := EventsSince(early, id, after);
    if early == later {
      NothingNew(early, id, after);
    } else {
      var rest := later[..|later| - 1];
      assert early <= rest;
      ReadsCompose(early, rest, id, after);
      CursorWithin(early, id, after);
    }
  }

  lemma CursorWithin(events: seq<Event>, id: JobId, after: nat)
    ensures after <= Cursor(EventsSince(events, id, after), after)
    ensures Cursor(EventsSince(events, id, after), after)
              <= |events| || Cursor(EventsSince(events, id, after), after) == after
  {
  }

  /** Reading again without new events returns nothing. */
  lemma {:induction false} NothingNew(events: seq<Event>, id: JobId, after: nat)
    ensures EventsSince(events, id, Cursor(EventsSince(events, id, after), after)) == []
  {
    if events != [] {
      var rest, last := events[..|events| - 1], events[|events| - 1];
      NothingNew(rest, id, after);
      CursorWithin(rest, id, after);
      if last.jobId == id && |events| > after {
        NothingSince(events, id, |events|);
      }
    }
  }

  // ---- watching a job ----

  /** The events up to and including the first terminal one. */
  function UpToTerminal(ns: seq<Numbered>): seq<Numbered> {
    if ns == [] then [] else if Terminal(ns[0].event.phase) then [ns[0]] else [ns[0]] + UpToTerminal(ns[1..])
  }

  predicate Ends(ns: seq<Numbered>) {
    exists k :: 0 <= k < |ns| && Terminal(ns[k].event.phase)
  }

  lemma {:induction false} UpToTerminalAppend(a: seq<Numbered>, b: seq<Numbered>)
    ensures Ends(a) ==> UpToTerminal(a + b) == UpToTerminal(a)
    ensures !Ends(a) ==> UpToTerminal(a + b) == a + UpToTerminal(b)
  {
    if a == [] {
      assert a + b == b;
    } else {
      assert (a + b)[1..] == a[1..] + b;
      UpToTerminalAppend(a[1..], b);
      if Terminal(a[0].event.phase) {
        assert Ends(a);
      } else {
        EndsLater(a);
      }
    }
  }

  lemma EndsLater(a: seq<Numbered>)
    requires a != [] && !Terminal(a[0].event.phase)
    ensures Ends(a) <==> Ends(a[1..])
  {
  }

  ghost predicate Growing(logs: seq<seq<Event>>) {
    forall i, k :: 0 <= i <= k < |logs| ==> logs[i] <= logs[k]
  }

  /**
   WatchJob: `logs` is the event log as each poll finds it. What is sent is exactly the job's events in order, each
   once, up to and including the first terminal one; the stream ends there. `blind` says that the first read found
   nothing and the job record itself was sent instead.
   */
  method WatchJob(logs: seq<seq<Event>>, id: JobId) returns (sent: seq<Numbered>, ended: bool, blind: bool)
    requires logs != [] && Growing(logs)
    ensures blind <==> EventsSince(logs[0], id, 0) == []
    ensures sent == UpToTerminal(EventsSince(logs[|logs| - 1], id, 0))
    ensures ended <==> Ends(EventsSince(logs[|logs| - 1], id, 0))
  {
    sent, ended, blind := [], false, false;
    var lastSeq := 0;
    for k := 0 to |logs|
      invariant blind <==> k > 0 && EventsSince(logs[0], id, 0) == []
      invariant sent == (if k == 0 then [] else EventsSince(logs[k - 1], id, 0)) && !Ends(sent)
      invariant lastSeq == Cursor(sent, 0)
    {
      ReadsCompose(if k == 0 then [] else logs[k - 1], logs[k], id, 0);
      var events := EventsSince(logs[k], id, lastSeq);
      assert sent + events == EventsSince(logs[k], id, 0);
      ghost var start := sent;
      sent, lastSeq, ended := Deliver(sent, events, lastSeq);
      if ended {
        StopsHere(logs, id, k, start, events, |sent| - |start| - 1);
        return;
      }
      if k == 0 && |events| == 0 {
        blind := true;
      }
    }
    UpToTerminalAppend(sent, []);
    assert sent + [] == sent;
  }

  /** The loop over one batch of events: it stops right after a terminal one. */
  method Deliver(start: seq<Numbered>, events: seq<Numbered>, cursor: nat)
    returns (sent: seq<Numbered>, lastSeq: nat, ended: bool)
    requires !Ends(start) && cursor == Cursor(start, 0)
    ensures !ended ==> sent == start + events && !Ends(sent) && lastSeq == Cursor(sent, 0)
    ensures ended ==>
              && |start| < |sent| <= |start| + |events|
              && var i := |sent| - |start| - 1;
                 && sent == start + events[..i] + [events[i]] && !Ends(start + events[..i])
                 && Terminal(events[i].event.phase)
  {
    sent, lastSeq, ended := start, cursor, false;
    for i := 0 to |events|
      invariant sent == start + events[..i] && !Ends(sent) && lastSeq == Cursor(sent, 0)
    {
      assert events[..i + 1] == events[..i] + [events[i]];
      EndsAppend(sent, events[i]);
      sent := sent + [events[i]];
      lastSeq := events[i].seqNo;
      if Terminal(events[i].event.phase) {
        ended := true;
        return;
      }
    }
    assert events[..|events|] == events;
  }

  /** A watcher of the whole log sees the job's phase chain. */
  lemma {:induction false} WatchShowsTheChain(events: seq<Event>, id: JobId)
    ensures |EventsSince(events, id, 0)| == |ChainOf(events, id)|
    ensures forall k :: 0 <= k < |ChainOf(events, id)| ==>
              EventsSince(events, id, 0)[k].event.phase == ChainOf(events, id)[k]
  {
    if events != [] {
      WatchShowsTheChain(events[..|events| - 1], id);
    }
  }

  /** No client is left blind: in every state the store can be in, a stored job has events. */
  lemma NeverBlind(db: Db, id: JobId)
    requires Audit.Inv(db) && id in db.jobs
    ensures EventsSince(db.events, id, 0) != []
  {
    assert Audit.JobOk(db, id);
    WatchShowsTheChain(db.events, id);
  }

  lemma EndsAppend(a: seq<Numbered>, n: Numbered)
    ensures Ends(a + [n]) <==> Ends(a) || Terminal(n.event.phase)
  {
    if Ends(a) {
      var k :| 0 <= k < |a| && Terminal(a[k].event.phase);
      assert (a + [n])[k] == a[k];
    }
    assert (a + [n])[|a|] == n;
  }

  lemma StopsHere(logs: seq<seq<Event>>, id: JobId, k: nat, start: seq<Numbered>, events: seq<Numbered>, i: nat)
    requires Growing(logs) && k < |logs| && i < |events| && start + events == EventsSince(logs[k], id, 0)
    requires !Ends(start + events[..i]) && Terminal(events[i].event.phase)
    ensures start + events[..i] + [events[i]] == UpToTerminal(EventsSince(logs[|logs| - 1], id, 0))
    ensures Ends(EventsSince(logs[|logs| - 1], id, 0))
  {
    var done, rest := start + events[..i], events[i + 1..];
    ReadsCompose(logs[k], logs[|logs| - 1], id, 0);
    var more := EventsSince(logs[|logs| - 1], id, Cursor(EventsSince(logs[k], id, 0), 0));
    var all := EventsSince(logs[|logs| - 1], id, 0);
    assert events == events[..i] + [events[i]] + rest;
    assert all == done + ([events[i]] + (rest + more));
    UpToTerminalAppend(done, [events[i]] + (rest + more));
    assert all[|done|] == events[i];
  }

  // ---- the object ----

  datatype QuotaError = Exceeded(unit: string, limit: real, committed: real, requested: real) | Rejected(e: DbError)

  class JobStore {
    var jobs: map<JobId, JobRow>
    var order: seq<JobId>
    var tasks: map<TaskId, TaskRow>
    var events: seq<Event>
    var ledger: seq<LedgerRow>
    var sessions: map<SessionId, SessionRow>
    var quotas: map<(string, string), real>

    function Abs(): Db
      reads this
    {
      Db(jobs, order, tasks, events, ledger, sessions)
    }

    constructor ()
      ensures Abs() == Audit.EMPTY && quotas == map[] && Audit.Inv(Abs())
    {
      jobs, order, tasks, events, ledger, sessions, quotas := map[], [], map[], [], [], map[], map[];
    }

    /** The two statements every job write ends with. */
    method Write(id: JobId, row: JobRow)
      modifies this
      ensures Abs() == WriteJob(old(Abs()), id, row) && quotas == old(quotas)
    {
      jobs := jobs[id := row];
      events := events + [Event(id, row.phase, row.status)];
    }

    method InsertJob(id: JobId, tenant: string, doc: Doc, conditions: seq<Condition>) returns (err: Option<DbError>)
      requires Audit.Inv(Abs())
      modifies this
      ensures Audit.Inv(Abs()) && quotas == old(quotas)
      ensures match Insert(old(Abs()), id, tenant, doc, conditions)
              case Ok(db) => err == None && Abs() == db
              case Err(e) => err == Some(e) && Abs() == old(Abs())
    {
      Audit.StepKeeps(Abs(), InsertStep(id, tenant, doc, conditions));
      if id in jobs {
        return Some(DuplicateKey);
      }
      Write(id, JobRow(tenant, Pending, doc, Status(Pending, conditions, map[], None, None, None)));
      order := order + [id];
      err := None;
    }

    /**
     InsertJobWithQuota without interference: admitted exactly when every limited unit can still afford the request, and
     a rejection names a unit that cannot. The interleaved transaction is Quota's.
     */
    method InsertJobWithQuota(id: JobId, tenant: string, doc: Doc, conditions: seq<Condition>)
      returns (err: Option<QuotaError>)
      requires Audit.Inv(Abs())
      modifies this
      ensures Audit.Inv(Abs()) && quotas == old(quotas)
      ensures err.Some? ==> Abs() == old(Abs())
      ensures err.None? ==> Insert(old(Abs()), id, tenant, doc, conditions) == Ok(Abs())
      ensures err.Some? && err.value.Exceeded? ==> Unaffordable(old(Abs()), quotas, tenant, doc, err.value.unit)
      ensures (err.Some? && err.value.Exceeded?) <==> exists unit :: Unaffordable(old(Abs()), quotas, tenant, doc, unit)
    {
      var costs := Quota.Costs(doc);
      var todo := costs.Keys;
      while todo != {}
        invariant todo <= costs.Keys && Abs() == old(Abs()) && quotas == old(quotas)
        invariant forall unit :: unit in costs && unit !in todo ==> !Unaffordable(Abs(), quotas, tenant, doc, unit)
        decreases |todo|
      {
        var unit :| unit in todo;
        todo := todo - {unit};
        if (tenant, unit) in quotas {
          var limit, committed := quotas[(tenant, unit)], Quota.Committed(Abs(), tenant, unit);
          if committed + costs[unit] > limit {
            assert Unaffordable(Abs(), quotas, tenant, doc, unit);
            return Some(Exceeded(unit, limit, committed, costs[unit]));
          }
        }
      }
      assert forall unit :: !Unaffordable(Abs(), quotas, tenant, doc, unit);
      var e := InsertJob(id, tenant, doc, conditions);
      err := if e.Some? then Some(Rejected(e.value)) else None;
    }

    method BindJob(id: JobId, taskId: TaskId, target: string) returns (err: Option<DbError>)
      requires Audit.Inv(Abs())
      modifies this
      ensures Audit.Inv(Abs()) && quotas == old(quotas)
      ensures match Bind(old(Abs()), id, taskId, target)
              case Ok(db) => err == None && Abs() == db
              case Err(e) => err == Some(e) && Abs() == old(Abs())
    {
      Audit.StepKeeps(Abs(), BindStep(id, taskId, target));
      if id !in jobs {
        return Some(NotFound);
      }
      var row := jobs[id];
      if row.phase != Pending {
        return Some(NotPending(row.phase));
      }
      if taskId in tasks {
        return Some(DuplicateKey);
      }
      var status := row.status.(phase := Scheduled, boundTarget := Some(target));
      Write(id, row.(phase := Scheduled, status := status));
      tasks := tasks[taskId := TaskRow(id, target, None, "QUEUED")];
      err := None;
    }

    method TransitionTo(id: JobId, to: Phase, m: Mutation) returns (err: Option<DbError>)
      requires Audit.Inv(Abs())
      modifies this
      ensures (to != Pending ==> Audit.Inv(Abs())) && quotas == old(quotas)
      ensures match TransitionJob(old(Abs()), id, to, m)
              case Ok(db) => err == None && Abs() == db
              case Err(e) => err == Some(e) && Abs() == old(Abs())
    {
      if to != Pending {
        Audit.StepKeeps(Abs(), TransitionStep(id, to, m));
      }
      if id !in jobs {
        return Some(NotFound);
      }
      var row := jobs[id];
      var illegal := Transition(row.phase, to);
      if illegal.Some? {
        return Some(IllegalTransition(illegal.value));
      }
      var status := Mutate(m, row.status);
      Write(id, row.(phase := to, status := status.(phase := to)));
      err := None;
    }

    /** The loop over the stored conditions; reports whether anything changed. */
    method SetJobCondition(id: JobId, c: Condition) returns (changed: bool, err: Option<DbError>)
      requires Audit.Inv(Abs())
      modifies this
      ensures Audit.Inv(Abs()) && quotas == old(quotas)
      ensures match SetCondition(old(Abs()), id, c)
              case Ok(db) => err == None && Abs() == db
              case Err(e) => err == Some(e) && Abs() == old(Abs())
      ensures changed <==> Abs() != old(Abs())
    {
      changed := false;
      if id !in jobs {
        return false, Some(NotFound);
      }
      var row := jobs[id];
      var conditions := row.status.conditions;
      var replaced := false;
      for i := 0 to |conditions|
        invariant !replaced && conditions == row.status.conditions && Abs() == old(Abs()) && quotas == old(quotas)
        invariant forall k :: 0 <= k < i ==> conditions[k].kind != c.kind
      {
        if conditions[i].kind != c.kind {
          continue;
        }
        FirstIs(conditions, c.kind, i);
        if conditions[i].status == c.status && conditions[i].message == c.message {
          return false, None;
        }
        conditions := conditions[i := c];
        replaced := true;
        break;
      }
      if !replaced {
        FirstIs(conditions, c.kind, |conditions|);
        conditions := conditions + [c];
      }
      Write(id, row.(status := row.status.(conditions := conditions)));
      assert |events| == |old(events)| + 1;
      assert SetCondition(old(Abs()), id, c) == Ok(Abs());
      assert Audit.Inv(Abs()) by {
        Audit.StepKeeps(old(Abs()), ConditionStep(id, c));
      }
      return true, None;
    }

    method UpdateTaskRow(taskId: TaskId, adapterTaskId: Option<Uuid>, state: string) returns (err: Option<DbError>)
      requires Audit.Inv(Abs())
      modifies this`tasks
      ensures Audit.Inv(Abs())
      ensures match UpdateTask(old(Abs()), taskId, adapterTaskId, state)
              case Ok(db) => err == None && Abs() == db
              case Err(e) => err == Some(e) && Abs() == old(Abs())
    {
      Audit.StepKeeps(Abs(), UpdateTaskStep(taskId, adapterTaskId, state));
      if taskId !in tasks {
        return Some(NotFound);
      }
      var row := tasks[taskId];
      tasks := tasks[taskId := row.(adapterTaskId := if adapterTaskId.Some? then adapterTaskId else row.adapterTaskId,
                                    state := state)];
      err := None;
    }

    /**
     RecordUsage: one autocommitted insert per unit, in any order; `down` are the units whose insert errors. Whatever
     was recorded before stays, only missing units are added, at the given amounts, and on success none is missing.
     */
    method RecordUsage(jobId: JobId, taskId: TaskId, tenant: string, target: string, usage: map<string, real>,
                       down: set<string>)
      returns (ok: bool)
      requires Audit.LedgerUnique(ledger)
      modifies this`ledger
      ensures old(ledger) <= ledger && Audit.LedgerUnique(ledger)
      ensures ok ==> forall unit :: unit in usage ==> IsRecorded(ledger, taskId, unit)
      ensures !ok ==> exists unit :: unit in usage && unit in down
      ensures forall i :: |old(ledger)| <= i < |ledger| ==>
                Adds(old(ledger), ledger[i], LedgerRow(jobId, taskId, tenant, target, "", 0.0), usage)
    {
      var todo := usage.Keys;
      while todo != {}
        invariant todo <= usage.Keys && old(ledger) <= ledger && Audit.LedgerUnique(ledger)
        invariant forall unit :: unit in usage && unit !in todo ==> IsRecorded(ledger, taskId, unit)
        invariant forall i :: |old(ledger)| <= i < |ledger| ==>
                    Adds(old(ledger), ledger[i], LedgerRow(jobId, taskId, tenant, target, "", 0.0), usage)
        decreases |todo|
      {
        var unit :| unit in todo;
        if unit in down {
          return false;
        }
        if !IsRecorded(ledger, taskId, unit) {
          var row := LedgerRow(jobId, taskId, tenant, target, unit, usage[unit]);
          RowAppended(old(ledger), ledger, row);
          ledger := ledger + [row];
        }
        todo := todo - {unit};
      }
      ok := true;
    }

    method JobEventsSince(id: JobId, after: nat) returns (out: seq<Numbered>)
      ensures out == EventsSince(events, id, after)
    {
      out := [];
      for i := 0 to |events|
        invariant out == EventsSince(events[..i], id, after)
      {
        assert events[..i + 1][..i] == events[..i];
        if events[i].jobId == id && i + 1 > after {
          out := out + [Numbered(i + 1, events[i])];
        }
      }
      assert events[..|events|] == events;
    }
  }

  predicate Unaffordable(db: Db, quotas: map<(string, string), real>, tenant: string, doc: Doc, unit: string) {
    && unit in Quota.Costs(doc) && (tenant, unit) in quotas
    && Quota.Committed(db, tenant, unit) + Quota.Costs(doc)[unit] > quotas[(tenant, unit)]
  }

  /** A row like `who`, for a unit of the usage that was missing before, at the amount of the usage. */
  ghost predicate Adds(before: seq<LedgerRow>, row: LedgerRow, who: LedgerRow, usage: map<string, real>) {
    && row.unit in usage && row == who.(unit := row.unit, amount := usage[row.unit])
    && !IsRecorded(before, row.taskId, row.unit)
  }

  lemma {:induction false} FirstIs(cs: seq<Condition>, kind: string, i: nat)
    requires i <= |cs| && (i < |cs| ==> cs[i].kind == kind) && forall k :: 0 <= k < i ==> cs[k].kind != kind
    ensures FirstOfKind(cs, kind) == i
  {
  }

  lemma RowAppended(before: seq<LedgerRow>, ledger: seq<LedgerRow>, row: LedgerRow)
    requires before <= ledger && Audit.LedgerUnique(ledger) && !IsRecorded(ledger, row.taskId, row.unit)
    ensures before <= ledger + [row] && Audit.LedgerUnique(ledger + [row])
    ensures forall t, u :: IsRecorded(ledger, t, u) ==> IsRecorded(ledger + [row], t, u)
    ensures IsRecorded(ledger + [row], row.taskId, row.unit) && !IsRecorded(before, row.taskId, row.unit)
  {
    var longer := ledger + [row];
    assert longer[|ledger|] == row;
    forall t, u | IsRecorded(ledger, t, u) ensures IsRecorded(longer, t, u) {
      StaysRecorded(ledger, longer, t, u);
    }
    if IsRecorded(before, row.taskId, row.unit) {
      StaysRecorded(before, ledger, row.taskId, row.unit);
      assert false;
    }
  }

  lemma StaysRecorded(before: seq<LedgerRow>, ledger: seq<LedgerRow>, task: TaskId, unit: string)
    requires before <= ledger && IsRecorded(before, task, unit)
    ensures IsRecorded(ledger, task, unit)
  {
    var i :| 0 <= i < |before| && before[i].taskId == task && before[i].unit == unit;
    assert ledger[i] == before[i];
  }
}
