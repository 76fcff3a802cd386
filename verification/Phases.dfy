/** The job lifecycle (internal/job/phase.go) and the audit of event chains (internal/chaos/invariants.go). */
module Phases {
  import opened Common

  datatype Phase = Pending | Scheduled | Submitted | Running | Succeeded | Failed | Cancelled | Unknown(name: string)

  /** The transition table. */
  function Successors(p: Phase): set<Phase> {
    match p
    case Pending => {Scheduled, Failed, Cancelled}
    case Scheduled => {Submitted, Pending, Failed, Cancelled}
    case Submitted => {Running, Pending, Failed, Cancelled}
    case Running => {Succeeded, Failed, Cancelled}
    case _ => {}
  }

  predicate Valid(p: Phase) {
    !p.Unknown?
  }

  predicate Terminal(p: Phase) {
    Valid(p) && Successors(p) == {}
  }

  predicate CanTransition(from: Phase, to: Phase) {
    to in Successors(from)
  }

  datatype Illegal = UnknownPhase(phase: Phase) | FromTerminal(from: Phase) | NotInTable(from: Phase, to: Phase)

  /** Transition: None when from -> to is legal, otherwise the precise error. */
  function Transition(from: Phase, to: Phase): Option<Illegal> {
    if !Valid(from) then Some(UnknownPhase(from))
    else if !Valid(to) then Some(UnknownPhase(to))
    else if Terminal(from) then Some(FromTerminal(from))
    else if !CanTransition(from, to) then Some(NotInTable(from, to))
    else None
  }

  function Rank(p: Phase): nat {
    match p
    case Pending => 0
    case Scheduled => 1
    case Submitted => 2
    case Running => 3
    case _ => 4
  }

  /** The only way back is to PENDING: every other legal move climbs. */
  lemma TransitionsClimb(from: Phase, to: Phase)
    requires Transition(from, to).None? && to != Pending
    ensures Rank(from) < Rank(to) <= 4
  {
  }

  const LIFECYCLE := [Pending, Scheduled, Submitted, Running, Succeeded]

  /**
   The legal moves: one step along the lifecycle, from any state that has not ended to FAILED or CANCELLED, and from
   SCHEDULED or SUBMITTED back to PENDING. An illegal request names its reason.
   */
  lemma LegalMoves(from: Phase, to: Phase)
    ensures Transition(from, to).None? <==>
              || (exists i :: 0 <= i < 4 && from == LIFECYCLE[i] && to == LIFECYCLE[i + 1])
              || (from in LIFECYCLE[..4] && to in {Failed, Cancelled})
              || (from in {Scheduled, Submitted} && to == Pending)
    ensures Transition(from, to) == Some(FromTerminal(from)) <==> from in {Succeeded, Failed, Cancelled} && !to.Unknown?
    ensures from.Unknown? || to.Unknown? ==>
              Transition(from, to) == Some(UnknownPhase(if from.Unknown? then from else to))
    ensures Terminal(from) <==> from in {Succeeded, Failed, Cancelled}
  {
    assert LIFECYCLE[0] == Pending && LIFECYCLE[1] == Scheduled && LIFECYCLE[2] == Submitted;
    assert LIFECYCLE[3] == Running && LIFECYCLE[4] == Succeeded;
    assert LIFECYCLE[..4] == [Pending, Scheduled, Submitted, Running];
    assert Transition(from, to).Some? || to in {Failed, Cancelled} || to == Pending
           || exists i :: 0 <= i < 4 && from == LIFECYCLE[i] && to == LIFECYCLE[i + 1];
  }

  // ---- event chains ----

  /** A phase history as the control plane's callers produce it: nobody requests PENDING again. */
  ghost predicate Lifecycle(c: seq<Phase>) {
    c != [] && c[0] == Pending && forall i :: 0 < i < |c| ==> Follows(c[i - 1], c[i])
  }

  predicate Follows(prev: Phase, cur: Phase) {
    prev == cur || (Transition(prev, cur).None? && cur != Pending)
  }

  function Changes(c: seq<Phase>): nat {
    if |c| <= 1 then 0 else Changes(c[..|c| - 1]) + if c[|c| - 2] == c[|c| - 1] then 0 else 1
  }

  /** A job changes phase at most four times. */
  lemma {:induction false} LifecycleIsShort(c: seq<Phase>)
    requires Lifecycle(c)
    ensures Changes(c) <= Rank(c[|c| - 1]) <= 4
  {
    if |c| > 1 {
      LifecycleIsShort(c[..|c| - 1]);
      assert Follows(c[|c| - 2], c[|c| - 1]);
    }
  }

  /** After a terminal phase only repetitions of it follow. */
  lemma {:induction false} TerminalSticks(c: seq<Phase>, i: nat, k: nat)
    requires Lifecycle(c) && i <= k < |c| && Terminal(c[i])
    ensures c[k] == c[i]
  {
    if i < k {
      TerminalSticks(c, i, k - 1);
      assert Follows(c[k - 1], c[k]);
    }
  }

  // ---- the repository's own checks, as loops over one job's events in order ----

  datatype Violation = FirstNotPending(phase: Phase) | IllegalStep(at: nat) | TerminalFollowed(at: nat)

  /** auditGapless for one job. */
  method AuditGapless(c: seq<Phase>) returns (vs: seq<Violation>)
    ensures vs == [] <==>
              c == [] || (c[0] == Pending
                          && forall i :: 0 < i < |c| ==> c[i - 1] == c[i] || Transition(c[i - 1], c[i]).None?)
  {
    vs := [];
    if |c| == 0 {
      return;
    }
    if c[0] != Pending {
      vs := vs + [FirstNotPending(c[0])];
    }
    for i := 1 to |c|
      invariant vs == [] <==> c[0] == Pending && forall k :: 0 < k < i ==>
                  c[k - 1] == c[k] || Transition(c[k - 1], c[k]).None?
    {
      if c[i - 1] != c[i] && Transition(c[i - 1], c[i]).Some? {
        vs := vs + [IllegalStep(i)];
      }
    }
  }

  /** terminalImmutable for one job: reports the first terminal event that is not the last one. */
  method TerminalImmutable(c: seq<Phase>) returns (vs: seq<Violation>)
    ensures vs == [] <==> NothingAfterTerminal(c)
  {
    for i := 0 to |c|
      invariant forall k :: 0 <= k < i && k < |c| - 1 ==> !Terminal(c[k])
    {
      if Terminal(c[i]) && i != |c| - 1 {
        return [TerminalFollowed(i)];
      }
    }
    return [];
  }

  ghost predicate NothingAfterTerminal(c: seq<Phase>) {
    forall i :: 0 <= i < |c| - 1 ==> !Terminal(c[i])
  }
}
