/**
 Decisions on action requests as they really happen: each reads the request's status, checks the
 transition, and writes later without looking again. What a sequence of such writes leaves.
 */
module Decisions {
  datatype RequestStatus = PendingApproval | Approved | Rejected | Cancelled

  /** The statuses an approver can still choose: only a pending request moves. */
  predicate CanTransition(from: RequestStatus, to: RequestStatus) {
    from == PendingApproval && to != PendingApproval
  }

  /** A decision that passed the check on the status it read. */
  datatype Decider = Decider(request: nat, read: RequestStatus, target: RequestStatus, over: bool)

  /** A committed decision: what it had read, what it found when it wrote, and what it wrote. */
  datatype Commitment = Commitment(request: nat, read: RequestStatus, found: RequestStatus, target: RequestStatus)

  /** The status that the commits so far leave a request with. */
  function StatusAfter(log: seq<Commitment>, r: nat): RequestStatus {
    if log == [] then PendingApproval
    else if log[|log| - 1].request == r then log[|log| - 1].target
    else StatusAfter(log[..|log| - 1], r)
  }

  /** Every commit has found what the commits before it left. */
  predicate Chained(log: seq<Commitment>) {
    forall k :: 0 <= k < |log| ==> log[k].found == StatusAfter(log[..k], log[k].request)
  }

  predicate EverApproved(log: seq<Commitment>, r: nat) {
    exists k :: 0 <= k < |log| && log[k].request == r && log[k].target == Approved
  }

  /** No commit from position `k` on approves the request. */
  predicate NoneApproves(log: seq<Commitment>, k: nat, r: nat) {
    forall j :: k <= j < |log| && log[j].request == r ==> log[j].target != Approved
  }

  /** The commit at `k` found the request APPROVED and wrote REJECTED or CANCELLED over it, for good so far. */
  predicate OverrulesAt(log: seq<Commitment>, k: nat, r: nat) {
    k < |log| && log[k].request == r && log[k].found == Approved && NoneApproves(log, k, r)
  }

  predicate Overruled(log: seq<Commitment>, r: nat) {
    exists k: nat :: k < |log| && OverrulesAt(log, k, r)
  }

  lemma {:induction false} ChainedSnoc(log: seq<Commitment>, last: Commitment)
    requires Chained(log) && last.found == StatusAfter(log, last.request)
    ensures Chained(log + [last])
  {
    var all := log + [last];
    forall k | 0 <= k < |all|
      ensures all[k].found == StatusAfter(all[..k], all[k].request)
    {
      assert all[..k] == log[..k];
      if k < |log| { assert all[k] == log[k]; } else { assert log[..k] == log; }
    }
  }

  lemma {:induction false} StatusSnoc(log: seq<Commitment>, last: Commitment, r: nat)
    ensures StatusAfter(log + [last], r) == if last.request == r then last.target else StatusAfter(log, r)
    ensures EverApproved(log + [last], r) <==> EverApproved(log, r) || (last.request == r && last.target == Approved)
  {
    var all := log + [last];
    assert all[..|log|] == log && all[|log|] == last;
    if EverApproved(log, r) {
      var k :| 0 <= k < |log| && log[k].request == r && log[k].target == Approved;
      assert all[k] == log[k];
    }
  }

  lemma {:induction false} UndecidedIsPending(log: seq<Commitment>, r: nat)
    requires forall k :: 0 <= k < |log| ==> log[k].request != r
    ensures StatusAfter(log, r) == PendingApproval
  {
    if log != [] { UndecidedIsPending(log[..|log| - 1], r); }
  }

  lemma {:induction false} ApprovedWasWritten(log: seq<Commitment>, r: nat)
    requires StatusAfter(log, r) == Approved
    ensures EverApproved(log, r)
  {
    if log[|log| - 1].request != r { ApprovedWasWritten(log[..|log| - 1], r); }
  }

  lemma OverrulesLonger(log: seq<Commitment>, k: nat, r: nat)
    requires log != [] && k < |log| - 1
    requires log[|log| - 1].request == r ==> log[|log| - 1].target != Approved
    ensures OverrulesAt(log, k, r) <==> OverrulesAt(log[..|log| - 1], k, r)
  {
    var n := |log| - 1;
    assert NoneApproves(log, k, r) <==> NoneApproves(log[..n], k, r) by {
      if NoneApproves(log[..n], k, r) {
        forall j | k <= j < |log| && log[j].request == r ensures log[j].target != Approved {
          if j < n { assert log[..n][j] == log[j]; }
        }
      }
    }
  }

  /**
   A request that was approved once is not APPROVED now if and only if some commit found it
   APPROVED and wrote REJECTED or CANCELLED over it, and none has approved it since.
   */
  lemma {:induction false} OverruledIff(log: seq<Commitment>, r: nat)
    requires Chained(log) && EverApproved(log, r)
    ensures StatusAfter(log, r) != Approved <==> Overruled(log, r)
  {
    var n := |log| - 1;
    var last := log[n];
    assert log == log[..n] + [last];
    StatusSnoc(log[..n], last, r);
    if last.request == r && last.target == Approved {
      assert forall k: nat :: k < |log| ==> !NoneApproves(log, k, r);
    } else {
      assert Chained(log[..n]) by { ChainedPrefix(log); }
      OverruledIff(log[..n], r);
      if k: nat :| k < n && OverrulesAt(log[..n], k, r) { OverrulesLonger(log, k, r); }
      if k: nat :| k < n && OverrulesAt(log, k, r) { OverrulesLonger(log, k, r); }
      if last.request == r && last.found == Approved { assert OverrulesAt(log, n, r); }
    }
  }

  lemma ChainedPrefix(log: seq<Commitment>)
    requires log != [] && Chained(log)
    ensures Chained(log[..|log| - 1])
    ensures log[|log| - 1].found == StatusAfter(log[..|log| - 1], log[|log| - 1].request)
  {
    var pre := log[..|log| - 1];
    forall k | 0 <= k < |pre|
      ensures pre[k].found == StatusAfter(pre[..k], pre[k].request)
    {
      assert pre[..k] == log[..k];
    }
  }
}
