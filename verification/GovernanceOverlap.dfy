/**
 Overlapping decisions: a transition reads the request, and writes status and audit row later,
 while any number of others do the same.
 */
module GovernanceOverlap {
  import opened Decisions
  import opened Wrappers
  import opened ActionExecution
  import opened Governance

  datatype Office = Office(g: Gov, deciders: map<nat, Decider>, log: seq<Commitment>)

  datatype Event =
    | Serve(op: Op)
    | Read(c: nat, request: nat, target: RequestStatus)
    | Commit(c: nat)
    | Abort(c: nat)

  function Step(w: Office, ev: Event): Office {
    match ev
    case Serve(op) => if op.Transition? then w else w.(g := Apply(w.g, op))
    case Read(c, r, target) =>
      if c in w.deciders || r >= |w.g.requests| || !CanTransition(w.g.requests[r].status, target) then w
      else w.(deciders := w.deciders[c := Decider(r, w.g.requests[r].status, target, false)])
    case Commit(c) =>
      if c !in w.deciders || w.deciders[c].over || w.deciders[c].request >= |w.g.requests| then w
      else
        var me := w.deciders[c];
        var request := w.g.requests[me.request];
        Office(w.g.(requests := w.g.requests[me.request := request.(status := me.target)],
                   audits := w.g.audits + [Audit(me.request, me.read, me.target)]),
              w.deciders[c := me.(over := true)], w.log + [Commitment(me.request, me.read, request.status, me.target)])
    case Abort(c) => if c !in w.deciders then w else w.(deciders := w.deciders[c := w.deciders[c].(over := true)])
  }

  function Run(w: Office, events: seq<Event>): Office {
    if events == [] then w else Step(Run(w, events[..|events| - 1]), events[|events| - 1])
  }

  const START := Office(EMPTY, map[], [])

  /** Every commit for the request found the status its caller had read. */
  predicate NothingInBetween(log: seq<Commitment>, r: nat) {
    forall k :: 0 <= k < |log| && log[k].request == r ==> log[k].read == log[k].found
  }

  predicate Committed(log: seq<Commitment>, r: nat) {
    exists k :: 0 <= k < |log| && log[k].request == r
  }

  predicate Bookkeeping(w: Office) {
    && (forall c :: c in w.deciders ==>
        w.deciders[c].read == PendingApproval && w.deciders[c].target != PendingApproval)
    && (forall a :: 0 <= a < |w.g.audits| ==> w.g.audits[a].request < |w.g.requests|)
    && (forall k :: 0 <= k < |w.log| ==> w.log[k].read == PendingApproval && w.log[k].request < |w.g.requests|)
  }

  /** The audit rows of one request play to its status, or to nothing once a commit found another status. */
  predicate Explained(w: Office, r: nat)
    requires r < |w.g.requests|
  {
    && (w.g.requests[r].status == PendingApproval <==> !Committed(w.log, r))
    && Replay(w.g.audits, r) == if NothingInBetween(w.log, r) then Some(w.g.requests[r].status) else None
  }

  predicate Inv(w: Office) {
    Bookkeeping(w) && forall r :: 0 <= r < |w.g.requests| ==> Explained(w, r)
  }

  lemma LogSnoc(log: seq<Commitment>, last: Commitment, r: nat)
    ensures Committed(log + [last], r) <==> Committed(log, r) || last.request == r
    ensures NothingInBetween(log + [last], r) <==>
        NothingInBetween(log, r) && (last.request == r ==> last.read == last.found)
  {
    var all := log + [last];
    assert all[|log|] == last && all[..|log|] == log;
    if Committed(log, r) {
      var k :| 0 <= k < |log| && log[k].request == r;
      assert all[k].request == r;
    }
    if NothingInBetween(all, r) {
      forall k | 0 <= k < |log| && log[k].request == r ensures log[k].read == log[k].found { assert all[k] == log[k]; }
    }
  }

  lemma CommitExplains(w: Office, c: nat, r: nat)
    requires Inv(w) && c in w.deciders && !w.deciders[c].over && w.deciders[c].request < |w.g.requests|
    requires r < |w.g.requests|
    ensures Explained(Step(w, Commit(c)), r)
  {
    var w' := Step(w, Commit(c));
    var me := w.deciders[c];
    assert Explained(w, r);
    LogSnoc(w.log, Commitment(me.request, me.read, w.g.requests[me.request].status, me.target), r);
    assert w'.g.audits[..|w.g.audits|] == w.g.audits;
  }

  lemma CommitKeepsBooks(w: Office, c: nat)
    requires Bookkeeping(w) && c in w.deciders && !w.deciders[c].over && w.deciders[c].request < |w.g.requests|
    ensures Bookkeeping(Step(w, Commit(c)))
  {
  }

  lemma CommitKeepsInv(w: Office, c: nat)
    requires Inv(w) && c in w.deciders && !w.deciders[c].over && w.deciders[c].request < |w.g.requests|
    ensures Inv(Step(w, Commit(c)))
  {
    var w' := Step(w, Commit(c));
    CommitKeepsBooks(w, c);
    forall r | 0 <= r < |w'.g.requests|
      ensures Explained(w', r)
    {
      CommitExplains(w, c, r);
    }
  }

  lemma ServeKeepsInv(w: Office, op: Op)
    requires Inv(w) && !op.Transition?
    ensures Inv(Step(w, Serve(op)))
  {
    var w' := Step(w, Serve(op));
    forall r | 0 <= r < |w'.g.requests|
      ensures Explained(w', r)
    {
      if r < |w.g.requests| {
        assert Explained(w, r) && w'.g.requests[r] == w.g.requests[r];
      } else {
        NoAuditsYet(w.g.audits, r);
      }
    }
  }

  lemma StepKeepsInv(w: Office, ev: Event)
    requires Inv(w)
    ensures Inv(Step(w, ev))
  {
    match ev {
      case Serve(op) => if !op.Transition? { ServeKeepsInv(w, op); }
      case Commit(c) =>
        if c in w.deciders && !w.deciders[c].over && w.deciders[c].request < |w.g.requests| { CommitKeepsInv(w, c); }
      case _ =>
        assert forall r :: 0 <= r < |w.g.requests| && Explained(w, r) ==> Explained(Step(w, ev), r);
    }
  }

  lemma {:induction false} RunKeepsInv(events: seq<Event>)
    ensures Inv(Run(START, events))
  {
    if events != [] {
      RunKeepsInv(events[..|events| - 1]);
      StepKeepsInv(Run(START, events[..|events| - 1]), events[|events| - 1]);
    }
  }

  /**
   However decisions overlap: the audit rows of a request play to its status if and only if
   every commit for it found the status its caller had read. Once one did not, they play to
   nothing for good.
   */
  lemma {:induction false} ReplaysIff(events: seq<Event>, r: nat)
    requires r < |Run(START, events).g.requests|
    ensures var w := Run(START, events);
      && (Replay(w.g.audits, r) == Some(w.g.requests[r].status) <==> NothingInBetween(w.log, r))
      && (Replay(w.g.audits, r).Some? <==> NothingInBetween(w.log, r))
  {
    RunKeepsInv(events);
    assert Explained(Run(START, events), r);
  }

  /**
   A decider whose read is overtaken still succeeds: its commit is the first of its request if
   and only if nothing came in between.
   */
  lemma {:induction false} CommitFindsItsReadIff(events: seq<Event>, c: nat)
    requires var w := Run(START, events);
      c in w.deciders && !w.deciders[c].over && w.deciders[c].request < |w.g.requests|
    ensures var w := Run(START, events);
      var me := w.deciders[c];
      var w' := Step(w, Commit(c));
      && w'.g.requests[me.request].status == me.target
      && (w'.log[|w.log|].read == w'.log[|w.log|].found <==> !Committed(w.log, me.request))
  {
    RunKeepsInv(events);
    assert Explained(Run(START, events), Run(START, events).deciders[c].request);
  }

  /** An undisturbed decision is the service's transition. */
  lemma UndisturbedDecision(w: Office, c: nat, r: nat, target: RequestStatus)
    requires c !in w.deciders && r < |w.g.requests| && CanTransition(w.g.requests[r].status, target)
    ensures Step(Step(w, Read(c, r, target)), Commit(c)).g == Apply(w.g, Transition(r, target))
  {
  }

  // ---------------------------------------------------------------- executions of requests that are not APPROVED

  /** The stored statuses are what the commits left, and whatever was executed was APPROVED at some time. */
  predicate Traced(w: Office) {
    && Chained(w.log)
    && (forall k :: 0 <= k < |w.log| ==> w.log[k].request < |w.g.requests|)
    && (forall r :: 0 <= r < |w.g.requests| ==> w.g.requests[r].status == StatusAfter(w.log, r))
    && (forall e :: 0 <= e < |w.g.executions| ==> EverApproved(w.log, w.g.executions[e].request))
  }

  lemma CommitKeepsTraced(w: Office, c: nat)
    requires Traced(w) && c in w.deciders && !w.deciders[c].over && w.deciders[c].request < |w.g.requests|
    ensures Traced(Step(w, Commit(c)))
  {
    var w' := Step(w, Commit(c));
    var last := w'.log[|w.log|];
    assert w'.log == w.log + [last];
    ChainedSnoc(w.log, last);
    forall r: nat
      ensures StatusAfter(w'.log, r) == if last.request == r then last.target else StatusAfter(w.log, r)
      ensures EverApproved(w.log, r) ==> EverApproved(w'.log, r)
    {
      StatusSnoc(w.log, last, r);
    }
  }

  lemma ServeKeepsTraced(w: Office, op: Op)
    requires Traced(w) && !op.Transition?
    ensures Traced(Step(w, Serve(op)))
  {
    if op.Create? {
      UndecidedIsPending(w.log, |w.g.requests|);
    } else if op.Execute? && Apply(w.g, op).executions != w.g.executions {
      assert IsApproved(Tables(w.g), op.request);
      ApprovedWasWritten(w.log, op.request);
    }
  }

  lemma {:induction false} RunKeepsTraced(events: seq<Event>)
    ensures Traced(Run(START, events))
  {
    if events != [] {
      var before, ev := Run(START, events[..|events| - 1]), events[|events| - 1];
      RunKeepsTraced(events[..|events| - 1]);
      match ev {
        case Serve(op) => if !op.Transition? { ServeKeepsTraced(before, op); }
        case Commit(c) => if Step(before, ev) != before { CommitKeepsTraced(before, c); }
        case _ =>
      }
    }
  }

  /**
   With decisions that overlap, an execution belongs to an APPROVED request if and only if no
   commit found that request APPROVED and wrote REJECTED or CANCELLED over it for good.
   */
  lemma {:induction false} ExecutedIsApprovedIff(events: seq<Event>, e: nat)
    requires e < |Run(START, events).g.executions|
    ensures var w := Run(START, events);
      var r := w.g.executions[e].request;
      r < |w.g.requests| && (w.g.requests[r].status == Approved <==> !Overruled(w.log, r))
  {
    RunKeepsTraced(events);
    var w := Run(START, events);
    OverruledIff(w.log, w.g.executions[e].request);
  }
}
