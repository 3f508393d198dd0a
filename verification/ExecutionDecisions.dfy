/**
 Executions beside decisions that overlap: when a request that was executed is not APPROVED.
 */
module ExecutionDecisions {
  import opened ActionExecution
  import opened Decisions

  /** The stored statuses are what the commits left. */
  predicate DecisionsSound(w: World) {
    && Chained(w.desk.log)
    && (forall k :: 0 <= k < |w.desk.log| ==> w.desk.log[k].request in w.db.requests)
    && (forall r :: r in w.db.requests ==> w.db.requests[r] == StatusAfter(w.desk.log, r))
  }

  /** Executions, and callers on the way to one, belong to requests that were APPROVED at some time. */
  predicate ApprovedOnce(w: World) {
    && (forall c :: c in w.callers && PastAuthorization(w.callers[c].phase) ==>
          EverApproved(w.desk.log, w.callers[c].request))
    && (forall e :: 0 <= e < |w.db.executions| ==> EverApproved(w.desk.log, w.db.executions[e].request))
  }

  lemma AskKeepsDecisions(w: World, r: nat)
    requires DecisionsSound(w) && r !in w.db.requests
    ensures DecisionsSound(SetRequest(w, r, PendingApproval))
  {
    UndecidedIsPending(w.desk.log, r);
  }

  lemma CommitKeepsDecisions(w: World, last: Commitment, deciders: map<nat, Decider>)
    requires DecisionsSound(w) && last.request in w.db.requests && last.found == w.db.requests[last.request]
    ensures DecisionsSound(SetRequest(w, last.request, last.target).(desk := Desk(deciders, w.desk.log + [last])))
  {
    var w' := SetRequest(w, last.request, last.target).(desk := Desk(deciders, w.desk.log + [last]));
    ChainedSnoc(w.desk.log, last);
    forall r | r in w'.db.requests
      ensures w'.db.requests[r] == StatusAfter(w'.desk.log, r)
    {
      StatusSnoc(w.desk.log, last, r);
    }
  }

  lemma DecideKeepsDecisions(w: World, m: Deciding)
    requires DecisionsSound(w)
    ensures DecisionsSound(DecideStep(w, m))
  {
    var w' := DecideStep(w, m);
    if m.Ask? && w' != w { AskKeepsDecisions(w, m.request); }
    if w'.desk.log != w.desk.log {
      var me := w.desk.deciders[m.d];
      CommitKeepsDecisions(w, Commitment(me.request, me.read, w.db.requests[me.request], me.target), w'.desk.deciders);
    }
  }

  lemma ApprovalsStay(w: World, m: Deciding, r: nat)
    requires EverApproved(w.desk.log, r)
    ensures EverApproved(DecideStep(w, m).desk.log, r)
  {
    var log := DecideStep(w, m).desk.log;
    if log != w.desk.log { StatusSnoc(w.desk.log, log[|w.desk.log|], r); }
  }

  lemma CallersDecideNothing(w: World, ev: Event)
    requires !ev.Decide?
    ensures Step(w, ev).desk == w.desk && Step(w, ev).db.requests == w.db.requests
  {
  }

  lemma NewExecutionWasCleared(w: World, ev: Event, e: nat)
    requires InRange(w) && e < |Step(w, ev).db.executions|
    ensures if e < |w.db.executions| then Step(w, ev).db.executions[e].request == w.db.executions[e].request
      else ev.Claim? && ev.c in w.callers && w.callers[ev.c].phase.Cleared?
           && Step(w, ev).db.executions[e].request == w.callers[ev.c].request
  {
  }

  lemma StepKeepsApprovedOnce(w: World, ev: Event)
    requires InRange(w) && DecisionsSound(w) && ApprovedOnce(w)
    ensures DecisionsSound(Step(w, ev)) && ApprovedOnce(Step(w, ev))
  {
    var w' := Step(w, ev);
    if ev.Decide? { DecideKeepsDecisions(w, ev.m); } else { CallersDecideNothing(w, ev); }
    forall r | EverApproved(w.desk.log, r)
      ensures EverApproved(w'.desk.log, r)
    {
      if ev.Decide? { ApprovalsStay(w, ev.m, r); }
    }
    forall c | c in w'.callers && PastAuthorization(w'.callers[c].phase)
      ensures EverApproved(w'.desk.log, w'.callers[c].request)
    {
      StepAuthorizes(w, ev, c);
      if IsApproved(w.db, w.callers[c].request) { ApprovedWasWritten(w.desk.log, w.callers[c].request); }
    }
    forall e | 0 <= e < |w'.db.executions|
      ensures EverApproved(w'.desk.log, w'.db.executions[e].request)
    {
      NewExecutionWasCleared(w, ev, e);
    }
  }

  lemma {:induction false} RunKeepsApprovedOnce(events: seq<Event>)
    ensures DecisionsSound(Run(GENESIS, events)) && ApprovedOnce(Run(GENESIS, events))
  {
    if events != [] {
      var before := Run(GENESIS, events[..|events| - 1]);
      RunKeepsApprovedOnce(events[..|events| - 1]);
      RunKeepsInv(GENESIS, events[..|events| - 1]);
      RunSnoc(GENESIS, events);
      StepKeepsApprovedOnce(before, events[|events| - 1]);
    }
  }

  /**
   Over every run: a request that was executed, and so perhaps called for, is not APPROVED now
   if and only if some decider's commit found it APPROVED and wrote REJECTED or CANCELLED over
   that, and no commit has approved it since.
   */
  lemma {:induction false} ExecutedUnapprovedIff(events: seq<Event>, e: nat)
    requires e < |Run(GENESIS, events).db.executions|
    ensures var w := Run(GENESIS, events);
      var r := w.db.executions[e].request;
      !IsApproved(w.db, r) <==> Overruled(w.desk.log, r)
  {
    var w := Run(GENESIS, events);
    var r := w.db.executions[e].request;
    RunKeepsApprovedOnce(events);
    OverruledIff(w.desk.log, r);
    assert r in w.db.requests;
  }
}
