/**
 Overlapping executions: when a request can be called for again, and when an answer that was
 stored stays. Both are answered for every world the protocol reaches and all its continuations.
 */
module ExecutionOverlap {
  import opened Decisions
  import opened Wrappers
  import opened ActionExecution

  // ---------------------------------------------------------------- when a request can be called for again

  ghost predicate CallsFor(w: World, request: nat, events: seq<Event>) {
    exists k :: |w.calls| <= k < |Run(w, events).calls| && Run(w, events).calls[k].request == request
  }

  /** Some continuation of `w` reaches the adapter for the request. */
  ghost predicate FurtherCall(w: World, request: nat) {
    exists events :: CallsFor(w, request, events)
  }

  /** Past the guard and not stuck: its claim is made, or its key is still free. */
  predicate CanStillCall(w: World, c: nat, request: nat) {
    && c in w.callers && w.callers[c].request == request
    && (BeforeInvocation(w.callers[c].phase) || (w.callers[c].phase.Cleared? && !HasKey(w.db, w.callers[c].key)))
  }

  /** Holds an answer for execution `e` that will no longer block once it is recorded. */
  predicate WillRelease(me: Caller, e: nat) {
    me.phase.Invoked? && me.phase.e == e && me.phase.outcome.Answers? && !Blocking(me.phase.outcome.status)
  }

  /** The execution does not block other keys, or will not once its RUNNING owner records its answer. */
  predicate Reopens(w: World, e: nat)
    requires e < |w.db.executions|
  {
    || !Blocking(w.db.executions[e].status)
    || (w.db.executions[e].status == Running && exists c :: c in w.callers && WillRelease(w.callers[c], e))
  }

  /** Passed its check while the request was pending, and will write APPROVED whatever it finds. */
  predicate WillApprove(me: Decider, request: nat) {
    !me.over && me.request == request && me.target == Approved
  }

  /** APPROVED, or still to be decided, or about to be approved by a decider that reads no more. */
  predicate Approvable(w: World, request: nat) {
    || request !in w.db.requests || w.db.requests[request] in {PendingApproval, Approved}
    || exists d :: d in w.desk.deciders && WillApprove(w.desk.deciders[d], request)
  }

  /** Found the request APPROVED, and its key is still free. */
  predicate WaitsAtGuard(w: World, c: nat, request: nat) {
    && c in w.callers && w.callers[c].request == request
    && w.callers[c].phase == Authorized && !HasKey(w.db, w.callers[c].key)
  }

  /** The guard can still let a key through. */
  predicate GuardCanOpen(w: World, request: nat) {
    && (Approvable(w, request) || exists c :: c in w.callers && WaitsAtGuard(w, c, request))
    && forall e :: 0 <= e < |w.db.executions| && w.db.executions[e].request == request ==> Reopens(w, e)
  }

  /**
   In every world: a further adapter call for a request is possible if and only if some caller
   is past the guard and not stuck, or every execution of the request is FAILED or PENDING or
   about to be recorded so, and a caller with a free key waits at the guard or the request is
   or can become APPROVED. A rejected request can, as long as a decider that read it pending
   has yet to write APPROVED.
   */
  lemma FurtherCallIff(w: World, request: nat)
    requires Inv(w)
    ensures FurtherCall(w, request) <==> (exists c :: CanStillCall(w, c, request)) || GuardCanOpen(w, request)
  {
    if c :| CanStillCall(w, c, request) {
      InsiderCalls(w, c, request);
    } else if GuardCanOpen(w, request) {
      OpenGuardCalls(w, request);
    } else if FurtherCall(w, request) {
      var events :| CallsFor(w, request, events);
      SealedForever(w, events, request);
    }
  }

  // The request is sealed: nobody inside can call, and nobody new can get inside.

  ghost predicate Sealed(w: World, request: nat) {
    (forall c :: !CanStillCall(w, c, request)) && !GuardCanOpen(w, request)
  }

  lemma {:induction false} SealedForever(w: World, events: seq<Event>, request: nat)
    requires Inv(w) && Sealed(w, request)
    ensures var w' := Run(w, events);
      w.calls <= w'.calls && forall k :: |w.calls| <= k < |w'.calls| ==> w'.calls[k].request != request
    decreases |events|
  {
    if events != [] {
      StepKeepsInv(w, events[0]);
      SealedStep(w, events[0], request);
      SealedForever(Step(w, events[0]), events[1..], request);
    }
  }

  lemma SealedStep(w: World, ev: Event, request: nat)
    requires Inv(w) && Sealed(w, request)
    ensures var w' := Step(w, ev);
      && Sealed(w', request) && w.calls <= w'.calls
      && forall k :: |w.calls| <= k < |w'.calls| ==> w'.calls[k].request != request
  {
    var w' := Step(w, ev);
    StepKeepsInv(w, ev);
    NoCallForSealed(w, ev, request);
    if e: nat :| e < |w.db.executions| && w.db.executions[e].request == request && !Reopens(w, e) {
      SealStays(w, ev, request, e);
      forall c ensures !CanStillCall(w', c, request) {
        if CanStillCall(w', c, request) { NobodyEnters(w, ev, request, e, c); }
      }
    } else {
      NeverApproved(w, ev, request);
      forall c ensures !CanStillCall(w', c, request) && !WaitsAtGuard(w', c, request) {
        NobodyArrives(w, ev, request, c);
      }
    }
  }

  /** A decided request stays decided: nobody reads it as pending, and no open decider approves it. */
  lemma NeverApproved(w: World, ev: Event, request: nat)
    requires DecidersSound(w) && !Approvable(w, request)
    ensures !Approvable(Step(w, ev), request)
  {
    var w' := Step(w, ev);
    if ev.Decide? {
      forall d | d in w'.desk.deciders
        ensures !WillApprove(w'.desk.deciders[d], request)
      {
        if d in w.desk.deciders { assert !WillApprove(w.desk.deciders[d], request); }
      }
      if ev.m.Settle? && ev.m.d in w.desk.deciders { assert !WillApprove(w.desk.deciders[ev.m.d], request); }
    }
  }

  lemma NobodyArrives(w: World, ev: Event, request: nat, c: nat)
    requires !IsApproved(w.db, request) && !WaitsAtGuard(w, c, request) && !CanStillCall(w, c, request)
    ensures !CanStillCall(Step(w, ev), c, request) && !WaitsAtGuard(Step(w, ev), c, request)
  {
    if HasKeyAfter(w, ev, c) { KeyStays(w, ev, w.callers[c].key); }
  }

  lemma NoCallForSealed(w: World, ev: Event, request: nat)
    requires Inv(w) && forall c :: !CanStillCall(w, c, request)
    ensures var w' := Step(w, ev);
      w.calls <= w'.calls && forall k :: |w.calls| <= k < |w'.calls| ==> w'.calls[k].request != request
  {
    if ev.Invoke? && ev.c in w.callers && w.callers[ev.c].phase.Started? { assert !CanStillCall(w, ev.c, request); }
  }

  lemma SealStays(w: World, ev: Event, request: nat, e: nat)
    requires Inv(w) && (forall c :: !CanStillCall(w, c, request))
    requires e < |w.db.executions| && w.db.executions[e].request == request && !Reopens(w, e)
    ensures var w' := Step(w, ev);
      e < |w'.db.executions| && w'.db.executions[e].request == request && !Reopens(w', e)
  {
    var w' := Step(w, ev);
    if !ev.Arrive? && !ev.Decide? && ev.c in w.callers && Owning(w.callers[ev.c].phase) {
      OwnerMovesSealed(w, ev, request, e);
    } else {
      OthersKeepRow(w, ev, e);
      forall c | c in w'.callers && WillRelease(w'.callers[c], e)
        ensures c in w.callers && WillRelease(w.callers[c], e)
      {
        OthersInvokeNothing(w, ev, c);
      }
    }
  }

  lemma OthersKeepRow(w: World, ev: Event, e: nat)
    requires e < |w.db.executions|
    requires !(!ev.Arrive? && !ev.Decide? && ev.c in w.callers && Owning(w.callers[ev.c].phase))
    ensures e < |Step(w, ev).db.executions| && Step(w, ev).db.executions[e] == w.db.executions[e]
  {
  }

  lemma OthersInvokeNothing(w: World, ev: Event, c: nat)
    requires !(!ev.Arrive? && !ev.Decide? && ev.c in w.callers && Owning(w.callers[ev.c].phase))
    requires c in Step(w, ev).callers && Step(w, ev).callers[c].phase.Invoked?
    ensures c in w.callers && w.callers[c] == Step(w, ev).callers[c]
  {
  }

  lemma OwnerMovesSealed(w: World, ev: Event, request: nat, e: nat)
    requires Inv(w) && (forall c :: !CanStillCall(w, c, request))
    requires e < |w.db.executions| && w.db.executions[e].request == request && !Reopens(w, e)
    requires !ev.Arrive? && !ev.Decide? && ev.c in w.callers && Owning(w.callers[ev.c].phase)
    ensures var w' := Step(w, ev);
      e < |w'.db.executions| && w'.db.executions[e].request == request && !Reopens(w', e)
  {
    var w' := Step(w, ev);
    var me := w.callers[ev.c];
    assert OwnedRow(w.db, me);
    assert !CanStillCall(w, ev.c, request);
    if me.phase.e == e {
      assert !BeforeInvocation(me.phase);
      assert !WillRelease(me, e);
    }
    assert Blocking(w'.db.executions[e].status);
    forall c | c in w'.callers && WillRelease(w'.callers[c], e) ensures w'.db.executions[e].status != Running {
      if c != ev.c { assert WillRelease(w.callers[c], e); }
    }
  }

  lemma NobodyEnters(w: World, ev: Event, request: nat, e: nat, c: nat)
    requires e < |w.db.executions| && w.db.executions[e].request == request && Blocking(w.db.executions[e].status)
    requires CanStillCall(Step(w, ev), c, request)
    ensures CanStillCall(w, c, request)
  {
    if HasKeyAfter(w, ev, c) { KeyStays(w, ev, w.callers[c].key); }
    if c in w.callers {
      var key := w.callers[c].key;
      assert w.db.executions[e].key == key ==> Replays(w.db, request, key);
      assert w.db.executions[e].key != key ==> Blocked(w.db, request, key);
    }
  }

  predicate HasKeyAfter(w: World, ev: Event, c: nat) {
    c in w.callers && HasKey(w.db, w.callers[c].key)
  }

  // And otherwise some continuation does call.

  lemma ContinuesAfter(w: World, ev: Event, request: nat)
    requires FurtherCall(Step(w, ev), request) && |w.calls| <= |Step(w, ev).calls|
    ensures FurtherCall(w, request)
  {
    var events :| CallsFor(Step(w, ev), request, events);
    RunCons(w, ev, events);
    assert CallsFor(w, request, [ev] + events);
  }

  lemma StartedCalls(w: World, c: nat)
    requires Inv(w) && c in w.callers && w.callers[c].phase.Started?
    ensures FurtherCall(w, w.callers[c].request)
  {
    var w' := Step(w, Invoke(c, Raises));
    RunCons(w, Invoke(c, Raises), []);
    assert [Invoke(c, Raises)] + [] == [Invoke(c, Raises)];
    assert Run(w', []) == w' && w'.calls[|w.calls|].request == w.callers[c].request;
    assert CallsFor(w, w.callers[c].request, [Invoke(c, Raises)]);
  }

  lemma ClaimedCalls(w: World, c: nat)
    requires Inv(w) && c in w.callers && w.callers[c].phase.Claimed?
    ensures FurtherCall(w, w.callers[c].request)
  {
    assert OwnedRow(w.db, w.callers[c]);
    StepKeepsInv(w, Start(c));
    StartedCalls(Step(w, Start(c)), c);
    ContinuesAfter(w, Start(c), w.callers[c].request);
  }

  lemma InsiderCalls(w: World, c: nat, request: nat)
    requires Inv(w) && CanStillCall(w, c, request)
    ensures FurtherCall(w, request)
  {
    match w.callers[c].phase {
      case Started(_, _) => StartedCalls(w, c);
      case Claimed(_) => ClaimedCalls(w, c);
      case Cleared =>
        StepKeepsInv(w, Claim(c));
        ClaimedCalls(Step(w, Claim(c)), c);
        ContinuesAfter(w, Claim(c), request);
    }
  }

  /** The executions of the request that are RUNNING. */
  ghost function RunningOf(db: Db, request: nat): set<int> {
    set e | 0 <= e < |db.executions| && db.executions[e].request == request && db.executions[e].status == Running
  }

  lemma {:induction false} OpenGuardCalls(w: World, request: nat)
    requires Inv(w) && GuardCanOpen(w, request)
    ensures FurtherCall(w, request)
    decreases |RunningOf(w.db, request)|
  {
    if RunningOf(w.db, request) != {} {
      var e :| e in RunningOf(w.db, request);
      assert Reopens(w, e);
      var c :| c in w.callers && WillRelease(w.callers[c], e);
      ReleaseStep(w, c, e, request);
      StepKeepsInv(w, Record(c));
      Smaller(RunningOf(Step(w, Record(c)).db, request), RunningOf(w.db, request));
      OpenGuardCalls(Step(w, Record(c)), request);
      ContinuesAfter(w, Record(c), request);
    } else {
      forall e | 0 <= e < |w.db.executions| && w.db.executions[e].request == request
        ensures !Blocking(w.db.executions[e].status)
      {
        assert Reopens(w, e) && e !in RunningOf(w.db, request);
      }
      if c :| c in w.callers && WaitsAtGuard(w, c, request) {
        WaiterCalls(w, c, request);
      } else {
        ApproveAndCall(w, request);
      }
    }
  }

  /** Nothing blocks the request, so the caller at the guard passes. */
  lemma WaiterCalls(w: World, c: nat, request: nat)
    requires Inv(w) && WaitsAtGuard(w, c, request) && Unblocked(w.db, request)
    ensures FurtherCall(w, request)
  {
    StepKeepsInv(w, Guard(c, true));
    InsiderCalls(Step(w, Guard(c, true)), c, request);
    ContinuesAfter(w, Guard(c, true), request);
  }

  lemma Smaller(a: set<int>, b: set<int>)
    requires a < b
    ensures |a| < |b|
  {
    assert b == a + (b - a);
  }

  /** Recording a releasing answer leaves one RUNNING execution less, and the guard as open as before. */
  lemma ReleaseStep(w: World, c: nat, e: nat, request: nat)
    requires Inv(w) && GuardCanOpen(w, request) && e in RunningOf(w.db, request)
    requires c in w.callers && WillRelease(w.callers[c], e)
    ensures var w' := Step(w, Record(c));
      GuardCanOpen(w', request) && RunningOf(w'.db, request) < RunningOf(w.db, request) && w'.calls == w.calls
  {
    var w' := Step(w, Record(c));
    var a := w.callers[c].phase.a;
    assert OwnedRow(w.db, w.callers[c]);
    SetStatusKeepsNames(w.db, e, a, w.callers[c].phase.outcome.status);
    assert w'.db == SetStatus(w.db, e, a, w.callers[c].phase.outcome.status);
    forall i | 0 <= i < |w'.db.executions| && w'.db.executions[i].request == request
      ensures Reopens(w', i)
    {
      assert Reopens(w, i);
      if i != e && Blocking(w.db.executions[i].status) {
        var d :| d in w.callers && WillRelease(w.callers[d], i);
        assert d != c && w'.callers[d] == w.callers[d];
      }
    }
    assert e !in RunningOf(w'.db, request);
    if d :| d in w.callers && WaitsAtGuard(w, d, request) { assert WaitsAtGuard(w', d, request); }
  }

  /** Nothing of the request blocks another key. */
  predicate Unblocked(db: Db, request: nat) {
    forall e :: 0 <= e < |db.executions| && db.executions[e].request == request ==> !Blocking(db.executions[e].status)
  }

  lemma ApproveAndCall(w: World, request: nat)
    requires Inv(w) && Approvable(w, request) && Unblocked(w.db, request)
    ensures FurtherCall(w, request)
  {
    if request !in w.db.requests {
      var next := Step(w, Decide(Ask(request)));
      StepKeepsInv(w, Decide(Ask(request)));
      PendingCalls(next, request);
      ContinuesAfter(w, Decide(Ask(request)), request);
    } else if IsApproved(w.db, request) {
      ApprovedCalls(w, request);
    } else if w.db.requests[request] == PendingApproval {
      PendingCalls(w, request);
    } else {
      var d :| d in w.desk.deciders && WillApprove(w.desk.deciders[d], request);
      ApproverCalls(w, d, request);
    }
  }

  lemma PendingCalls(w: World, request: nat)
    requires Inv(w) && request in w.db.requests && w.db.requests[request] == PendingApproval
    requires Unblocked(w.db, request)
    ensures FurtherCall(w, request)
  {
    var d := FreshCaller(w.desk.deciders.Keys);
    assert d !in w.desk.deciders.Keys;
    var ev := Decide(Consider(d, request, Approved));
    StepKeepsInv(w, ev);
    ApproverCalls(Step(w, ev), d, request);
    ContinuesAfter(w, ev, request);
  }

  lemma ApproverCalls(w: World, d: nat, request: nat)
    requires Inv(w) && request in w.db.requests && Unblocked(w.db, request)
    requires d in w.desk.deciders && WillApprove(w.desk.deciders[d], request)
    ensures FurtherCall(w, request)
  {
    StepKeepsInv(w, Decide(Settle(d)));
    ApprovedCalls(Step(w, Decide(Settle(d))), request);
    ContinuesAfter(w, Decide(Settle(d)), request);
  }

  lemma ApprovedCalls(w: World, request: nat)
    requires Inv(w) && IsApproved(w.db, request) && Unblocked(w.db, request)
    ensures FurtherCall(w, request)
  {
    var c, key, events := Enter(w, request);
    RunKeepsInv(w, events);
    InsiderCalls(Run(w, events), c, request);
    var more :| CallsFor(Run(w, events), request, more);
    RunAppend(w, events, more);
    assert CallsFor(w, request, events + more);
  }

  /** A number above all the used ones. */
  lemma {:induction false} FreshCaller(used: set<nat>) returns (n: nat)
    ensures forall k :: k in used ==> k < n
    decreases used
  {
    if used == {} {
      n := 0;
    } else {
      var x :| x in used;
      var m := FreshCaller(used - {x});
      n := if x >= m then x + 1 else m;
      forall k | k in used ensures k < n { if k != x { assert k in used - {x}; } }
    }
  }

  /** A key longer than every stored one. */
  lemma {:induction false} FreshKey(executions: seq<Execution>) returns (key: string)
    ensures key != "" && forall e :: 0 <= e < |executions| ==> |executions[e].key| < |key|
  {
    if executions == [] {
      key := "k";
    } else {
      var n := |executions| - 1;
      key := FreshKey(executions[..n]);
      if |executions[n].key| >= |key| { key := executions[n].key + "k"; }
    }
  }

  /** A new caller with a new key passes the guard of an approved request that nothing blocks. */
  lemma Enter(w: World, request: nat) returns (c: nat, key: string, events: seq<Event>)
    requires IsApproved(w.db, request) && Unblocked(w.db, request)
    ensures c !in w.callers && forall d :: d in w.callers ==> w.callers[d].key != key
    ensures Run(w, events) == w.(callers := w.callers[c := Caller(request, key, Cleared)])
    ensures CanStillCall(Run(w, events), c, request)
  {
    c := FreshCaller(w.callers.Keys);
    assert c !in w.callers.Keys;
    key := NewKey(w);
    var arrive, authorize, guard := Arrive(c, request, Some(key)), Authorize(c), Guard(c, true);
    var w1 := w.(callers := w.callers[c := Caller(request, key, Arrived)]);
    var w2 := w.(callers := w.callers[c := Caller(request, key, Authorized)]);
    var w3 := w.(callers := w.callers[c := Caller(request, key, Cleared)]);
    assert Step(w, arrive) == w1;
    assert Step(w1, authorize) == w2 by { assert w1.callers[c := w1.callers[c].(phase := Authorized)] == w2.callers; }
    assert Step(w2, guard) == w3 by {
      assert !Replays(w.db, request, key) && !Blocked(w.db, request, key);
      assert w2.callers[c := w2.callers[c].(phase := Cleared)] == w3.callers;
    }
    RunThree(w, arrive, authorize, guard);
    events := [arrive, authorize, guard];
  }

  /** A key that neither a stored execution nor a caller carries. */
  lemma NewKey(w: World) returns (key: string)
    ensures key != "" && !HasKey(w.db, key) && forall d :: d in w.callers ==> w.callers[d].key != key
  {
    var stored := FreshKey(w.db.executions);
    key := LongerThanCallers(w.callers.Keys, w.callers, stored);
  }

  lemma {:induction false} LongerThanCallers(ids: set<nat>, callers: map<nat, Caller>, atLeast: string)
    returns (key: string)
    requires ids <= callers.Keys
    ensures |key| >= |atLeast| && forall d :: d in ids ==> |callers[d].key| < |key| + (if ids == {} then 1 else 0)
    ensures forall d :: d in ids ==> callers[d].key != key
    decreases ids
  {
    if ids == {} {
      key := atLeast;
    } else {
      var d :| d in ids;
      key := LongerThanCallers(ids - {d}, callers, atLeast);
      if |callers[d].key| >= |key| { key := callers[d].key + "k"; }
    }
  }

  /**
   The guard is no lock: from every world in which nothing blocks an approved request, two new
   callers under two keys can both pass it and both reach the adapter.
   */
  lemma {:induction false} TwoKeysBothInvoke(w: World, request: nat)
    requires Inv(w) && IsApproved(w.db, request) && Unblocked(w.db, request)
    ensures exists events ::
      && |Run(w, events).calls| == |w.calls| + 1 && Run(w, events).calls[|w.calls|].request == request
      && exists c :: CanStillCall(Run(w, events), c, request)
  {
    var c, key, first := Enter(w, request);
    var w1 := Run(w, first);
    RunKeepsInv(w, first);
    var d, other, second := Enter(w1, request);
    var w2 := Run(w1, second);
    RunKeepsInv(w1, second);
    assert w2.callers[c] == w1.callers[c];
    FirstOfTwoCalls(w2, c, d, request);
    var rest := [Claim(c), Start(c), Invoke(c, Raises)];
    RunAppend(w, first, second);
    RunAppend(w, first + second, rest);
    assert CanStillCall(Run(w, first + second + rest), d, request);
  }

  /** `d` is past the guard under a free key while `c` goes on. */
  predicate WaitsBehind(w: World, c: nat, d: nat, request: nat) {
    && c in w.callers && d in w.callers && c != d && w.callers[c].request == request
    && w.callers[d].request == request && w.callers[d].phase == Cleared
    && w.callers[c].key != w.callers[d].key && !HasKey(w.db, w.callers[d].key)
  }

  lemma ClaimWhileWaiting(w: World, c: nat, d: nat, request: nat)
    requires WaitsBehind(w, c, d, request) && w.callers[c].phase == Cleared && !HasKey(w.db, w.callers[c].key)
    ensures var w' := Step(w, Claim(c));
      WaitsBehind(w', c, d, request) && w'.callers[c].phase == Claimed(|w.db.executions|) && w'.calls == w.calls
      && |w'.db.executions| == |w.db.executions| + 1
  {
  }

  lemma StartWhileWaiting(w: World, c: nat, d: nat, request: nat)
    requires WaitsBehind(w, c, d, request) && w.callers[c].phase.Claimed? && w.callers[c].phase.e < |w.db.executions|
    ensures var w' := Step(w, Start(c));
      WaitsBehind(w', c, d, request) && w'.callers[c].phase.Started? && w'.calls == w.calls
  {
    var w' := Step(w, Start(c));
    assert forall e :: 0 <= e < |w.db.executions| ==> w'.db.executions[e].key == w.db.executions[e].key;
  }

  lemma InvokeWhileWaiting(w: World, c: nat, d: nat, request: nat)
    requires WaitsBehind(w, c, d, request) && w.callers[c].phase.Started?
    ensures var w' := Step(w, Invoke(c, Raises));
      && CanStillCall(w', d, request) && |w'.calls| == |w.calls| + 1 && w'.calls[|w.calls|].request == request
  {
  }

  lemma {:induction false} FirstOfTwoCalls(w: World, c: nat, d: nat, request: nat)
    requires WaitsBehind(w, c, d, request) && w.callers[c].phase == Cleared && !HasKey(w.db, w.callers[c].key)
    ensures var w' := Run(w, [Claim(c), Start(c), Invoke(c, Raises)]);
      && |w'.calls| == |w.calls| + 1 && w'.calls[|w.calls|].request == request && CanStillCall(w', d, request)
  {
    ClaimWhileWaiting(w, c, d, request);
    var w1 := Step(w, Claim(c));
    StartWhileWaiting(w1, c, d, request);
    var w2 := Step(w1, Start(c));
    InvokeWhileWaiting(w2, c, d, request);
    RunThree(w, Claim(c), Start(c), Invoke(c, Raises));
  }

  lemma {:induction false} RunThree(w: World, e: Event, f: Event, g: Event)
    ensures Run(w, [e, f, g]) == Step(Step(Step(w, e), f), g)
  {
    RunCons(Step(Step(w, e), f), g, []);
    RunCons(Step(w, e), f, [g]);
    RunCons(w, e, [f, g]);
    assert [g] + [] == [g] && [f] + [g] == [f, g] && [e] + [f, g] == [e, f, g];
  }

  // ---------------------------------------------------------------- when a stored answer stays

  /** The k-th event is the owner's handler storing UNKNOWN over an answer already committed. */
  ghost predicate OverwritesAt(w: World, events: seq<Event>, c: nat, k: nat) {
    && k < |events| && events[k] == Fault(c, true)
    && c in Run(w, events[..k]).callers && Run(w, events[..k]).callers[c].phase.Recorded?
  }

  lemma OverwritesShift(w: World, events: seq<Event>, c: nat, k: nat)
    requires events != [] && k < |events| - 1
    ensures OverwritesAt(w, events, c, k + 1) <==> OverwritesAt(Step(w, events[0]), events[1..], c, k)
  {
    assert events[..k + 1] == [events[0]] + events[1..][..k];
    RunCons(w, events[0], events[1..][..k]);
  }

  /** Nobody holds the execution any more. */
  ghost predicate Settled(w: World, e: nat) {
    e < |w.db.executions| && forall d :: d in w.callers && Owning(w.callers[d].phase) ==> w.callers[d].phase.e != e
  }

  lemma SettledRowStays(w: World, ev: Event, e: nat)
    requires Settled(w, e)
    ensures e < |Step(w, ev).db.executions| && Step(w, ev).db.executions[e] == w.db.executions[e]
  {
  }

  lemma SettledStep(w: World, ev: Event, e: nat)
    requires Inv(w) && Settled(w, e)
    ensures Settled(Step(w, ev), e) && Step(w, ev).db.executions[e] == w.db.executions[e]
  {
    var w' := Step(w, ev);
    SettledRowStays(w, ev, e);
    forall d | d in w'.callers && Owning(w'.callers[d].phase)
      ensures w'.callers[d].phase.e != e
    {
      OwnersMove(w, ev, d);
    }
  }

  /** An owner owned its execution before, or has just inserted it. */
  lemma OwnersMove(w: World, ev: Event, d: nat)
    requires d in Step(w, ev).callers && Owning(Step(w, ev).callers[d].phase)
    ensures d in w.callers
    ensures if Owning(w.callers[d].phase) then Step(w, ev).callers[d].phase.e == w.callers[d].phase.e
      else Step(w, ev).callers[d].phase.e == |w.db.executions|
  {
  }

  lemma {:induction false} SettledStays(w: World, events: seq<Event>, e: nat)
    requires Inv(w) && Settled(w, e)
    ensures e < |Run(w, events).db.executions| && Run(w, events).db.executions[e] == w.db.executions[e]
    decreases |events|
  {
    if events != [] {
      StepKeepsInv(w, events[0]);
      SettledStep(w, events[0], e);
      SettledStays(Step(w, events[0]), events[1..], e);
    }
  }

  lemma {:induction false} OverForever(w: World, events: seq<Event>, c: nat)
    requires c in w.callers && Over(w.callers[c].phase)
    ensures c in Run(w, events).callers && Run(w, events).callers[c] == w.callers[c]
    decreases |events|
  {
    if events != [] {
      assert Step(w, events[0]).callers[c] == w.callers[c];
      OverForever(Step(w, events[0]), events[1..], c);
    }
  }

  predicate OwnEvent(ev: Event, c: nat) {
    !ev.Arrive? && !ev.Decide? && ev.c == c
  }

  /** Other callers touch neither the owner nor its execution. */
  lemma OthersLeaveOwner(w: World, ev: Event, c: nat)
    requires Inv(w) && c in w.callers && Owning(w.callers[c].phase) && !OwnEvent(ev, c)
    ensures var w' := Step(w, ev);
      && c in w'.callers && w'.callers[c] == w.callers[c]
      && w.callers[c].phase.e < |w.db.executions| <= |w'.db.executions|
      && w'.db.executions[w.callers[c].phase.e] == w.db.executions[w.callers[c].phase.e]
  {
    assert OwnedRow(w.db, w.callers[c]);
    if !ev.Arrive? && !ev.Decide? && ev.c in w.callers && Owning(w.callers[ev.c].phase) {
      assert OwnedRow(w.db, w.callers[ev.c]);
      OwnerTouchesItsRow(w, ev, w.callers[c].phase.e);
    } else {
      OthersKeepRow(w, ev, w.callers[c].phase.e);
    }
    OthersKeepCaller(w, ev, c);
  }

  lemma OthersKeepCaller(w: World, ev: Event, c: nat)
    requires c in w.callers && !OwnEvent(ev, c)
    ensures c in Step(w, ev).callers && Step(w, ev).callers[c] == w.callers[c]
  {
  }

  lemma OwnerTouchesItsRow(w: World, ev: Event, e: nat)
    requires !ev.Arrive? && !ev.Decide? && ev.c in w.callers && Owning(w.callers[ev.c].phase)
    requires e < |w.db.executions| && e != w.callers[ev.c].phase.e
    ensures |w.db.executions| == |Step(w, ev).db.executions| && Step(w, ev).db.executions[e] == w.db.executions[e]
  {
  }

  /** A caller that gave its execution up leaves it settled. */
  lemma GivenUpIsSettled(w: World, ev: Event, c: nat)
    requires Inv(w) && c in w.callers && w.callers[c].phase.Recorded? && OwnEvent(ev, c)
    requires ev.Finish? || ev.Stop? || ev.Fault?
    ensures var w' := Step(w, ev);
      && Settled(w', w.callers[c].phase.e) && c in w'.callers && Over(w'.callers[c].phase)
      && w'.db.executions[w.callers[c].phase.e].status
         == if ev.Fault? && ev.recovers then Unknown else w.db.executions[w.callers[c].phase.e].status
  {
    assert OwnedRow(w.db, w.callers[c]);
    var w' := Step(w, ev);
    assert forall d :: d in w.callers && d != c ==> w'.callers[d] == w.callers[d];
  }

  /**
   In every continuation: an answer that was committed stays unless it was UNKNOWN anyway or
   the owner's own handler recovers from a later fault and stores UNKNOWN over it; and then it
   never stays.
   */
  lemma {:induction false} AnswerSurvivesIff(w: World, events: seq<Event>, c: nat)
    requires Inv(w) && c in w.callers && w.callers[c].phase.Recorded?
    ensures var e := w.callers[c].phase.e;
      var w' := Run(w, events);
      && e < |w.db.executions| <= |w'.db.executions|
      && (w'.db.executions[e].status == w.db.executions[e].status
          <==> w.db.executions[e].status == Unknown || !exists k: nat :: OverwritesAt(w, events, c, k))
    decreases |events|
  {
    assert OwnedRow(w.db, w.callers[c]);
    RowsOnlyGrow(w, events);
    if events != [] {
      var e := w.callers[c].phase.e;
      var ev, rest := events[0], events[1..];
      var next := Step(w, ev);
      StepKeepsInv(w, ev);
      forall k: nat | k < |events| - 1
        ensures OverwritesAt(w, events, c, k + 1) <==> OverwritesAt(next, rest, c, k)
      {
        OverwritesShift(w, events, c, k);
      }
      assert OverwritesAt(w, events, c, 0) <==> ev == Fault(c, true) by { assert events[..0] == []; }
      if OwnEvent(ev, c) && (ev.Finish? || ev.Stop? || ev.Fault?) {
        GivenUpIsSettled(w, ev, c);
        SettledStays(next, rest, e);
        NoLaterOverwrite(w, events, c);
      } else {
        OwnerWaits(w, ev, c);
        AnswerSurvivesIff(next, rest, c);
        OverwriteMoves(w, events, c);
      }
    }
  }

  lemma OwnerWaits(w: World, ev: Event, c: nat)
    requires Inv(w) && c in w.callers && w.callers[c].phase.Recorded?
    requires !(OwnEvent(ev, c) && (ev.Finish? || ev.Stop? || ev.Fault?))
    ensures var w' := Step(w, ev);
      && c in w'.callers && w'.callers[c] == w.callers[c]
      && w.callers[c].phase.e < |w.db.executions| <= |w'.db.executions|
      && w'.db.executions[w.callers[c].phase.e] == w.db.executions[w.callers[c].phase.e]
  {
    if OwnEvent(ev, c) { assert OwnedRow(w.db, w.callers[c]) && Step(w, ev) == w; } else { OthersLeaveOwner(w, ev, c); }
  }

  lemma NoLaterOverwrite(w: World, events: seq<Event>, c: nat)
    requires events != [] && c in Step(w, events[0]).callers && Over(Step(w, events[0]).callers[c].phase)
    ensures forall k: nat :: k > 0 ==> !OverwritesAt(w, events, c, k)
  {
    forall k: nat | k > 0 && k < |events|
      ensures !OverwritesAt(w, events, c, k)
    {
      assert events[..k] == [events[0]] + events[1..k];
      RunCons(w, events[0], events[1..k]);
      OverForever(Step(w, events[0]), events[1..k], c);
    }
  }

  lemma OverwriteMoves(w: World, events: seq<Event>, c: nat)
    requires events != [] && !OverwritesAt(w, events, c, 0)
    ensures (exists k: nat :: OverwritesAt(w, events, c, k)) <==>
        exists k: nat :: OverwritesAt(Step(w, events[0]), events[1..], c, k)
  {
    if k: nat :| OverwritesAt(w, events, c, k) {
      OverwritesShift(w, events, c, k - 1);
      assert OverwritesAt(Step(w, events[0]), events[1..], c, k - 1);
    }
    if k: nat :| OverwritesAt(Step(w, events[0]), events[1..], c, k) {
      OverwritesShift(w, events, c, k);
      assert OverwritesAt(w, events, c, k + 1);
    }
  }

  lemma {:induction false} RowsOnlyGrow(w: World, events: seq<Event>)
    ensures |w.db.executions| <= |Run(w, events).db.executions|
    decreases |events|
  {
    if events != [] { RowsOnlyGrow(Step(w, events[0]), events[1..]); }
  }
}
