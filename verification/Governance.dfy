/**
 From a discrepancy to an executed action, one service call at a time: policy evaluation,
 action request, approval, execution. Rows are never deleted, so a row's id is its position
 in its table.
 */
module Governance {
  import opened Decisions
  import opened Wrappers
  import opened ActionExecution

  datatype PolicyAction =
    | RequestManualReview | RetryInvestigation | ResolveDiscrepancy | RejectRecommendation | Escalate

  datatype Decision = Allowed | Denied | ApprovalRequired

  /** `investigation` is a row of the investigation table; its discrepancy is unique there. */
  datatype Evaluation = Evaluation(investigation: nat, discrepancy: string, action: PolicyAction, decision: Decision)

  datatype Request = Request(evaluation: nat, investigation: nat, discrepancy: string,
                             action: PolicyAction, status: RequestStatus)

  datatype Audit = Audit(request: nat, previous: RequestStatus, next: RequestStatus)

  datatype Gov = Gov(investigations: seq<string>, evaluations: seq<Evaluation>, requests: seq<Request>,
                     audits: seq<Audit>, executions: seq<Execution>, attempts: seq<Attempt>, calls: seq<Call>)

  datatype Op =
    | Investigate(discrepancy: string)
    | Evaluate(investigation: nat, action: PolicyAction)
    | Create(evaluation: nat)
    | Transition(request: nat, status: RequestStatus)
    | Execute(request: nat, key: Option<string>, script: Script, caller: nat)

  const EMPTY := Gov([], [], [], [], [], [], [])

  function DecisionFor(action: PolicyAction): Decision {
    if action.RequestManualReview? || action.RetryInvestigation? then Allowed else ApprovalRequired
  }

  predicate Evaluated(g: Gov, investigation: nat, action: PolicyAction) {
    exists v :: 0 <= v < |g.evaluations| && g.evaluations[v].investigation == investigation &&
        g.evaluations[v].action == action
  }

  predicate Requested(g: Gov, evaluation: nat) {
    exists r :: 0 <= r < |g.requests| && g.requests[r].evaluation == evaluation
  }

  /** The tables as the execution protocol sees them. */
  function Tables(g: Gov): Db {
    Db(map r: nat | r < |g.requests| :: g.requests[r].status, g.executions, g.attempts)
  }

  function Apply(g: Gov, op: Op): Gov {
    match op
    case Investigate(d) =>
      if d in g.investigations then g else g.(investigations := g.investigations + [d])
    case Evaluate(i, action) =>
      if i >= |g.investigations| || Evaluated(g, i, action) then g
      else g.(evaluations := g.evaluations + [Evaluation(i, g.investigations[i], action, DecisionFor(action))])
    case Create(v) =>
      if v >= |g.evaluations| || g.evaluations[v].decision != ApprovalRequired || Requested(g, v) then g
      else
        var e := g.evaluations[v];
        g.(requests := g.requests + [Request(v, e.investigation, e.discrepancy, e.action, PendingApproval)])
    case Transition(r, status) =>
      if r >= |g.requests| || !CanTransition(g.requests[r].status, status) then g
      else g.(requests := g.requests[r := g.requests[r].(status := status)],
              audits := g.audits + [Audit(r, g.requests[r].status, status)])
    case Execute(r, key, script, caller) =>
      var k := KeyFor(r, key);
      var db := SerialDb(Tables(g), r, k, script);
      g.(executions := db.executions, attempts := db.attempts,
         calls := g.calls + (if Calls(Tables(g), r, k, script) then [Call(caller, |g.executions|, r, k)] else []))
  }

  function RunOps(g: Gov, ops: seq<Op>): Gov {
    if ops == [] then g else Apply(RunOps(g, ops[..|ops| - 1]), ops[|ops| - 1])
  }

  // ---------------------------------------------------------------- the invariant

  /** Plays one request's audit rows from PENDING_APPROVAL; None when a row does not fit. */
  function Replay(audits: seq<Audit>, r: nat): Option<RequestStatus> {
    if audits == [] then Some(PendingApproval)
    else
      var before := Replay(audits[..|audits| - 1], r);
      var last := audits[|audits| - 1];
      if last.request != r then before
      else if before == Some(last.previous) && CanTransition(last.previous, last.next) then Some(last.next)
      else None
  }

  predicate EvaluationsSound(g: Gov) {
    && (forall i, j :: 0 <= i < j < |g.investigations| ==> g.investigations[i] != g.investigations[j])
    && (forall v :: 0 <= v < |g.evaluations| ==>
          && g.evaluations[v].investigation < |g.investigations|
          && g.evaluations[v].discrepancy == g.investigations[g.evaluations[v].investigation]
          && g.evaluations[v].decision == DecisionFor(g.evaluations[v].action))
    && (forall u, v :: 0 <= u < v < |g.evaluations| ==>
          g.evaluations[u].investigation != g.evaluations[v].investigation ||
              g.evaluations[u].action != g.evaluations[v].action)
  }

  /** Each request stands on its own APPROVAL_REQUIRED evaluation and copies it. */
  predicate RequestsSound(g: Gov) {
    && (forall r :: 0 <= r < |g.requests| ==>
          && g.requests[r].evaluation < |g.evaluations|
          && g.evaluations[g.requests[r].evaluation].decision == ApprovalRequired
          && g.requests[r].investigation == g.evaluations[g.requests[r].evaluation].investigation
          && g.requests[r].discrepancy == g.evaluations[g.requests[r].evaluation].discrepancy
          && g.requests[r].action == g.evaluations[g.requests[r].evaluation].action)
    && (forall r, q :: 0 <= r < q < |g.requests| ==> g.requests[r].evaluation != g.requests[q].evaluation)
  }

  predicate AuditsSound(g: Gov) {
    && (forall r :: 0 <= r < |g.requests| ==> Replay(g.audits, r) == Some(g.requests[r].status))
    && (forall a :: 0 <= a < |g.audits| ==> g.audits[a].request < |g.requests|)
  }

  predicate ExecutionsSound(g: Gov) {
    && (forall e :: 0 <= e < |g.executions| ==>
          g.executions[e].request < |g.requests| && g.requests[g.executions[e].request].status == Approved)
    && (forall e, f :: 0 <= e < f < |g.executions| ==> g.executions[e].key != g.executions[f].key)
    && (forall a :: 0 <= a < |g.attempts| ==> g.attempts[a].execution < |g.executions|)
    && (forall a, b :: 0 <= a < b < |g.attempts| ==> g.attempts[a].execution < g.attempts[b].execution)
    && (forall k :: 0 <= k < |g.calls| ==> CalledAs(g, g.calls[k]))
    && (forall j, k :: 0 <= j < k < |g.calls| ==> g.calls[j].execution < g.calls[k].execution)
  }

  predicate CalledAs(g: Gov, call: Call) {
    && call.execution < |g.executions| && g.executions[call.execution].request == call.request
    && exists a :: 0 <= a < |g.attempts| && g.attempts[a].execution == call.execution
  }

  predicate Coherent(g: Gov) {
    EvaluationsSound(g) && RequestsSound(g) && AuditsSound(g) && ExecutionsSound(g)
  }

  lemma ApplyKeepsCoherent(g: Gov, op: Op)
    requires Coherent(g)
    ensures Coherent(Apply(g, op))
  {
    match op {
      case Investigate(d) => SameCalls(g, Apply(g, op));
      case Evaluate(i, action) => SameCalls(g, Apply(g, op));
      case Create(v) => CreateKeepsCoherent(g, v);
      case Transition(r, status) =>
        if Apply(g, op) != g { TransitionKeepsCoherent(g, r, status); }
      case Execute(r, key, script, caller) =>
        ExecuteKeepsCoherent(g, r, KeyFor(r, key), script, caller, Apply(g, op));
    }
  }

  lemma SameCalls(g: Gov, g': Gov)
    requires Coherent(g)
    requires g'.executions == g.executions && g'.attempts == g.attempts && g'.calls == g.calls
    requires |g.requests| <= |g'.requests|
    requires forall r :: 0 <= r < |g.requests| && g.requests[r].status == Approved ==> g'.requests[r].status == Approved
    ensures ExecutionsSound(g')
  {
    assert forall k :: 0 <= k < |g.calls| ==> CalledAs(g, g.calls[k]) && CalledAs(g', g'.calls[k]);
  }

  lemma CreateKeepsCoherent(g: Gov, v: nat)
    requires Coherent(g)
    ensures Coherent(Apply(g, Create(v)))
  {
    var g' := Apply(g, Create(v));
    if g' != g {
      CreateKeepsAudits(g, g', g'.requests[|g.requests|]);
      SameCalls(g, g');
      assert forall r :: 0 <= r < |g.requests| ==> g'.requests[r] == g.requests[r];
    }
  }

  lemma CreateKeepsAudits(g: Gov, g': Gov, request: Request)
    requires AuditsSound(g) && request.status == PendingApproval
    requires g'.audits == g.audits && g'.requests == g.requests + [request]
    ensures AuditsSound(g')
  {
    NoAuditsYet(g.audits, |g.requests|);
    assert forall r :: 0 <= r < |g.requests| ==> g'.requests[r] == g.requests[r];
  }

  lemma {:induction false} NoAuditsYet(audits: seq<Audit>, r: nat)
    requires forall a :: 0 <= a < |audits| ==> audits[a].request != r
    ensures Replay(audits, r) == Some(PendingApproval)
  {
    if audits != [] { NoAuditsYet(audits[..|audits| - 1], r); }
  }

  lemma TransitionKeepsCoherent(g: Gov, r: nat, status: RequestStatus)
    requires Coherent(g) && r < |g.requests| && CanTransition(g.requests[r].status, status)
    ensures Coherent(Apply(g, Transition(r, status)))
  {
    var g' := Apply(g, Transition(r, status));
    TransitionKeepsAudits(g, g', r, status);
    TransitionKeepsRequests(g, g', r, status);
    SameCalls(g, g');
  }

  lemma TransitionKeepsAudits(g: Gov, g': Gov, r: nat, status: RequestStatus)
    requires AuditsSound(g) && r < |g.requests| && CanTransition(g.requests[r].status, status)
    requires g'.requests == g.requests[r := g.requests[r].(status := status)]
    requires g'.audits == g.audits + [Audit(r, g.requests[r].status, status)]
    ensures AuditsSound(g')
  {
    assert g'.audits[..|g.audits|] == g.audits;
  }

  lemma TransitionKeepsRequests(g: Gov, g': Gov, r: nat, status: RequestStatus)
    requires RequestsSound(g) && r < |g.requests|
    requires g'.requests == g.requests[r := g.requests[r].(status := status)] && g'.evaluations == g.evaluations
    ensures RequestsSound(g')
  {
  }

  lemma ExecuteKeepsCoherent(g: Gov, r: nat, key: string, script: Script, caller: nat, g': Gov)
    requires Coherent(g)
    requires var db := SerialDb(Tables(g), r, key, script);
      g' == g.(executions := db.executions, attempts := db.attempts,
               calls := g.calls +
                   (if Calls(Tables(g), r, key, script) then [Call(caller, |g.executions|, r, key)] else []))
    ensures Coherent(g')
  {
    var db := Tables(g);
    if Claims(db, r, key, script) {
      assert r < |g.requests| && g.requests[r].status == Approved;
      assert forall e :: 0 <= e < |g.executions| ==> db.executions[e].key != key;
      var status := if script.stop.AfterClaim? then Pending else FinalStatus(script);
      var made := if script.stop.AfterClaim? then [] else [Attempt(|g.executions|, 1, status)];
      var called := if Calls(db, r, key, script) then [Call(caller, |g.executions|, r, key)] else [];
      assert g.attempts + made == g'.attempts;
      AppendKeepsCoherent(g, g', r, key, status, made, called);
    } else {
      assert g'.calls == g.calls && g' == g;
    }
  }

  /** A new execution of an approved request, with its attempt and its adapter call if any. */
  lemma AppendKeepsCoherent(g: Gov, g': Gov, r: nat, key: string, status: ExecStatus, made: seq<Attempt>,
          called: seq<Call>)
    requires Coherent(g) && r < |g.requests| && g.requests[r].status == Approved
    requires forall e :: 0 <= e < |g.executions| ==> g.executions[e].key != key
    requires g' == g.(executions := g.executions + [Execution(r, key, status)],
                      attempts := g.attempts + made, calls := g.calls + called)
    requires |called| <= |made| <= 1
    requires forall m :: m in made ==> m.execution == |g.executions|
    requires forall c :: c in called ==> c.execution == |g.executions| && c.request == r
    ensures Coherent(g')
  {
    forall c | 0 <= c < |g'.calls|
      ensures CalledAs(g', g'.calls[c])
    {
      if c < |g.calls| {
        assert CalledAs(g, g.calls[c]);
        OldCallStays(g, g', g.calls[c]);
      } else {
        assert g'.calls[c] == called[0] && g'.attempts[|g.attempts|] == made[0];
      }
    }
    OrderKept(g, g');
  }

  lemma OrderKept(g: Gov, g': Gov)
    requires ExecutionsSound(g)
    requires g.calls <= g'.calls && |g'.calls| <= |g.calls| + 1
    requires forall k :: |g.calls| <= k < |g'.calls| ==> g'.calls[k].execution >= |g.executions|
    ensures forall j, k :: 0 <= j < k < |g'.calls| ==> g'.calls[j].execution < g'.calls[k].execution
  {
    assert forall j :: 0 <= j < |g.calls| ==> CalledAs(g, g.calls[j]);
  }

  lemma OldCallStays(g: Gov, g': Gov, call: Call)
    requires CalledAs(g, call) && g.executions <= g'.executions && g.attempts <= g'.attempts
    ensures CalledAs(g', call)
  {
    var a :| 0 <= a < |g.attempts| && g.attempts[a].execution == call.execution;
    assert g'.attempts[a] == g.attempts[a];
  }

  // ---------------------------------------------------------------- over every sequence of calls

  /**
   In every state the services reach: each execution belongs to an APPROVED request, each
   request to its own APPROVAL_REQUIRED evaluation with the same investigation, discrepancy
   and action, and playing the audit rows gives the request's status.
   */
  lemma {:induction false} GovernanceSafety(ops: seq<Op>)
    ensures Coherent(RunOps(EMPTY, ops))
  {
    if ops != [] {
      GovernanceSafety(ops[..|ops| - 1]);
      ApplyKeepsCoherent(RunOps(EMPTY, ops[..|ops| - 1]), ops[|ops| - 1]);
    }
  }

  /** A discrepancy has at most one action request per action, however often it is asked for. */
  lemma {:induction false} OneRequestPerDiscrepancyAndAction(ops: seq<Op>, r: nat, q: nat)
    requires var g := RunOps(EMPTY, ops);
      r < |g.requests| && q < |g.requests|
      && g.requests[r].discrepancy == g.requests[q].discrepancy && g.requests[r].action == g.requests[q].action
    ensures r == q
  {
    var g := RunOps(EMPTY, ops);
    GovernanceSafety(ops);
    var u, v := g.requests[r].evaluation, g.requests[q].evaluation;
    assert g.investigations[g.evaluations[u].investigation] == g.investigations[g.evaluations[v].investigation];
    assert u == v;
  }

  /** A decision is final: at most one audit row per request. */
  lemma {:induction false} DecidedOnce(audits: seq<Audit>, r: nat, a: nat, b: nat)
    requires Replay(audits, r).Some?
    requires a < b < |audits|
    ensures !(audits[a].request == r && audits[b].request == r)
  {
    if audits[a].request == r && audits[b].request == r {
      FitsAt(audits, r, b);
      FitsAt(audits[..b], r, a);
      assert audits[..b][..a + 1] == audits[..a + 1];
      DecidedStays(audits[..b], r, a);
      assert false;
    }
  }

  lemma {:induction false} FitsAt(audits: seq<Audit>, r: nat, b: nat)
    requires Replay(audits, r).Some? && b < |audits|
    ensures Replay(audits[..b], r).Some? && Replay(audits[..b + 1], r).Some?
    ensures audits[b].request == r ==> Replay(audits[..b], r) == Some(PendingApproval)
    ensures audits[b].request == r ==> Replay(audits[..b + 1], r) != Some(PendingApproval)
  {
    var n := |audits| - 1;
    if b < n {
      FitsAt(audits[..n], r, b);
      assert audits[..n][..b] == audits[..b] && audits[..n][..b + 1] == audits[..b + 1];
    } else {
      assert audits[..b + 1] == audits;
    }
  }

  lemma {:induction false} DecidedStays(audits: seq<Audit>, r: nat, a: nat)
    requires Replay(audits, r).Some? && a < |audits|
    requires Replay(audits[..a + 1], r) != Some(PendingApproval)
    ensures Replay(audits, r) != Some(PendingApproval)
  {
    var n := |audits| - 1;
    if a < n {
      FitsAt(audits, r, n);
      assert audits[..n][..a + 1] == audits[..a + 1];
      DecidedStays(audits[..n], r, a);
    } else {
      assert audits[..a + 1] == audits;
    }
  }

  // ---------------------------------------------------------------- one live execution per request

  /** Every operation's adapter answers something other than PENDING. */
  predicate AnswersAreFinal(ops: seq<Op>) {
    forall k :: 0 <= k < |ops| && ops[k].Execute? ==> ops[k].script.outcome != Answers(Pending)
  }

  predicate HasAttempt(g: Gov, e: nat) {
    exists a :: 0 <= a < |g.attempts| && g.attempts[a].execution == e
  }

  /** What an execution that a newer one of its request has overtaken looks like. */
  predicate Overtaken(g: Gov, e: nat)
    requires e < |g.executions|
  {
    g.executions[e].status == Failed || (g.executions[e].status == Pending && !HasAttempt(g, e))
  }

  predicate OnlyNewestLives(g: Gov) {
    && (forall e, f :: 0 <= e < f < |g.executions| && g.executions[e].request == g.executions[f].request ==>
        Overtaken(g, e))
    && (forall e :: 0 <= e < |g.executions| && g.executions[e].status == Pending ==> !HasAttempt(g, e))
  }

  lemma ExecuteKeepsNewest(g: Gov, op: Op)
    requires Coherent(g) && OnlyNewestLives(g) && op.Execute? && op.script.outcome != Answers(Pending)
    ensures OnlyNewestLives(Apply(g, op))
  {
    var g' := Apply(g, op);
    var k := KeyFor(op.request, op.key);
    if Claims(Tables(g), op.request, k, op.script) {
      var status := if op.script.stop.AfterClaim? then Pending else FinalStatus(op.script);
      var made := if op.script.stop.AfterClaim? then [] else [Attempt(|g.executions|, 1, status)];
      assert g'.attempts == g.attempts + made;
      GuardPassed(g, op.request, k);
      AppendKeepsNewest(g, g', op.request, k, status, made);
    }
  }

  /** The guard only lets a key through when no execution of the request blocks it. */
  lemma GuardPassed(g: Gov, r: nat, key: string)
    requires !Replays(Tables(g), r, key) && !Blocked(Tables(g), r, key)
    ensures forall e :: 0 <= e < |g.executions| && g.executions[e].request == r ==> !Blocking(g.executions[e].status)
  {
    var db := Tables(g);
    forall e | 0 <= e < |g.executions| && g.executions[e].request == r
      ensures !Blocking(g.executions[e].status)
    {
      assert db.executions[e].key != key;
    }
  }

  lemma AppendKeepsNewest(g: Gov, g': Gov, r: nat, key: string, status: ExecStatus, made: seq<Attempt>)
    requires OnlyNewestLives(g) && (forall a :: 0 <= a < |g.attempts| ==> g.attempts[a].execution < |g.executions|)
    requires forall e :: 0 <= e < |g.executions| && g.executions[e].request == r ==> !Blocking(g.executions[e].status)
    requires g'.executions == g.executions + [Execution(r, key, status)] && g'.attempts == g.attempts + made
    requires forall m :: m in made ==> m.execution == |g.executions|
    requires status == Pending ==> made == []
    ensures OnlyNewestLives(g')
  {
    forall e: nat | e < |g.executions|
      ensures HasAttempt(g', e) <==> HasAttempt(g, e)
    {
      if HasAttempt(g', e) {
        var a :| 0 <= a < |g'.attempts| && g'.attempts[a].execution == e;
        assert a < |g.attempts| && g.attempts[a].execution == e;
      }
      if HasAttempt(g, e) {
        var a :| 0 <= a < |g.attempts| && g.attempts[a].execution == e;
        assert g'.attempts[a].execution == e;
      }
    }
    assert status == Pending ==> !HasAttempt(g', |g.executions|);
    assert forall e: nat :: e < |g.executions| && Overtaken(g, e) ==> Overtaken(g', e);
  }

  /**
   When no adapter answers PENDING, every execution of a request but its newest is FAILED, or
   is a PENDING row whose call died before the adapter could be reached. So of all the
   adapter calls made for one request, all but the last ended FAILED.
   */
  lemma {:induction false} AllButTheNewestFailed(ops: seq<Op>)
    requires AnswersAreFinal(ops)
    ensures var g := RunOps(EMPTY, ops);
      && OnlyNewestLives(g)
      && (forall k :: 0 <= k < |g.calls| ==> g.calls[k].execution < |g.executions|)
      && forall j, k :: 0 <= j < k < |g.calls| && g.calls[j].request == g.calls[k].request
           ==> g.executions[g.calls[j].execution].status == Failed
  {
    var g := RunOps(EMPTY, ops);
    GovernanceSafety(ops);
    if ops != [] {
      var n := |ops| - 1;
      var before := RunOps(EMPTY, ops[..n]);
      GovernanceSafety(ops[..n]);
      AllButTheNewestFailed(ops[..n]);
      if ops[n].Execute? {
        ExecuteKeepsNewest(before, ops[n]);
      } else {
        assert g.executions == before.executions && g.attempts == before.attempts;
        assert forall e :: 0 <= e < |g.executions| ==> HasAttempt(g, e) == HasAttempt(before, e);
        assert forall e :: 0 <= e < |g.executions| && Overtaken(before, e) ==> Overtaken(g, e);
      }
    }
    assert forall k :: 0 <= k < |g.calls| ==> CalledAs(g, g.calls[k]);
    forall j, k | 0 <= j < k < |g.calls| && g.calls[j].request == g.calls[k].request
      ensures g.executions[g.calls[j].execution].status == Failed
    {
      assert CalledAs(g, g.calls[j]) && CalledAs(g, g.calls[k]);
      assert Overtaken(g, g.calls[j].execution) && HasAttempt(g, g.calls[j].execution);
    }
  }

  /**
   The exact reach of the guard. After an undisturbed call under `first` whose adapter gave
   `answer`, a later call under another unused key reaches the adapter if and only if the
   answer was FAILED or PENDING; so an adapter that answers PENDING is called twice.
   */
  lemma SecondKeyRunsIff(db: Db, request: nat, first: string, second: string, answer: ExecStatus)
    requires first != second && !HasKey(db, second)
    requires Calls(db, request, first, Script(Never, Answers(answer), false, false, true))
    ensures var after := SerialDb(db, request, first, Script(Never, Answers(answer), false, false, true));
      forall s: Script :: s.stop.Never? ==> (Calls(after, request, second, s) <==> answer in {Failed, Pending})
  {
    var script := Script(Never, Answers(answer), false, false, true);
    var after := SerialDb(db, request, first, script);
    var n := |db.executions|;
    assert after.executions[n] == Execution(request, first, answer);
    assert forall e :: 0 <= e < n ==> after.executions[e] == db.executions[e];
    assert !HasKey(after, second);
    if answer in {Failed, Pending} {
      assert !Blocked(after, request, second);
    } else {
      assert Blocked(after, request, second);
    }
  }

  // ---------------------------------------------------------------- joining the chain

  /** Executions found by the request's own discrepancy column, as the close check does. */
  ghost predicate ByShortcut(g: Gov, discrepancy: string, e: nat) {
    exists r :: 0 <= r < |g.requests| && g.requests[r].discrepancy == discrepancy
      && e < |g.executions| && g.executions[e].request == r
  }

  /** Executions found by joining investigation, evaluation, request and execution. */
  ghost predicate ByChain(g: Gov, discrepancy: string, e: nat) {
    exists i, v, r ::
      && 0 <= i < |g.investigations| && g.investigations[i] == discrepancy
      && 0 <= v < |g.evaluations| && g.evaluations[v].investigation == i
      && 0 <= r < |g.requests| && g.requests[r].evaluation == v
      && e < |g.executions| && g.executions[e].request == r
  }

  lemma {:induction false} ShortcutFindsTheChain(ops: seq<Op>, discrepancy: string, e: nat)
    ensures var g := RunOps(EMPTY, ops); ByShortcut(g, discrepancy, e) <==> ByChain(g, discrepancy, e)
  {
    var g := RunOps(EMPTY, ops);
    GovernanceSafety(ops);
    if ByShortcut(g, discrepancy, e) {
      var r :| 0 <= r < |g.requests| && g.requests[r].discrepancy == discrepancy
        && e < |g.executions| && g.executions[e].request == r;
      var v := g.requests[r].evaluation;
      var i := g.evaluations[v].investigation;
      assert g.investigations[i] == discrepancy;
    }
    if ByChain(g, discrepancy, e) {
      var i, v, r :|
        && 0 <= i < |g.investigations| && g.investigations[i] == discrepancy
        && 0 <= v < |g.evaluations| && g.evaluations[v].investigation == i
        && 0 <= r < |g.requests| && g.requests[r].evaluation == v
        && e < |g.executions| && g.executions[e].request == r;
      assert g.requests[r].discrepancy == discrepancy;
    }
  }

  // ---------------------------------------------------------------- the services

  class GovernanceService {
    var investigations: seq<string>
    var evaluations: seq<Evaluation>
    var requests: seq<Request>
    var audits: seq<Audit>
    var executions: seq<Execution>
    var attempts: seq<Attempt>
    var calls: seq<Call>

    ghost function State(): Gov
      reads this
    {
      Gov(investigations, evaluations, requests, audits, executions, attempts, calls)
    }

    constructor ()
      ensures State() == EMPTY
    {
      investigations, evaluations, requests, audits := [], [], [], [];
      executions, attempts, calls := [], [], [];
    }

    /** Raises (None) for an unknown investigation, else gives the evaluation now on record. */
    method EvaluatePolicy(investigation: nat, action: PolicyAction) returns (evaluation: Option<nat>)
      requires Coherent(State())
      modifies `evaluations
      ensures State() == Apply(old(State()), Evaluate(investigation, action)) && Coherent(State())
      ensures evaluation.None? <==> investigation >= |investigations|
      ensures evaluation.Some? ==> evaluation.value < |evaluations|
      ensures evaluation.Some? ==>
          evaluations[evaluation.value] ==
              Evaluation(investigation, investigations[investigation], action, DecisionFor(action))
    {
      ApplyKeepsCoherent(State(), Evaluate(investigation, action));
      if investigation >= |investigations| { return None; }
      var decision;
      match action {
        case RequestManualReview => decision := Allowed;
        case RetryInvestigation => decision := Allowed;
        case ResolveDiscrepancy => decision := ApprovalRequired;
        case RejectRecommendation => decision := ApprovalRequired;
        case Escalate => decision := ApprovalRequired;
      }
      // The newest evaluation of this pair, if any.
      var v := |evaluations|;
      while v > 0
        invariant 0 <= v <= |evaluations|
        invariant forall u :: v <= u < |evaluations| ==>
          evaluations[u].investigation != investigation || evaluations[u].action != action
      {
        v := v - 1;
        if evaluations[v].investigation == investigation && evaluations[v].action == action {
          // Its decision is a function of the action, so it is the one just reached.
          return Some(v);
        }
      }
      assert !Evaluated(State(), investigation, action);
      evaluations := evaluations + [Evaluation(investigation, investigations[investigation], action, decision)];
      return Some(|evaluations| - 1);
    }

    /** Raises (None) unless the evaluation asks for approval; asking again gives the same request. */
    method CreateFromEvaluation(evaluation: nat) returns (request: Option<nat>)
      requires Coherent(State())
      modifies `requests
      ensures State() == Apply(old(State()), Create(evaluation)) && Coherent(State())
      ensures request.None? <==> evaluation >= |evaluations| || evaluations[evaluation].decision != ApprovalRequired
      ensures request.Some? ==> request.value < |requests| && requests[request.value].evaluation == evaluation
    {
      ApplyKeepsCoherent(State(), Create(evaluation));
      if evaluation >= |evaluations| || evaluations[evaluation].decision != ApprovalRequired { return None; }
      for r := 0 to |requests|
        invariant forall q :: 0 <= q < r ==> requests[q].evaluation != evaluation
      {
        if requests[r].evaluation == evaluation { return Some(r); }
      }
      var e := evaluations[evaluation];
      requests := requests + [Request(evaluation, e.investigation, e.discrepancy, e.action, PendingApproval)];
      return Some(|requests| - 1);
    }

    /** Approve, reject and cancel: the status moves and the audit row records the move. */
    method TransitionState(request: nat, status: RequestStatus) returns (ok: bool)
      requires Coherent(State())
      modifies `requests, `audits
      ensures State() == Apply(old(State()), Transition(request, status)) && Coherent(State())
      ensures ok <==>
          request < |old(requests)| && old(requests)[request].status == PendingApproval && status != PendingApproval
    {
      ApplyKeepsCoherent(State(), Transition(request, status));
      if request >= |requests| || !CanTransition(requests[request].status, status) { return false; }
      var previous := requests[request].status;
      requests := requests[request := requests[request].(status := status)];
      audits := audits + [Audit(request, previous, status)];
      return true;
    }
  }
}
